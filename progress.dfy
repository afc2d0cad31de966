/**
 * The progress bar: a fixed-width bar and a percentage, redrawn in place on
 * the current terminal line each time the bar is updated.
 */
module Progress {
  import opened Wrappers
  import opened Styles
  import opened Themes
  import opened TextUtil
  import opened Terminal
  import opened Logging
  import opened Arith

  /** `Math.max(0, Math.min(value, total))`. */
  function Clamp(value: int, total: int): (r: int)
    requires total >= 1
    ensures 0 <= r <= total
    ensures 0 <= value <= total ==> r == value
    ensures value < 0 ==> r == 0
    ensures value > total ==> r == total
  {
    if value < 0 then 0 else if value > total then total else value
  }

  /**
   * `Math.round(scale * part / whole)` for 0 <= part <= whole, computed
   * exactly: half-way cases round up, as `Math.round` does.
   */
  function RoundedShare(scale: nat, part: nat, whole: nat): nat
    requires 1 <= whole && part <= whole
  {
    (2 * scale * part + whole) / (2 * whole)
  }

  /**
   * The rounded share is the integer nearest to scale * part / whole (ties
   * upward), and it lies between 0 and scale.
   */
  lemma RoundedShareIsNearest(scale: nat, part: nat, whole: nat)
    requires 1 <= whole && part <= whole
    ensures var r := RoundedShare(scale, part, whole);
            && 2 * whole * r <= 2 * scale * part + whole < 2 * whole * r + 2 * whole
            && r <= scale
  {
    var r := RoundedShare(scale, part, whole);
    var n := 2 * scale * part + whole;
    var d := 2 * whole;
    assert n == d * r + n % d && 0 <= n % d < d;
    assert 2 * scale * part <= 2 * scale * whole by {
      assert scale * part <= scale * whole by { MulMonotone(scale, part, whole); }
    }
    if r > scale {
      assert d * r >= d * (scale + 1) by { MulMonotone(d, scale + 1, r); }
      assert false;
    }
  }

  /** A larger part never gives a smaller rounded share: the bar never shrinks as progress grows. */
  lemma RoundedShareIsMonotone(scale: nat, p1: nat, p2: nat, whole: nat)
    requires 1 <= whole && p1 <= p2 <= whole
    ensures RoundedShare(scale, p1, whole) <= RoundedShare(scale, p2, whole)
  {
    assert 2 * scale * p1 <= 2 * scale * p2 by { MulMonotone(2 * scale, p1, p2); }
    DivMonotone(2 * scale * p1 + whole, 2 * scale * p2 + whole, 2 * whole);
  }

  /** At no progress the share is 0, at full progress it is the whole scale. */
  lemma RoundedShareEnds(scale: nat, whole: nat)
    requires 1 <= whole
    ensures RoundedShare(scale, 0, whole) == 0
    ensures RoundedShare(scale, whole, whole) == scale
  {
    DivModUnique(2 * scale * 0 + whole, 2 * whole, 0, whole);
    DivModUnique(2 * scale * whole + whole, 2 * whole, scale, whole);
  }

  /** `completeWidth`: the filled cells, `Math.round(width * current / total)`. */
  function CompleteWidth(width: nat, current: nat, total: nat): (w: nat)
    requires 1 <= total && current <= total
    ensures w <= width
  {
    RoundedShareIsNearest(width, current, total);
    RoundedShare(width, current, total)
  }

  /** The percentage shown, `Math.round(100 * current / total)`. */
  function Percent(current: nat, total: nat): (p: nat)
    requires 1 <= total && current <= total
    ensures p <= 100
  {
    RoundedShareIsNearest(100, current, total);
    RoundedShare(100, current, total)
  }

  /** At no progress the bar has no complete cell and shows 0%; at full progress every cell is complete and it shows 100%. */
  lemma ProgressEnds(width: nat, total: nat)
    requires 1 <= total
    ensures CompleteWidth(width, 0, total) == 0 && Percent(0, total) == 0
    ensures CompleteWidth(width, total, total) == width && Percent(total, total) == 100
  {
    RoundedShareEnds(width, total);
    RoundedShareEnds(100, total);
  }

  /**
   * `[<filled complete cells><empty incomplete cells>] <percent>%`: the
   * text opens with the bracket and closes with the percent sign.
   */
  function BarText(completeChar: string, incompleteChar: string, filled: nat, empty: nat, percent: nat): (r: string)
    ensures |r| >= 5 && r[0] == '[' && r[|r| - 1] == '%'
  {
    "[" + Repeat(completeChar, filled) + Repeat(incompleteChar, empty) + "] " + DecimalString(percent) + "%"
  }

  /**
   * With one-character glyphs the bar has exactly `filled + empty` cells
   * between its brackets, the first `filled` complete and the rest incomplete.
   */
  lemma BarCells(complete: char, incomplete: char, filled: nat, empty: nat, percent: nat, i: nat)
    requires i < filled + empty
    ensures var text := BarText([complete], [incomplete], filled, empty, percent);
            && |text| > filled + empty + 1 && text[0] == '[' && text[filled + empty + 1] == ']'
            && text[i + 1] == if i < filled then complete else incomplete
  {
    var cells := Repeat([complete], filled) + Repeat([incomplete], empty);
    RepeatLength([complete], filled);
    RepeatLength([incomplete], empty);
    var text := BarText([complete], [incomplete], filled, empty, percent);
    assert text == "[" + cells + ("] " + DecimalString(percent) + "%");
    assert text[i + 1] == cells[i];
    assert text[filled + empty + 1] == ']';
    if i < filled {
      RepeatCharAt(complete, filled, i);
    } else {
      RepeatCharAt(incomplete, empty, i - filled);
    }
  }

  /** A full bar reads `[` + width complete glyphs + `] 100%`. */
  lemma FullBarText(completeChar: string, incompleteChar: string, width: nat)
    ensures BarText(completeChar, incompleteChar, width, 0, 100) == "[" + Repeat(completeChar, width) + "] 100%"
  {
    assert DecimalString(100) == "100" by {
      assert DecimalString(1) == "1";
      assert DecimalString(10) == "10";
    }
  }

  /** An empty bar reads `[` + width incomplete glyphs + `] 0%`. */
  lemma EmptyBarText(completeChar: string, incompleteChar: string, width: nat)
    ensures BarText(completeChar, incompleteChar, 0, width, 0) == "[" + Repeat(incompleteChar, width) + "] 0%"
  {
    assert DecimalString(0) == "0";
  }

  /** Four cells at one of four: one complete cell, three incomplete ones, 25%. */
  lemma QuarterBar()
    ensures CompleteWidth(4, 1, 4) == 1 && Percent(1, 4) == 25
    ensures BarText("#", "-", 1, 3, 25) == "[#---] 25%"
  {
    assert DecimalString(25) == "25";
  }

  const DEFAULT_WIDTH: nat := 30
  const DEFAULT_COMPLETE_CHAR: string := "\U{2588}"
  const DEFAULT_INCOMPLETE_CHAR: string := "\U{2591}"
  const DEFAULT_BAR_STYLE: StyleConfig := StyleConfig(Some("green"), None, Some("bright"))

  /** The bar's options; absent (or, for the width and glyphs, falsy) ones take the defaults. */
  datatype BarOptions = BarOptions(width: Option<nat>, completeChar: Option<string>, incompleteChar: Option<string>, style: Option<StyleConfig>)

  /** What one `update` writes: the line clear, the styled bar, and the caller's text after a space if any. */
  function UpdateWrites(enabled: bool, style: StyleConfig, barText: string, text: Option<string>): (w: seq<string>)
    ensures |w| == if Truthy(text) then 3 else 2
    ensures w[0] == CLEAR_LINE
    ensures w[1] == Colorize(enabled, barText, style.color, style.bgColor, OrAbsent(style.style))
    ensures Truthy(text) ==> w[2] == " " + text.value
  {
    [CLEAR_LINE, Colorize(enabled, barText, style.color, style.bgColor, OrAbsent(style.style))]
      + (if Truthy(text) then [" " + text.value] else [])
  }

  /**
   * The styled bar is the bar text wrapped in the style, background and
   * color codes, or the bare bar text when disabled: the `|| undefined` on
   * the style changes nothing.
   */
  lemma UpdateDrawsCodes(enabled: bool, style: StyleConfig, barText: string, text: Option<string>)
    ensures UpdateWrites(enabled, style, barText, text)[1]
      == if enabled then Code(style.style) + Code(style.bgColor) + Code(style.color) + barText + RESET else barText
  {
  }

  class ProgressBar {
    var current: int
    const total: int
    const width: nat
    const completeChar: string
    const incompleteChar: string
    const style: StyleConfig
    const logger: Logger

    /** The total is at least 1 and progress lies in [0, total]. */
    ghost predicate Valid()
      reads this
    {
      1 <= total && 0 <= current <= total
    }

    constructor(total: int, logger: Logger, options: BarOptions)
      ensures Valid()
      ensures this.total == if total < 1 then 1 else total
      ensures current == 0 && this.logger == logger
      ensures width == if options.width.None? || options.width.value == 0 then DEFAULT_WIDTH else options.width.value
      ensures completeChar == if Truthy(options.completeChar) then options.completeChar.value else DEFAULT_COMPLETE_CHAR
      ensures incompleteChar == if Truthy(options.incompleteChar) then options.incompleteChar.value else DEFAULT_INCOMPLETE_CHAR
      ensures style == if options.style.Some? then options.style.value else DEFAULT_BAR_STYLE
    {
      current := 0;
      this.total := if total < 1 then 1 else total;
      width := if options.width.None? || options.width.value == 0 then DEFAULT_WIDTH else options.width.value;
      completeChar := if Truthy(options.completeChar) then options.completeChar.value else DEFAULT_COMPLETE_CHAR;
      incompleteChar := if Truthy(options.incompleteChar) then options.incompleteChar.value else DEFAULT_INCOMPLETE_CHAR;
      style := if options.style.Some? then options.style.value else DEFAULT_BAR_STYLE;
      this.logger := logger;
    }

    /** The bar as it reads for the current progress: all incomplete at 0, all complete at 100% when done. */
    function Text(): (r: string)
      reads this
      requires Valid()
      ensures current == 0 ==> r == BarText(completeChar, incompleteChar, 0, width, 0)
      ensures current == total ==> r == BarText(completeChar, incompleteChar, width, 0, 100)
    {
      ProgressEnds(width, total);
      var filled := CompleteWidth(width, current, total);
      BarText(completeChar, incompleteChar, filled, width - filled, Percent(current, total))
    }

    /** `update`: clamp the value into [0, total] and redraw the line. */
    method Update(value: int, text: Option<string>) returns (self: ProgressBar)
      requires Valid()
      modifies this, logger.out
      ensures self == this && Valid()
      ensures current == Clamp(value, total)
      ensures logger.out.writes == old(logger.out.writes) + UpdateWrites(logger.enabled, style, Text(), text)
    {
      current := Clamp(value, total);
      var barText := Text();
      logger.out.Write(CLEAR_LINE);
      logger.out.Write(Colorize(logger.enabled, barText, style.color, style.bgColor, OrAbsent(style.style)));
      if Truthy(text) {
        logger.out.Write(" " + text.value);
      }
      self := this;
    }

    /**
     * `complete`: a full redraw at 100%, then a line terminator. What it
     * writes does not depend on the progress before, so calling it again
     * repeats the same output and leaves the same state.
     */
    method Complete(text: Option<string>) returns (self: ProgressBar)
      requires Valid()
      modifies this, logger.out
      ensures self == this && Valid()
      ensures current == total
      ensures logger.out.writes == old(logger.out.writes)
        + UpdateWrites(logger.enabled, style, BarText(completeChar, incompleteChar, width, 0, 100), text) + ["\n"]
    {
      var _ := Update(total, text);
      ProgressEnds(width, total);
      logger.out.Write("\n");
      self := this;
    }
  }

  /** Appending the same two pieces twice, from nothing, repeats the first output after it. */
  lemma RepeatedAppend<T>(u: seq<T>, x: seq<T>, first: seq<T>, both: seq<T>)
    requires first == [] + u + x && both == first + u + x
    ensures both[|first|..] == first
  {
  }

  /** Completing twice: both calls write the same full-bar redraw and newline, and the bar stays at its total. */
  method CompleteTwice(total: int, width: nat, text: Option<string>) returns (first: seq<string>, second: seq<string>, current: int, finalTotal: int)
    ensures first == second && current == finalTotal
    ensures |first| >= 3 && first[0] == CLEAR_LINE && first[|first| - 1] == "\n"
  {
    var registry := new ThemeRegistry();
    var out := new Stdout();
    var logger := new Logger(registry, out, NoTheme, None, None);
    var bar := new ProgressBar(total, logger, BarOptions(Some(width), None, None, None));
    var _ := bar.Complete(text);
    first := out.writes;
    ghost var enabled := logger.enabled;
    var _ := bar.Complete(text);
    assert logger.enabled == enabled;
    RepeatedAppend(UpdateWrites(enabled, bar.style, BarText(bar.completeChar, bar.incompleteChar, bar.width, 0, 100), text), ["\n"], first, out.writes);
    second := out.writes[|first|..];
    current, finalTotal := bar.current, bar.total;
  }
}
