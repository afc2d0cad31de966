/**
 * The spinner: while running, each timer tick redraws the current line with
 * the next glyph of a cyclic sequence of frames and the spinner's text.
 * The repeating timer is modelled by `Tick`, which can be called only while
 * the spinner runs.
 */
module Spinners {
  import opened Wrappers
  import opened Styles
  import opened Themes
  import opened Terminal
  import opened Logging
  import opened Arith

  const DEFAULT_FRAMES: seq<string> := [
    "\U{280B}", "\U{2819}", "\U{2839}", "\U{2838}", "\U{283C}",
    "\U{2834}", "\U{2826}", "\U{2827}", "\U{2807}", "\U{280F}"]
  const DEFAULT_INTERVAL: nat := 80
  const DEFAULT_SPINNER_STYLE: StyleConfig := StyleConfig(Some("cyan"), None, Some("bright"))

  /** The spinner's options; absent ones (and a zero interval) take the defaults. */
  datatype SpinnerOptions = SpinnerOptions(frames: Option<seq<string>>, interval: Option<nat>, style: Option<StyleConfig>)

  /** The frame index after one tick: one step forward, wrapping around to the first frame. */
  function NextFrame(i: nat, n: nat): (r: nat)
    requires i < n
    ensures r < n
    ensures r == if i + 1 == n then 0 else i + 1
  {
    (i + 1) % n
  }

  /** The frame index after `ticks` ticks, one `NextFrame` at a time. */
  function FrameAfter(start: nat, n: nat, ticks: nat): (r: nat)
    requires start < n
    ensures r < n
  {
    if ticks == 0 then start else NextFrame(FrameAfter(start, n, ticks - 1), n)
  }

  /** Ticking is counting modulo the number of frames. */
  lemma {:induction false} FrameAfterIsModular(start: nat, n: nat, ticks: nat)
    requires start < n
    ensures FrameAfter(start, n, ticks) == (start + ticks) % n
  {
    if ticks > 0 {
      FrameAfterIsModular(start, n, ticks - 1);
      StepModulo(start + ticks - 1, n);
    }
  }

  /** One more step of a counter is one more step of its remainder. */
  lemma StepModulo(k: nat, n: nat)
    requires n > 0
    ensures (k % n + 1) % n == (k + 1) % n
  {
    var q, r := k / n, k % n;
    assert k == n * q + r;
    if r + 1 == n {
      DivModUnique(k + 1, n, q + 1, 0);
      DivModUnique(r + 1, n, 1, 0);
    } else {
      DivModUnique(k + 1, n, q, r + 1);
      DivModUnique(r + 1, n, 0, r + 1);
    }
  }

  /** After as many ticks as there are frames, the spinner shows the frame it started from. */
  lemma FramesCycle(start: nat, n: nat)
    requires start < n
    ensures FrameAfter(start, n, n) == start
  {
    FrameAfterIsModular(start, n, n);
    DivModUnique(start + n, n, 1, start);
  }

  /**
   * What a tick writes: the line clear, the glyph wrapped in the spinner's
   * style, background and color codes (the bare glyph when disabled), then a
   * space and the text.
   */
  function TickWrites(enabled: bool, style: StyleConfig, frame: string, text: string): (w: seq<string>)
    ensures |w| == 3 && w[0] == CLEAR_LINE && w[2] == " " + text
    ensures w[1] == if enabled then Code(style.style) + Code(style.bgColor) + Code(style.color) + frame + RESET else frame
  {
    [CLEAR_LINE, Colorize(enabled, frame, style.color, style.bgColor, OrAbsent(style.style)), " " + text]
  }

  /** What `stop` writes: nothing when idle; otherwise the line clear, the cursor back, and the text on a line if any. */
  function StopWrites(running: bool, text: Option<string>): (w: seq<string>)
    ensures !running ==> w == []
    ensures running ==> |w| == (if Truthy(text) then 3 else 2) && w[..2] == [CLEAR_LINE, SHOW_CURSOR]
    ensures running && Truthy(text) ==> w[2] == Line(text.value)
  {
    if !running then []
    else [CLEAR_LINE, SHOW_CURSOR] + if Truthy(text) then [Line(text.value)] else []
  }

  class Spinner {
    var text: string
    const frames: seq<string>
    const interval: nat
    const style: StyleConfig
    const logger: Logger
    /** Whether the repeating timer is installed (`intervalId` is set). */
    var running: bool
    var currentFrame: nat
    /** The number of ticks since construction. */
    ghost var ticks: nat

    /** There is a frame to show, and the index counts ticks modulo the number of frames. */
    ghost predicate Valid()
      reads this
    {
      |frames| > 0 && currentFrame == ticks % |frames|
    }

    constructor(text: string, logger: Logger, options: SpinnerOptions)
      requires options.frames.None? || |options.frames.value| > 0
      ensures Valid() && !running && currentFrame == 0 && ticks == 0
      ensures this.text == text && this.logger == logger
      ensures frames == if options.frames.Some? then options.frames.value else DEFAULT_FRAMES
      ensures interval == if options.interval.None? || options.interval.value == 0 then DEFAULT_INTERVAL else options.interval.value
      ensures style == if options.style.Some? then options.style.value else DEFAULT_SPINNER_STYLE
    {
      running := false;
      currentFrame := 0;
      ticks := 0;
      this.text := text;
      frames := if options.frames.Some? then options.frames.value else DEFAULT_FRAMES;
      interval := if options.interval.None? || options.interval.value == 0 then DEFAULT_INTERVAL else options.interval.value;
      style := if options.style.Some? then options.style.value else DEFAULT_SPINNER_STYLE;
      this.logger := logger;
    }

    /** `start`: a no-op while running; otherwise hide the cursor and install the timer. */
    method Start() returns (self: Spinner)
      requires Valid()
      modifies this, logger.out
      ensures self == this && Valid() && running
      ensures text == old(text) && currentFrame == old(currentFrame) && ticks == old(ticks)
      ensures logger.out.writes == old(logger.out.writes) + if old(running) then [] else [HIDE_CURSOR]
    {
      self := this;
      if running {
        return;
      }
      logger.out.Write(HIDE_CURSOR);
      running := true;
    }

    /** One firing of the timer: draw the current frame and text, then advance to the next frame. */
    method Tick()
      requires Valid() && running
      modifies this, logger.out
      ensures Valid() && running && text == old(text)
      ensures ticks == old(ticks) + 1
      ensures currentFrame == NextFrame(old(currentFrame), |frames|)
      ensures logger.out.writes == old(logger.out.writes) + TickWrites(logger.enabled, style, frames[old(currentFrame)], text)
    {
      var frame := frames[currentFrame];
      logger.out.Write(CLEAR_LINE);
      logger.out.Write(Colorize(logger.enabled, frame, style.color, style.bgColor, OrAbsent(style.style)));
      logger.out.Write(" " + text);
      StepModulo(ticks, |frames|);
      currentFrame := (currentFrame + 1) % |frames|;
      ticks := ticks + 1;
    }

    /** `update`: replaces the text only; the next tick shows it, with no frame reset. */
    method Update(text: string) returns (self: Spinner)
      requires Valid()
      modifies this
      ensures self == this && Valid() && this.text == text
      ensures running == old(running) && currentFrame == old(currentFrame) && ticks == old(ticks)
    {
      this.text := text;
      self := this;
    }

    /** `stop`: a no-op while idle; otherwise remove the timer, clear the line, show the cursor, print the text. */
    method Stop(text: Option<string>) returns (self: Spinner)
      requires Valid()
      modifies this, logger.out
      ensures self == this && Valid() && !running
      ensures this.text == old(this.text) && currentFrame == old(currentFrame) && ticks == old(ticks)
      ensures logger.out.writes == old(logger.out.writes) + StopWrites(old(running), text)
    {
      self := this;
      if !running {
        return;
      }
      running := false;
      logger.out.Write(CLEAR_LINE);
      logger.out.Write(SHOW_CURSOR);
      if Truthy(text) {
        logger.out.Write(Line(text.value));
      }
    }

    /** `success`: stop, then a themed success line with the given text or else the spinner's own. */
    method Success(text: Option<string>) returns (self: Spinner)
      requires Valid()
      modifies this, logger.out
      ensures self == this && Valid() && !running && this.text == old(this.text)
      ensures currentFrame == old(currentFrame) && ticks == old(ticks)
      ensures logger.out.writes == old(logger.out.writes) + StopWrites(old(running), None)
        + [Line(CategoryText(logger.enabled, logger.theme, Category.Success,
                             if Truthy(text) then text.value else this.text, None))]
    {
      var successText := if Truthy(text) then text.value else this.text;
      var _ := Stop(None);
      var _ := logger.Success(successText, None);
      self := this;
    }

    /** `error`: stop, then a themed error line with the given text or else the spinner's own. */
    method Error(text: Option<string>) returns (self: Spinner)
      requires Valid()
      modifies this, logger.out
      ensures self == this && Valid() && !running && this.text == old(this.text)
      ensures currentFrame == old(currentFrame) && ticks == old(ticks)
      ensures logger.out.writes == old(logger.out.writes) + StopWrites(old(running), None)
        + [Line(CategoryText(logger.enabled, logger.theme, Category.Error,
                             if Truthy(text) then text.value else this.text, None))]
    {
      var errorText := if Truthy(text) then text.value else this.text;
      var _ := Stop(None);
      var _ := logger.Error(errorText, None);
      self := this;
    }
  }

  /** Starting twice installs one timer and hides the cursor once; stopping then restores it once. */
  method StartTwiceStopTwice(text: string) returns (writes: seq<string>, running: bool)
    ensures writes == [HIDE_CURSOR, CLEAR_LINE, SHOW_CURSOR]
    ensures !running
  {
    var registry := new ThemeRegistry();
    var out := new Stdout();
    var logger := new Logger(registry, out, NoTheme, None, None);
    var spinner := new Spinner(text, logger, SpinnerOptions(None, None, None));
    var _ := spinner.Start();
    var _ := spinner.Start();
    var _ := spinner.Stop(None);
    var _ := spinner.Stop(None);
    writes := out.writes;
    running := spinner.running;
  }
}
