/**
 * The style table and the colorizer: symbolic style names map to ANSI
 * "Select Graphic Rendition" control sequences (ECMA-48 section 8.3.117),
 * and `Colorize` wraps a text in the codes for a style, a background and a
 * foreground color, followed by the reset code.
 */
module Styles {
  import opened Wrappers

  const ESC: char := '\U{1B}'

  /** The style table `COLORS`: name to escape sequence. */
  const COLORS: map<string, string> := map[
    // styles
    "reset" := "\U{1B}[0m",
    "bright" := "\U{1B}[1m",
    "dim" := "\U{1B}[2m",
    "underscore" := "\U{1B}[4m",
    "blink" := "\U{1B}[5m",
    "reverse" := "\U{1B}[7m",
    "hidden" := "\U{1B}[8m",
    // foreground colors
    "black" := "\U{1B}[30m",
    "red" := "\U{1B}[31m",
    "green" := "\U{1B}[32m",
    "yellow" := "\U{1B}[33m",
    "blue" := "\U{1B}[34m",
    "magenta" := "\U{1B}[35m",
    "cyan" := "\U{1B}[36m",
    "white" := "\U{1B}[37m",
    "gray" := "\U{1B}[90m",
    // background colors
    "bgBlack" := "\U{1B}[40m",
    "bgRed" := "\U{1B}[41m",
    "bgGreen" := "\U{1B}[42m",
    "bgYellow" := "\U{1B}[43m",
    "bgBlue" := "\U{1B}[44m",
    "bgMagenta" := "\U{1B}[45m",
    "bgCyan" := "\U{1B}[46m",
    "bgWhite" := "\U{1B}[47m",
    "bgGray" := "\U{1B}[100m"
  ]

  const RESET: string := "\U{1B}[0m"

  /** A well-formed SGR sequence: ESC '[' one or more decimal digits 'm'. */
  predicate IsSgr(s: string) {
    && |s| >= 4
    && s[0] == ESC && s[1] == '[' && s[|s| - 1] == 'm'
    && forall i :: 2 <= i < |s| - 1 ==> '0' <= s[i] <= '9'
  }

  /** `isValidColor`: a present, non-empty name that is a key of the table. */
  predicate IsValidColor(name: Option<string>) {
    Truthy(name) && name.value in COLORS
  }

  /** The falsy guard adds nothing: a name is valid exactly when it is present and a key of the table. */
  lemma IsValidColorIsKey(name: Option<string>)
    ensures IsValidColor(name) <==> name.Some? && name.value in COLORS
  {
  }

  /** The code one axis contributes: the table entry, or nothing for an absent or unknown name. */
  function Code(name: Option<string>): string {
    if IsValidColor(name) then COLORS[name.value] else ""
  }

  /** An axis contributes either nothing or one well-formed SGR sequence, and something exactly for a valid name. */
  lemma CodeIsSgrOrEmpty(name: Option<string>)
    ensures Code(name) == "" || IsSgr(Code(name))
    ensures Code(name) != "" <==> IsValidColor(name)
  {
    if IsValidColor(name) {
      TableEntriesAreSgr(name.value);
    }
  }

  /**
   * `_colorize`: when disabled the text itself; otherwise the style code,
   * the background code and the color code (each only for a valid name),
   * then the text, then the reset code.
   */
  function Colorize(enabled: bool, text: string, color: Option<string>, bgColor: Option<string>, style: Option<string>): (r: string)
    ensures !enabled ==> r == text
    ensures enabled ==> r == Code(style) + Code(bgColor) + Code(color) + text + RESET
  {
    if !enabled then text
    else
      var afterStyle := if IsValidColor(style) then COLORS[style.value] else "";
      var afterBg := if IsValidColor(bgColor) then afterStyle + COLORS[bgColor.value] else afterStyle;
      var afterColor := if IsValidColor(color) then afterBg + COLORS[color.value] else afterBg;
      afterColor + text + RESET
  }

  /** The reset code is the table's own `reset` entry. */
  lemma ResetIsTableEntry()
    ensures "reset" in COLORS && COLORS["reset"] == RESET
  {
  }

  /** Every table entry is a non-empty, well-formed SGR control sequence. */
  lemma TableEntriesAreSgr(name: string)
    requires name in COLORS
    ensures IsSgr(COLORS[name])
  {
  }

  /** Distinct names carry distinct codes, so the code identifies the name. */
  lemma TableIsInjective(a: string, b: string)
    requires a in COLORS && b in COLORS && a != b
    ensures COLORS[a] != COLORS[b]
  {
  }

  /** A name that is absent, empty or not a key changes nothing: same as omitting that axis. */
  lemma UnknownNameIsOmitted(enabled: bool, text: string, color: Option<string>, bgColor: Option<string>, style: Option<string>, name: Option<string>)
    requires !IsValidColor(name)
    ensures Colorize(enabled, text, name, bgColor, style) == Colorize(enabled, text, None, bgColor, style)
    ensures Colorize(enabled, text, color, name, style) == Colorize(enabled, text, color, None, style)
    ensures Colorize(enabled, text, color, bgColor, name) == Colorize(enabled, text, color, bgColor, None)
  {
  }

  /**
   * The enabled output frames the text: it starts with the applied codes,
   * holds the text verbatim right after them, and ends with the reset code.
   */
  lemma ColorizeFramesText(text: string, color: Option<string>, bgColor: Option<string>, style: Option<string>)
    ensures var codes := Code(style) + Code(bgColor) + Code(color);
            var r := Colorize(true, text, color, bgColor, style);
            && |r| == |codes| + |text| + |RESET|
            && r[..|codes|] == codes
            && r[|codes|..|codes| + |text|] == text
            && r[|r| - |RESET|..] == RESET
  {
    var codes := Code(style) + Code(bgColor) + Code(color);
    var r := Colorize(true, text, color, bgColor, style);
    assert r == codes + text + RESET;
    assert r[..|codes|] == codes;
    assert r[|codes|..|codes| + |text|] == text;
  }

  /** With the same styling, different texts give different outputs: the text can be recovered. */
  lemma ColorizeIsInjectiveInText(enabled: bool, t1: string, t2: string, color: Option<string>, bgColor: Option<string>, style: Option<string>)
    requires Colorize(enabled, t1, color, bgColor, style) == Colorize(enabled, t2, color, bgColor, style)
    ensures t1 == t2
  {
    if enabled {
      ColorizeFramesText(t1, color, bgColor, style);
      ColorizeFramesText(t2, color, bgColor, style);
    }
  }

  /** Two enabled outputs with the same text carry the same applied codes. */
  lemma ColorizeDeterminesCodes(text: string, c1: Option<string>, bg1: Option<string>, s1: Option<string>, c2: Option<string>, bg2: Option<string>, s2: Option<string>)
    requires Colorize(true, text, c1, bg1, s1) == Colorize(true, text, c2, bg2, s2)
    ensures Code(s1) + Code(bg1) + Code(c1) == Code(s2) + Code(bg2) + Code(c2)
  {
    ColorizeFramesText(text, c1, bg1, s1);
    ColorizeFramesText(text, c2, bg2, s2);
  }

  /** Two different valid style names always give different enabled outputs. */
  lemma StyleAxisIsVisible(text: string, color: Option<string>, bgColor: Option<string>, s1: Option<string>, s2: Option<string>)
    requires IsValidColor(s1) && IsValidColor(s2) && s1 != s2
    ensures Colorize(true, text, color, bgColor, s1) != Colorize(true, text, color, bgColor, s2)
  {
    if Colorize(true, text, color, bgColor, s1) == Colorize(true, text, color, bgColor, s2) {
      ColorizeDeterminesCodes(text, color, bgColor, s1, color, bgColor, s2);
      var codes := Code(s1) + Code(bgColor) + Code(color);
      assert |Code(s1)| == |Code(s2)|;
      assert Code(s1) == codes[..|Code(s1)|];
      assert Code(s2) == (Code(s2) + Code(bgColor) + Code(color))[..|Code(s2)|];
      TableIsInjective(s1.value, s2.value);
      assert false;
    }
  }
}
