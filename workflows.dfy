/** The workflow logger: numbered step lines and framed start/end lines, all through one logger's info and other category methods. */
module Workflows {
  import opened Wrappers
  import opened Themes
  import opened TextUtil
  import opened Terminal
  import opened Logging

  const DIAMOND: string := "\U{25C6} "
  const CHECK: string := "  \U{2713} "
  const CROSS: string := "  \U{2717} "
  const WARN: string := "  \U{26A0} "

  /** The text of step number `n`: two spaces, the number, a dot and a space, then the message. */
  function StepText(n: nat, message: string): string {
    "  " + DecimalString(n) + ". " + message
  }

  /** The step number stands at a fixed place in the step text and can be read back from it. */
  lemma StepNumberReadable(n: nat, message: string)
    ensures var digits := DecimalString(n);
            var t := StepText(n, message);
            && |t| == 2 + |digits| + 2 + |message|
            && t[2..2 + |digits|] == digits
            && t[2 + |digits|..4 + |digits|] == ". "
            && t[4 + |digits|..] == message
  {
    var digits := DecimalString(n);
    var t := StepText(n, message);
    assert t == "  " + digits + ". " + message;
    assert t[2..2 + |digits|] == digits;
  }

  /** The number of decimal digits a string starts with. */
  function LeadingDigits(s: string): (k: nat)
    ensures k <= |s|
  {
    if |s| > 0 && IsDigit(s[0]) then 1 + LeadingDigits(s[1..]) else 0
  }

  /** A run of digits followed by a non-digit is exactly the leading digits. */
  lemma {:induction false} LeadingDigitsOf(d: string, rest: string)
    requires AllDigits(d) && |rest| > 0 && !IsDigit(rest[0])
    ensures LeadingDigits(d + rest) == |d|
  {
    if |d| > 0 {
      assert (d + rest)[1..] == d[1..] + rest;
      LeadingDigitsOf(d[1..], rest);
    } else {
      assert d + rest == rest;
    }
  }

  /** A run of digits ends where the dot begins, so it is fixed by the text it starts. */
  lemma DigitsEndAtDot(d1: string, d2: string, r1: string, r2: string)
    requires AllDigits(d1) && AllDigits(d2) && d1 + ". " + r1 == d2 + ". " + r2
    ensures d1 == d2
  {
    var t := d1 + ". " + r1;
    LeadingDigitsOf(d1, ". " + r1);
    LeadingDigitsOf(d2, ". " + r2);
    assert t == d1 + (". " + r1) == d2 + (". " + r2);
    assert d1 == t[..|d1|] && d2 == t[..|d2|];
  }

  /** Equal step texts carry equal step numbers, whatever the messages. */
  lemma StepTextDeterminesNumber(m: nat, n: nat, a: string, b: string)
    requires StepText(m, a) == StepText(n, b)
    ensures m == n
  {
    var dm, dn := DecimalString(m), DecimalString(n);
    assert dm + ". " + a == dn + ". " + b by {
      assert StepText(m, a) == "  " + (dm + ". " + a);
      assert StepText(n, b) == "  " + (dn + ". " + b);
      assert dm + ". " + a == StepText(m, a)[2..];
      assert dn + ". " + b == StepText(n, b)[2..];
    }
    DigitsEndAtDot(dm, dn, a, b);
    DecimalStringIsInjective(m, n);
  }

  /** The three lines that frame a workflow's start or end: blank, the diamond message in bright, blank. */
  function FrameLines(enabled: bool, theme: Theme, message: string): (w: seq<string>)
    ensures |w| == 3 && w[0] == w[2]
    ensures !enabled ==> w == ["\n", DIAMOND + message + "\n", "\n"]
  {
    [Line(CategoryText(enabled, theme, Category.Info, "", None)),
     Line(CategoryText(enabled, theme, Category.Info, DIAMOND + message, Some("bright"))),
     Line(CategoryText(enabled, theme, Category.Info, "", None))]
  }

  class Workflow {
    var steps: nat
    const logger: Logger

    /** `createWorkflow(options)`: a fresh logger on the shared registry and standard output. */
    constructor(registry: ThemeRegistry, out: Stdout, theme: ThemeSelector, enabled: Option<bool>, customTheme: Option<Theme>)
      requires registry.Valid()
      ensures steps == 0 && fresh(logger)
      ensures logger.registry == registry && logger.out == out
      ensures logger.enabled == (enabled.None? || enabled.value)
      ensures logger.theme == Resolve(registry.themes, InitialSelector(theme), customTheme)
    {
      steps := 0;
      logger := new Logger(registry, out, theme, enabled, customTheme);
    }

    /** `start`: the framed start lines, and the step counter back to 0. */
    method Start(message: string) returns (self: Workflow)
      modifies this, logger.out
      ensures self == this && steps == 0
      ensures logger.out.writes == old(logger.out.writes) + FrameLines(logger.enabled, logger.theme, message)
    {
      ghost var before := logger.out.writes;
      var _ := logger.Info("", None);
      var _ := logger.Info(DIAMOND + message, Some("bright"));
      var _ := logger.Info("", None);
      AppendThree(before, Line(CategoryText(logger.enabled, logger.theme, Category.Info, "", None)),
                  Line(CategoryText(logger.enabled, logger.theme, Category.Info, DIAMOND + message, Some("bright"))),
                  Line(CategoryText(logger.enabled, logger.theme, Category.Info, "", None)));
      steps := 0;
      self := this;
    }

    /** `step`: the counter goes up by one and the numbered step is logged as info. */
    method Step(message: string) returns (self: Workflow)
      modifies this, logger.out
      ensures self == this && steps == old(steps) + 1
      ensures logger.out.writes == old(logger.out.writes)
        + [Line(CategoryText(logger.enabled, logger.theme, Category.Info, StepText(steps, message), None))]
    {
      steps := steps + 1;
      var _ := logger.Info(StepText(steps, message), None);
      self := this;
    }

    method Success(message: string) returns (self: Workflow)
      modifies logger.out
      ensures self == this
      ensures logger.out.writes == old(logger.out.writes)
        + [Line(CategoryText(logger.enabled, logger.theme, Category.Success, CHECK + message, None))]
    {
      var _ := logger.Success(CHECK + message, None);
      self := this;
    }

    method Error(message: string) returns (self: Workflow)
      modifies logger.out
      ensures self == this
      ensures logger.out.writes == old(logger.out.writes)
        + [Line(CategoryText(logger.enabled, logger.theme, Category.Error, CROSS + message, None))]
    {
      var _ := logger.Error(CROSS + message, None);
      self := this;
    }

    method Warning(message: string) returns (self: Workflow)
      modifies logger.out
      ensures self == this
      ensures logger.out.writes == old(logger.out.writes)
        + [Line(CategoryText(logger.enabled, logger.theme, Category.Warning, WARN + message, None))]
    {
      var _ := logger.Warning(WARN + message, None);
      self := this;
    }

    /** `end`: the framed end lines; the counter is left as it is. */
    method End(message: string) returns (self: Workflow)
      modifies logger.out
      ensures self == this
      ensures logger.out.writes == old(logger.out.writes) + FrameLines(logger.enabled, logger.theme, message)
    {
      ghost var before := logger.out.writes;
      var _ := logger.Info("", None);
      var _ := logger.Info(DIAMOND + message, Some("bright"));
      var _ := logger.Info("", None);
      AppendThree(before, Line(CategoryText(logger.enabled, logger.theme, Category.Info, "", None)),
                  Line(CategoryText(logger.enabled, logger.theme, Category.Info, DIAMOND + message, Some("bright"))),
                  Line(CategoryText(logger.enabled, logger.theme, Category.Info, "", None)));
      self := this;
    }
  }

  /** Two elements appended after a prefix sit right after it. */
  lemma AppendedAt<T>(prefix: seq<T>, x: T, y: T)
    ensures (prefix + [x] + [y])[|prefix|] == x && (prefix + [x] + [y])[|prefix| + 1] == y
  {
  }

  /**
   * A start followed by two steps numbers them 1 and 2, after the three
   * framing lines; with colors off each step line is the bare step text.
   */
  method StartThenTwoSteps(first: string, second: string) returns (writes: seq<string>, steps: nat)
    ensures steps == 2 && |writes| == 5
    ensures writes[3] == StepText(1, first) + "\n"
    ensures writes[4] == StepText(2, second) + "\n"
  {
    var registry := new ThemeRegistry();
    var out := new Stdout();
    var workflow := new Workflow(registry, out, NoTheme, Some(false), None);
    var _ := workflow.Start("build");
    ghost var framed := out.writes;
    var _ := workflow.Step(first);
    ghost var x := Line(CategoryText(workflow.logger.enabled, workflow.logger.theme, Category.Info, StepText(workflow.steps, first), None));
    var _ := workflow.Step(second);
    ghost var y := Line(CategoryText(workflow.logger.enabled, workflow.logger.theme, Category.Info, StepText(workflow.steps, second), None));
    writes := out.writes;
    steps := workflow.steps;
    AppendedAt(framed, x, y);
  }
}
