/**
 * The logger facade (`ColorizeLogger`): an enabled flag and a current theme
 * of its own, a registry of themes shared with other loggers, and one line
 * written to standard output per logging call.
 */
module Logging {
  import opened Wrappers
  import opened Styles
  import opened Themes
  import opened Terminal

  /**
   * `customStyle || (style || undefined)`: a truthy override replaces the
   * slot's style, nothing else does; the code applied is the override's when
   * it is truthy and the slot's otherwise.
   */
  function EffectiveStyle(customStyle: Option<string>, slotStyle: Option<string>): (r: Option<string>)
    ensures Truthy(customStyle) ==> r == customStyle
    ensures Code(r) == if Truthy(customStyle) then Code(customStyle) else Code(slotStyle)
  {
    if Truthy(customStyle) then customStyle else OrAbsent(slotStyle)
  }

  /**
   * The text a category method prints (before its line terminator): the
   * text wrapped in the slot's style (or the override), background and
   * color, each only for a valid name; disabled, the bare text.
   */
  function CategoryText(enabled: bool, theme: Theme, category: Category, text: string, customStyle: Option<string>): (r: string)
    ensures var slot := Slot(theme, category);
            var style := if Truthy(customStyle) then customStyle else slot.style;
            r == if enabled then Code(style) + Code(slot.bgColor) + Code(slot.color) + text + RESET else text
  {
    var slot := Slot(theme, category);
    Colorize(enabled, text, slot.color, slot.bgColor, EffectiveStyle(customStyle, slot.style))
  }

  /** An override only touches the style axis: a valid one shows up, two different valid ones differ. */
  lemma OverrideIsVisible(theme: Theme, category: Category, text: string, o1: Option<string>, o2: Option<string>)
    requires IsValidColor(o1) && IsValidColor(o2) && o1 != o2
    ensures CategoryText(true, theme, category, text, o1) != CategoryText(true, theme, category, text, o2)
  {
    var slot := Slot(theme, category);
    StyleAxisIsVisible(text, slot.color, slot.bgColor, o1, o2);
  }

  /** Without a valid override, the category's own theme slot decides the style. */
  lemma NoOverrideUsesSlot(enabled: bool, theme: Theme, category: Category, text: string, customStyle: Option<string>)
    requires !Truthy(customStyle)
    ensures var slot := Slot(theme, category);
            CategoryText(enabled, theme, category, text, customStyle) == Colorize(enabled, text, slot.color, slot.bgColor, slot.style)
  {
    var slot := Slot(theme, category);
    if !Truthy(slot.style) {
      UnknownNameIsOmitted(enabled, text, slot.color, slot.bgColor, slot.style, slot.style);
    }
  }

  /** `options.theme || 'default'` at construction: an empty name or a non-theme value means "default". */
  function InitialSelector(selector: ThemeSelector): ThemeSelector {
    match selector
    case Named(name) => if name == "" then Named("default") else selector
    case Inline(_) => selector
    case NoTheme => Named("default")
  }

  /**
   * Construction resolves its theme exactly as `setTheme` would, except for
   * the empty name: there it picks "default", where `setTheme("")` looks up
   * the name "" itself.
   */
  lemma ConstructionResolvesLikeSetTheme(themes: map<string, Theme>, selector: ThemeSelector, customTheme: Option<Theme>)
    requires "default" in themes
    ensures selector != Named("") ==> Resolve(themes, InitialSelector(selector), customTheme) == Resolve(themes, selector, customTheme)
    ensures Resolve(themes, InitialSelector(Named("")), customTheme) == themes["default"]
    ensures "" in themes ==> Resolve(themes, Named(""), customTheme) == themes[""]
  {
  }

  /** The tagged table input: absent, an array of records, an array of scalars, or one record. */
  datatype TableData =
    | NoData
    | Records(rows: seq<seq<(string, string)>>)
    | Scalars(items: seq<string>)
    | Record(entries: seq<(string, string)>)

  /** `Object.keys(data).length`: an array's keys are its indices, a record's its entries. */
  function KeyCount(data: TableData): nat {
    match data
    case NoData => 0
    case Records(rows) => |rows|
    case Scalars(items) => |items|
    case Record(entries) => |entries|
  }

  /**
   * The empty-input test of `table`: no value, an empty array, or an object
   * without keys. The array test is subsumed by the key count: the input is
   * empty exactly when it has no keys.
   */
  predicate IsEmptyTable(data: TableData): (empty: bool)
    ensures empty <==> KeyCount(data) == 0
  {
    || data.NoData?
    || ((data.Records? || data.Scalars?) && KeyCount(data) == 0)
    || (!data.NoData? && KeyCount(data) == 0)
  }

  const NO_DATA_MESSAGE: string := "  No data to display"

  class Logger {
    const registry: ThemeRegistry
    const out: Stdout
    var enabled: bool
    var theme: Theme

    constructor(registry: ThemeRegistry, out: Stdout, theme: ThemeSelector, enabled: Option<bool>, customTheme: Option<Theme>)
      requires registry.Valid()
      ensures this.registry == registry && this.out == out
      ensures this.enabled == (enabled.None? || enabled.value)
      ensures this.theme == Resolve(registry.themes, InitialSelector(theme), customTheme)
    {
      this.registry := registry;
      this.out := out;
      this.enabled := enabled.None? || enabled.value;
      this.theme := Resolve(registry.themes, InitialSelector(theme), customTheme);
    }

    /** `setTheme`: replaces this logger's theme by the resolved one; nothing else changes. */
    method SetTheme(selector: ThemeSelector, customTheme: Option<Theme>) returns (self: Logger)
      requires registry.Valid()
      modifies this
      ensures self == this
      ensures theme == Resolve(registry.themes, selector, customTheme)
      ensures enabled == old(enabled)
    {
      theme := Resolve(registry.themes, selector, customTheme);
      self := this;
    }

    /**
     * `createTheme`: registers `config` under `name` in the shared registry,
     * overwriting an entry of that name and leaving every other one alone.
     */
    method CreateTheme(name: string, config: Theme) returns (self: Logger)
      modifies registry
      ensures self == this
      ensures registry.themes == old(registry.themes)[name := config]
      ensures forall n :: n in old(registry.themes) && n != name ==> n in registry.themes && registry.themes[n] == old(registry.themes)[n]
      ensures old(registry.Valid()) ==> registry.Valid()
    {
      registry.themes := registry.themes[name := config];
      self := this;
    }

    /** `setEnabled`. */
    method SetEnabled(enabled: bool) returns (self: Logger)
      modifies this
      ensures self == this
      ensures this.enabled == enabled && theme == old(theme)
    {
      this.enabled := enabled;
      self := this;
    }

    /** `format` (and `_colorize`): the styled text under this logger's enabled flag. */
    function Format(text: string, color: Option<string>, bgColor: Option<string>, style: Option<string>): (r: string)
      reads this
      ensures !enabled ==> r == text
      ensures enabled ==> r == Code(style) + Code(bgColor) + Code(color) + text + RESET
    {
      Colorize(enabled, text, color, bgColor, style)
    }

    /** `formatPrompt`: the text styled by the current theme's prompt slot. */
    function FormatPrompt(text: string): (r: string)
      reads this
      ensures !enabled ==> r == text
      ensures enabled ==> r == Code(theme.prompt.style) + Code(theme.prompt.bgColor) + Code(theme.prompt.color) + text + RESET
    {
      var slot := theme.prompt;
      Colorize(enabled, text, slot.color, slot.bgColor, OrAbsent(slot.style))
    }

    /** `log`: writes one line, the formatted text. */
    method Log(text: string, color: Option<string>, bgColor: Option<string>, style: Option<string>) returns (self: Logger)
      modifies out
      ensures self == this
      ensures out.writes == old(out.writes) + [Line(Format(text, color, bgColor, style))]
    {
      out.Write(Line(Colorize(enabled, text, color, bgColor, style)));
      self := this;
    }

    /** The category methods share this body: look up the slot, apply the override, log. */
    method LogCategory(category: Category, text: string, customStyle: Option<string>)
      modifies out
      ensures out.writes == old(out.writes) + [Line(CategoryText(enabled, theme, category, text, customStyle))]
    {
      var slot := Slot(theme, category);
      var _ := Log(text, slot.color, slot.bgColor, EffectiveStyle(customStyle, slot.style));
    }

    method Success(text: string, customStyle: Option<string>) returns (self: Logger)
      modifies out
      ensures self == this && theme == old(theme) && enabled == old(enabled)
      ensures out.writes == old(out.writes) + [Line(CategoryText(enabled, theme, Category.Success, text, customStyle))]
    {
      LogCategory(Category.Success, text, customStyle);
      self := this;
    }

    method Error(text: string, customStyle: Option<string>) returns (self: Logger)
      modifies out
      ensures self == this && theme == old(theme) && enabled == old(enabled)
      ensures out.writes == old(out.writes) + [Line(CategoryText(enabled, theme, Category.Error, text, customStyle))]
    {
      LogCategory(Category.Error, text, customStyle);
      self := this;
    }

    method Warning(text: string, customStyle: Option<string>) returns (self: Logger)
      modifies out
      ensures self == this && theme == old(theme) && enabled == old(enabled)
      ensures out.writes == old(out.writes) + [Line(CategoryText(enabled, theme, Category.Warning, text, customStyle))]
    {
      LogCategory(Category.Warning, text, customStyle);
      self := this;
    }

    method Info(text: string, customStyle: Option<string>) returns (self: Logger)
      modifies out
      ensures self == this && theme == old(theme) && enabled == old(enabled)
      ensures out.writes == old(out.writes) + [Line(CategoryText(enabled, theme, Category.Info, text, customStyle))]
    {
      LogCategory(Category.Info, text, customStyle);
      self := this;
    }

    method Debug(text: string, customStyle: Option<string>) returns (self: Logger)
      modifies out
      ensures self == this && theme == old(theme) && enabled == old(enabled)
      ensures out.writes == old(out.writes) + [Line(CategoryText(enabled, theme, Category.Debug, text, customStyle))]
    {
      LogCategory(Category.Debug, text, customStyle);
      self := this;
    }

    /**
     * The start of `table`: an optional title (a blank info line, then the
     * title), then for empty input one warning line and no rows.
     * `rowsFollow` tells whether the row rendering would run.
     */
    method TablePreamble(data: TableData, title: Option<string>) returns (rowsFollow: bool)
      modifies out
      ensures rowsFollow == !IsEmptyTable(data)
      ensures out.writes == old(out.writes)
        + (if Truthy(title) then [Line(CategoryText(enabled, theme, Category.Info, "", None)),
                                  Line(CategoryText(enabled, theme, Category.Info, title.value, None))] else [])
        + (if IsEmptyTable(data) then [Line(CategoryText(enabled, theme, Category.Warning, NO_DATA_MESSAGE, None))] else [])
    {
      if Truthy(title) {
        var _ := Info("", None);
        var _ := Info(title.value, None);
      }
      if IsEmptyTable(data) {
        var _ := Warning(NO_DATA_MESSAGE, None);
        return false;
      }
      return true;
    }
  }

  /**
   * The registry is shared: a theme one logger registers is what another
   * logger on the same registry then selects by name.
   */
  method SharedRegistry(name: string, t: Theme) returns (seen: Theme)
    ensures seen == t
  {
    var registry := new ThemeRegistry();
    var out := new Stdout();
    var first := new Logger(registry, out, NoTheme, None, None);
    var second := new Logger(registry, out, Named("dark"), None, None);
    var _ := first.CreateTheme(name, t);
    var _ := second.SetTheme(Named(name), None);
    seen := second.theme;
  }

  /**
   * Two loggers on one registry and one output keep their own enabled flags
   * and themes: the disabled one prints the bare text, the enabled one on
   * "dark" prints bright red, and the first, once enabled, shows that its
   * theme stayed "light" (dim red).
   */
  method IndependentLoggers(text: string) returns (writes: seq<string>)
    ensures writes == [
      text + "\n",
      "\U{1B}[1m" + "\U{1B}[31m" + text + "\U{1B}[0m" + "\n",
      "\U{1B}[2m" + "\U{1B}[31m" + text + "\U{1B}[0m" + "\n"]
  {
    var registry := new ThemeRegistry();
    var out := new Stdout();
    var quiet := new Logger(registry, out, Named("light"), Some(false), None);
    var loud := new Logger(registry, out, Named("light"), None, None);
    var _ := loud.SetTheme(Named("dark"), None);
    assert quiet.theme == LIGHT_THEME && !quiet.enabled;
    assert loud.theme == DARK_THEME && loud.enabled;
    ghost var light := quiet.theme;
    var _ := quiet.Error(text, None);
    ghost var bare := Line(CategoryText(quiet.enabled, quiet.theme, Category.Error, text, None));
    var _ := loud.Error(text, None);
    ghost var bright := Line(CategoryText(loud.enabled, loud.theme, Category.Error, text, None));
    var _ := quiet.SetEnabled(true);
    var _ := quiet.Error(text, None);
    ghost var dim := Line(CategoryText(quiet.enabled, quiet.theme, Category.Error, text, None));
    assert quiet.theme == light;
    writes := out.writes;
    ThreeFromNothing(writes, bare, bright, dim);
    ErrorLines(text);
  }

  /** The error lines of the three loggers above: bare when disabled, bright red on "dark", dim red on "light". */
  lemma ErrorLines(text: string)
    ensures Line(CategoryText(false, LIGHT_THEME, Category.Error, text, None)) == text + "\n"
    ensures Line(CategoryText(true, DARK_THEME, Category.Error, text, None)) == "\U{1B}[1m" + "\U{1B}[31m" + text + "\U{1B}[0m" + "\n"
    ensures Line(CategoryText(true, LIGHT_THEME, Category.Error, text, None)) == "\U{1B}[2m" + "\U{1B}[31m" + text + "\U{1B}[0m" + "\n"
  {
    ErrorCodes();
    assert CategoryText(true, DARK_THEME, Category.Error, text, None)
        == Code(Some("bright")) + Code(None) + Code(Some("red")) + text + RESET;
    assert CategoryText(true, LIGHT_THEME, Category.Error, text, None)
        == Code(Some("dim")) + Code(None) + Code(Some("red")) + text + RESET;
  }

  /** The table entries the error lines above use. */
  lemma ErrorCodes()
    ensures Code(Some("bright")) == "\U{1B}[1m" && Code(Some("dim")) == "\U{1B}[2m"
    ensures Code(Some("red")) == "\U{1B}[31m" && Code(None) == "" && RESET == "\U{1B}[0m"
  {
  }
}
