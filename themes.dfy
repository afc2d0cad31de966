/**
 * Themes: a theme gives one style configuration to each message category,
 * and a registry (the shared `THEMES` table) maps theme names to themes.
 */
module Themes {
  import opened Wrappers

  /** `ThemeConfig`: the color, background and style names one category asks for, each optional. */
  datatype StyleConfig = StyleConfig(color: Option<string>, bgColor: Option<string>, style: Option<string>)

  /** `Theme`: one configuration per category. */
  datatype Theme = Theme(
    success: StyleConfig,
    error: StyleConfig,
    warning: StyleConfig,
    info: StyleConfig,
    debug: StyleConfig,
    prompt: StyleConfig)

  datatype Category = Success | Error | Warning | Info | Debug | Prompt

  /** The configuration a theme gives one category. */
  function Slot(theme: Theme, category: Category): StyleConfig {
    match category
    case Success => theme.success
    case Error => theme.error
    case Warning => theme.warning
    case Info => theme.info
    case Debug => theme.debug
    case Prompt => theme.prompt
  }

  function Fg(color: string, style: Option<string>): StyleConfig {
    StyleConfig(Some(color), None, style)
  }

  function FgBg(color: string, bgColor: string, style: Option<string>): StyleConfig {
    StyleConfig(Some(color), Some(bgColor), style)
  }

  const DEFAULT_THEME: Theme := Theme(
    Fg("green", None), Fg("red", None), Fg("yellow", None),
    Fg("cyan", None), Fg("magenta", None), Fg("white", Some("bright")))

  const DARK_THEME: Theme := Theme(
    Fg("green", Some("bright")), Fg("red", Some("bright")), Fg("yellow", Some("bright")),
    Fg("blue", Some("bright")), Fg("magenta", Some("dim")), Fg("white", Some("underscore")))

  const LIGHT_THEME: Theme := Theme(
    Fg("green", Some("dim")), Fg("red", Some("dim")), Fg("yellow", Some("dim")),
    Fg("blue", Some("dim")), Fg("magenta", Some("dim")), Fg("black", Some("bright")))

  const MINIMAL_THEME: Theme := Theme(
    Fg("green", None), Fg("red", None), Fg("yellow", None),
    Fg("white", None), Fg("white", Some("dim")), Fg("white", None))

  const VIBRANT_THEME: Theme := Theme(
    FgBg("green", "bgBlack", Some("bright")), FgBg("white", "bgRed", Some("bright")),
    FgBg("black", "bgYellow", None), FgBg("white", "bgBlue", Some("bright")),
    FgBg("white", "bgMagenta", None), FgBg("black", "bgCyan", Some("bright")))

  /** The registry's contents at start-up: the five built-in themes. */
  const BUILTIN_THEMES: map<string, Theme> := map[
    "default" := DEFAULT_THEME,
    "dark" := DARK_THEME,
    "light" := LIGHT_THEME,
    "minimal" := MINIMAL_THEME,
    "vibrant" := VIBRANT_THEME
  ]

  /**
   * What `setTheme` is given: a theme name, an inline theme object, or any
   * other value (null, undefined, a number, ...).
   */
  datatype ThemeSelector = Named(name: string) | Inline(theme: Theme) | NoTheme

  /**
   * `setTheme`'s choice: "custom" with a custom theme picks the custom theme;
   * any other name picks its registry entry, or "default" when it has none;
   * an inline object is taken as given; anything else picks "default".
   */
  function Resolve(themes: map<string, Theme>, selector: ThemeSelector, customTheme: Option<Theme>): (t: Theme)
    requires "default" in themes
    ensures selector.Inline? ==> t == selector.theme
    ensures selector.NoTheme? ==> t == themes["default"]
    ensures (selector.Named? && selector.name in themes && !(selector.name == "custom" && customTheme.Some?))
      ==> t == themes[selector.name]
  {
    match selector
    case Named(name) =>
      if name == "custom" && customTheme.Some? then customTheme.value
      else if name in themes then themes[name]
      else themes["default"]
    case Inline(theme) => theme
    case NoTheme => themes["default"]
  }

  /** The chosen theme is always a registered one, the inline object, or the supplied custom theme. */
  lemma ResolvedThemeIsKnown(themes: map<string, Theme>, selector: ThemeSelector, customTheme: Option<Theme>)
    requires "default" in themes
    ensures var t := Resolve(themes, selector, customTheme);
            t in themes.Values || (selector.Inline? && t == selector.theme) || (customTheme.Some? && t == customTheme.value)
  {
  }

  /** A name without a registry entry resolves like "default" (unless it is "custom" with a custom theme). */
  lemma UnknownNameResolvesToDefault(themes: map<string, Theme>, name: string, customTheme: Option<Theme>)
    requires "default" in themes && name !in themes
    requires name != "custom" || customTheme.None?
    ensures Resolve(themes, Named(name), customTheme) == Resolve(themes, Named("default"), customTheme)
    ensures Resolve(themes, Named(name), customTheme) == themes["default"]
  {
  }

  /** After registering `t` under `name`, resolving `name` (no custom theme given) yields exactly `t`. */
  lemma RegisteredThemeResolves(themes: map<string, Theme>, name: string, t: Theme)
    requires "default" in themes
    ensures Resolve(themes[name := t], Named(name), None) == t
  {
  }

  /** A supplied custom theme wins for "custom", whatever the registry holds under that name. */
  lemma CustomThemeWins(themes: map<string, Theme>, custom: Theme)
    requires "default" in themes
    ensures Resolve(themes, Named("custom"), Some(custom)) == custom
  {
  }

  /** The shared registry of themes (`THEMES`). */
  class ThemeRegistry {
    var themes: map<string, Theme>

    /** "default" is always registered: entries are added or overwritten, never removed. */
    ghost predicate Valid()
      reads this
    {
      "default" in themes
    }

    constructor()
      ensures Valid()
      ensures themes == BUILTIN_THEMES
    {
      themes := BUILTIN_THEMES;
    }
  }
}
