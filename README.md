# cli-colorize in Dafny

A model of the terminal styling library `@open-utils/cli-colorize`
(`dist/colorize.js`), with proofs about it. The library wraps text in ANSI
"Select Graphic Rendition" escape sequences (ECMA-48 section 8.3.117) and
organises those styles into named themes. Its logger writes one styled
line per message category (success, error, warning, info, debug), and it
offers three small widgets built on the same colorizer: a progress bar, a
spinner and a step-numbering workflow.

Modules, one per component of `dist/colorize.js`:

- `Styles` (styles.dfy): the style table `COLORS`, `isValidColor` and the colorizer `_colorize`, as pure functions.
- `Themes` (themes.dfy): the `ThemeConfig`/`Theme` records, the five built-in themes, theme resolution as done by `setTheme`, and the shared registry `THEMES` as a class whose `themes` map is updated in place.
- `Terminal` (terminal.dfy): standard output as a `Stdout` object whose `writes` sequence grows by one string per `process.stdout.write`. `console.log(s)` is one write of `s + "\n"`.
- `Logging` (logging.dfy): `ColorizeLogger` as the class `Logger`. It has its own `enabled` and `theme` fields and holds references to a shared `ThemeRegistry` and `Stdout`. The category methods, `log`, `format`, `formatPrompt` and the empty-input guard of `table` are here.
- `Progress` (progress.dfy): `ProgressBar` and the integer arithmetic of its bar widths and percentage.
- `Spinners` (spinners.dfy): `Spinner` as an idle/running state machine. The timer callback becomes the method `Tick`, which may be called only while the spinner is running.
- `Workflows` (workflows.dfy): the `Workflow` step counter.
- `TextUtil`, `Arith`, `Wrappers`: `String.prototype.repeat`, number-to-decimal text, arithmetic facts, and `Option`. `None` stands for `undefined`/`null`. `Truthy` is JavaScript truthiness of an optional string: a missing value and `""` are both falsy.

Three points where the code behaves differently from what one might expect; the model follows the code:

- A style override replaces the slot's style only when it is truthy. An empty override string keeps the slot's style (`customStyle || ...`, line 360).
- At construction an empty theme name means `"default"` (`options.theme || 'default'`, line 256). A later `setTheme("")` instead looks up `""` in the registry.
- A theme missing a category slot: the code destructures the slot unchecked (line 359). Every `Theme` here has all six slots, as the TypeScript type requires.

## Model

| member | source | states |
|---|---|---|
| `Styles.Colorize` | dist/colorize.js:319-339 | The result is exactly the text when disabled. When enabled it is the style code, then the background code, then the color code (each only for a valid name), then the text, then the reset code, which is always appended. |
| `Styles.Code` | dist/colorize.js:325-335 | The definition of one axis's guard: the table entry for a valid name, and nothing otherwise. It has no contract of its own; `CodeIsSgrOrEmpty` states what it means. |
| `Styles.CodeIsSgrOrEmpty` | dist/colorize.js:325-335 | What one axis contributes is either nothing or one well-formed SGR sequence. It is something exactly when the name is valid. |
| `Styles.IsValidColor` | dist/colorize.js:93-97 | The definition of `isValidColor`: a truthy name that is a key of the table. It has no contract of its own; `IsValidColorIsKey` states what it means. |
| `Styles.IsValidColorIsKey` | dist/colorize.js:93-97 | A name is valid exactly when it is present and a key of the table. The falsy guard excludes nothing more, because `""` is not a key. |
| `Styles.ResetIsTableEntry` | dist/colorize.js:337 | The appended reset code is the table's own `reset` entry. |
| `Styles.TableEntriesAreSgr` | dist/colorize.js:15-44 | Every table entry is a non-empty SGR sequence: ESC, `[`, decimal digits, `m`. |
| `Styles.TableIsInjective` | dist/colorize.js:15-44 | Different names carry different codes. |
| `Styles.UnknownNameIsOmitted` | dist/colorize.js:325-335 | On each of the three axes, a missing, empty or unknown name gives the same output as leaving that axis out. |
| `Styles.ColorizeFramesText` | dist/colorize.js:323-338 | The enabled output starts with the applied codes, holds the text verbatim right after them, and ends with the reset code. Its length is the sum of the three parts. |
| `Styles.ColorizeIsInjectiveInText` | dist/colorize.js:319-338 | With the same styling and the same enabled flag, equal outputs mean equal texts, so the text can be recovered. |
| `Styles.ColorizeDeterminesCodes` | dist/colorize.js:323-338 | Two enabled outputs of the same text are equal only if the applied code prefixes are equal. |
| `Styles.StyleAxisIsVisible` | dist/colorize.js:325-327 | Two different valid style names always give different enabled outputs. |
| `TextUtil.Repeat` | dist/colorize.js:131-132 | The definition of `s.repeat(n)`: `n` copies of `s`. It has no contract of its own; `RepeatLength` and `RepeatCharAt` state its length and contents. |
| `TextUtil.RepeatLength` | dist/colorize.js:131-132 | `s.repeat(n)` has `n * |s|` characters. |
| `TextUtil.RepeatCharAt` | dist/colorize.js:131-132 | A one-character string repeated `n` times has that character at every one of its `n` positions. |
| `TextUtil.DecimalString` | dist/colorize.js:136 | The decimal text of a number is non-empty, made only of digits, and has no leading zero except for the number 0 itself. |
| `TextUtil.DecimalRoundTrip` | dist/colorize.js:136 | Reading the decimal text back gives the number. |
| `TextUtil.DecimalStringIsInjective` | dist/colorize.js:536 | Different numbers have different decimal texts. |
| `Themes.Resolve` | dist/colorize.js:269-288 | An inline object is used as given. A non-theme value selects `default`. A registered name selects its own entry, unless it is `"custom"` given together with a custom theme. |
| `Themes.ResolvedThemeIsKnown` | dist/colorize.js:269-288 | The chosen theme is always a registered one, the inline object, or the supplied custom theme. |
| `Themes.UnknownNameResolvesToDefault` | dist/colorize.js:274-279 | A name without a registry entry resolves to the `default` entry, the same as naming `"default"`. The one exception is `"custom"` given together with a custom theme. |
| `Themes.RegisteredThemeResolves` | dist/colorize.js:295-300 | After `t` is registered under `n`, resolving `n` with no custom theme yields exactly `t`. This holds for `"custom"` too. |
| `Themes.CustomThemeWins` | dist/colorize.js:271-273 | `"custom"` with a supplied custom theme selects that theme, whatever the registry holds. |
| `Themes.ThemeRegistry.constructor` | dist/colorize.js:46-87 | The registry starts with the five built-in themes, so `default` is registered. |
| `Terminal.Line` | dist/colorize.js:349 | `console.log(s)` writes exactly `s` followed by one newline. |
| `Terminal.Stdout.Write` | dist/colorize.js:134 | A write appends exactly its string to the output. |
| `Wrappers.OrAbsent` | dist/colorize.js:137 | The fallback to `undefined` for a falsy value keeps the truthiness of `x`, never invents a value, and never yields the empty string. |
| `Logging.EffectiveStyle` | dist/colorize.js:360 | A truthy override is used as the style. The code applied is the override's when the override is truthy, and the slot's own otherwise, so falling back to `undefined` for a falsy slot style changes no output. |
| `Logging.CategoryText` | dist/colorize.js:358-362 | A category line is the text wrapped in the codes of the slot's style (or the override), background and color, followed by the reset code. Disabled, it is the bare text. |
| `Logging.OverrideIsVisible` | dist/colorize.js:360 | Two different valid overrides give different category lines. |
| `Logging.NoOverrideUsesSlot` | dist/colorize.js:360 | Without a truthy override, the line is the text colorized with exactly the slot's configuration. |
| `Logging.InitialSelector` | dist/colorize.js:256 | The definition of the fallback to `'default'` for a falsy theme option at construction. It has no contract of its own; `ConstructionResolvesLikeSetTheme` states what it means. |
| `Logging.ConstructionResolvesLikeSetTheme` | dist/colorize.js:256-261 | Construction resolves its theme exactly as `setTheme` would, for every selector except the empty name. The empty name resolves to `default` at construction, while `setTheme("")` selects a theme registered under `""`. |
| `Logging.Logger.constructor` | dist/colorize.js:254-262 | The logger is on the given registry and output. It is enabled unless `enabled` is given as false. Its theme is resolved from the constructor options. |
| `Logging.Logger.SetTheme` | dist/colorize.js:269-288 | The theme becomes the resolved one. The enabled flag is unchanged and the same logger is returned. |
| `Logging.Logger.CreateTheme` | dist/colorize.js:295-300 | The shared registry maps `name` to the config, overwriting any old entry. Every other entry is unchanged, and `default` stays registered. |
| `Logging.Logger.SetEnabled` | dist/colorize.js:306-309 | The flag is set and the theme is unchanged. |
| `Logging.Logger.Format` | dist/colorize.js:473-475 | The formatted string with this logger's flag. It is the bare text when disabled, and codes + text + reset when enabled. |
| `Logging.Logger.FormatPrompt` | dist/colorize.js:481-484 | The text styled by the current theme's prompt slot, or the bare text when disabled. |
| `Logging.Logger.Log` | dist/colorize.js:348-351 | Exactly one write is appended: the formatted text and a newline. |
| `Logging.Logger.Success` | dist/colorize.js:358-362 | Exactly one line is appended: the text colorized with the success slot's color and background, and the override or else the slot's style. Theme and flag are unchanged, and the same logger is returned. |
| `Logging.Logger.Error` | dist/colorize.js:369-373 | As `Success`, with the error slot. |
| `Logging.Logger.Warning` | dist/colorize.js:380-384 | As `Success`, with the warning slot. |
| `Logging.Logger.Info` | dist/colorize.js:391-395 | As `Success`, with the info slot. |
| `Logging.Logger.Debug` | dist/colorize.js:402-406 | As `Success`, with the debug slot. |
| `Logging.Logger.LogCategory` | dist/colorize.js:359-360 | The shared body of the five category methods: one themed line. |
| `Logging.IsEmptyTable` | dist/colorize.js:421 | The empty-input test holds exactly when the input has no keys. The separate empty-array test is subsumed by the key count. |
| `Logging.Logger.TablePreamble` | dist/colorize.js:414-424 | A truthy title writes a blank info line and then the title. Empty input (none, an empty array, an object without keys) then writes one warning line `  No data to display`, and no rows follow. Rows follow exactly when the input is not empty. |
| `Logging.SharedRegistry` | dist/colorize.js:295-300 | A theme registered through one logger is what a second logger, on the same registry, selects by that name. |
| `Logging.IndependentLoggers` | dist/colorize.js:319-322 | Two loggers write to one output from one registry: one disabled on `light`, one enabled and switched to `dark`. Their errors are written as the bare text, then `ESC[1m ESC[31m` + text + `ESC[0m` (bright red). Once the first is enabled, it writes `ESC[2m ESC[31m` + text + `ESC[0m` (dim red), so its theme stayed `light` while the other changed. |
| `Logging.ErrorLines` | dist/colorize.js:369-373 | The error line is the bare text on a disabled logger, bright red under `dark` and dim red under `light`. |
| `Progress.Clamp` | dist/colorize.js:125 | The value is clamped into `[0, total]`: values inside are kept, values below become 0, values above become `total`. |
| `Progress.RoundedShare` | dist/colorize.js:127-128 | The definition of `Math.round(scale * part / whole)` in exact integers. It has no contract of its own; the three lemmas below state what it means. |
| `Progress.RoundedShareIsNearest` | dist/colorize.js:127-128 | `Math.round(scale * part / whole)` is the integer nearest to the exact quotient, with halves rounded up. It lies between 0 and `scale`. |
| `Progress.RoundedShareIsMonotone` | dist/colorize.js:127-128 | More progress never gives fewer complete cells. |
| `Progress.RoundedShareEnds` | dist/colorize.js:127-128 | No progress gives 0, and full progress gives the whole scale. |
| `Progress.CompleteWidth` | dist/colorize.js:128-129 | The complete width is at most the bar's width, so the incomplete width `width - completeWidth` is non-negative and the two sum to `width`. |
| `Progress.Percent` | dist/colorize.js:136 | The percentage shown is at most 100. |
| `Progress.ProgressEnds` | dist/colorize.js:127-136 | At 0 the bar has no complete cell and shows 0%. At `total` every cell is complete and it shows 100%. |
| `Progress.BarText` | dist/colorize.js:131-136 | The bar text opens with `[` and closes with `%`. |
| `Progress.BarCells` | dist/colorize.js:131-136 | With one-character glyphs, the text is `[`, then exactly `filled + empty` cells, then `]`. The first `filled` cells are complete glyphs and the rest incomplete ones. |
| `Progress.FullBarText` | dist/colorize.js:149-150 | The full bar reads `[`, then `width` complete glyphs, then `] 100%`. |
| `Progress.EmptyBarText` | dist/colorize.js:131-136 | The empty bar reads `[`, then `width` incomplete glyphs, then `] 0%`. |
| `Progress.QuarterBar` | dist/colorize.js:127-136 | Four cells at 1 of 4: one complete cell, three incomplete ones, and `25%`. |
| `Progress.UpdateWrites` | dist/colorize.js:134-141 | An update writes the line clear, then the styled bar, then a space and the caller's text when that text is truthy. |
| `Progress.UpdateDrawsCodes` | dist/colorize.js:137 | The styled bar is the bar text wrapped in the style, background and color codes, or the bare bar text when disabled. Falling back to `undefined` for a falsy style changes nothing. |
| `Progress.ProgressBar.Text` | dist/colorize.js:127-136 | The current bar text is all incomplete cells at 0% with no progress, and all complete cells at 100% when progress reaches the total. |
| `Progress.ProgressBar.constructor` | dist/colorize.js:108-116 | `total` becomes `max(1, total)` and progress starts at 0. The width, the glyphs and the style take their defaults when absent or falsy. |
| `Progress.ProgressBar.Update` | dist/colorize.js:123-143 | `current` becomes the clamped value, and exactly the update writes for the new bar text are appended. |
| `Progress.ProgressBar.Complete` | dist/colorize.js:149-153 | `current` becomes `total`. The writes are a full-bar redraw followed by `\n`, and they do not depend on the earlier progress. |
| `Progress.CompleteTwice` | dist/colorize.js:149-153 | Calling `complete` twice writes the same output both times: the line clear first and `\n` last. The bar stays at its total. |
| `Spinners.NextFrame` | dist/colorize.js:190 | The next frame index is one step on, wrapping to 0 after the last frame. It stays within the frames. |
| `Spinners.FrameAfter` | dist/colorize.js:190 | The frame index after any number of ticks stays within the frames. |
| `Spinners.FrameAfterIsModular` | dist/colorize.js:190 | After `k` ticks from frame `i`, the spinner shows frame `(i + k) mod |frames|`. |
| `Spinners.FramesCycle` | dist/colorize.js:190 | After `|frames|` ticks the spinner is back at the frame it started from. |
| `Spinners.TickWrites` | dist/colorize.js:186-189 | A tick writes three strings: the line clear, then the glyph wrapped in the style, background and color codes (the bare glyph when disabled), then a space and the text. |
| `Spinners.StopWrites` | dist/colorize.js:230-243 | Stopping while idle writes nothing. Otherwise it writes the line clear and the show-cursor code, then the text as a line when the text is truthy. |
| `Spinners.Spinner.constructor` | dist/colorize.js:166-174 | The spinner starts idle at frame 0, with the given text and logger. The frames, interval and style take their defaults when absent (a zero interval also takes the default). |
| `Spinners.Spinner.Start` | dist/colorize.js:179-193 | Afterwards the spinner is running. Starting while running writes nothing. Starting while idle writes only the hide-cursor code. The text and frame are unchanged. |
| `Spinners.Spinner.Tick` | dist/colorize.js:185-191 | A tick is possible only while running. It writes the line clear, the styled current frame, and a space with the text. It then advances the frame index by one modulo `|frames|`, and the index stays the tick count modulo `|frames|`. |
| `Spinners.Spinner.Update` | dist/colorize.js:199-202 | Only the text changes. The running state and the frame index are unchanged, and the spinner's invariant is kept. |
| `Spinners.Spinner.Stop` | dist/colorize.js:230-243 | Afterwards the spinner is idle (no further tick is possible). Exactly the stop writes are appended, and the text and frame are unchanged. |
| `Spinners.Spinner.Success` | dist/colorize.js:208-213 | The spinner stops, without stop text. Then one themed success line is written with the given text if truthy, else the spinner's own text. The text, the frame index and the tick count are unchanged, so a restarted spinner resumes at the same frame. |
| `Spinners.Spinner.Error` | dist/colorize.js:219-224 | As `Success`, with the error category. |
| `Spinners.StartTwiceStopTwice` | dist/colorize.js:179-182 | Two starts and two stops write the hide-cursor code once and the clear and show-cursor codes once, and the spinner ends idle. |
| `Workflows.StepText` | dist/colorize.js:536 | The definition of the step text. It has no contract of its own; `StepNumberReadable` and `StepTextDeterminesNumber` state its layout and that it determines the number. |
| `Workflows.StepNumberReadable` | dist/colorize.js:536 | A step text is two spaces, the step number's digits, `. ` and then the message, each at a fixed place. |
| `Workflows.StepTextDeterminesNumber` | dist/colorize.js:535-536 | Equal step texts carry equal step numbers, whatever the messages. |
| `Workflows.FrameLines` | dist/colorize.js:523-525 | The framing is three lines whose first and last are the same blank info line. With colors off they are a bare newline, the diamond and message, and a bare newline. |
| `Workflows.Workflow.constructor` | dist/colorize.js:513-516 | The counter starts at 0, with a fresh logger built from the options. |
| `Workflows.Workflow.Start` | dist/colorize.js:522-528 | Writes a blank info line, the diamond message in bright, and another blank info line. The counter becomes 0. |
| `Workflows.Workflow.Step` | dist/colorize.js:534-538 | The counter goes up by exactly one. One info line is written: `"  " + steps + ". " + message`, with the new count. |
| `Workflows.Workflow.Success` | dist/colorize.js:544-547 | One success line, `  ✓ ` + message. |
| `Workflows.Workflow.Error` | dist/colorize.js:553-556 | One error line, `  ✗ ` + message. |
| `Workflows.Workflow.Warning` | dist/colorize.js:562-565 | One warning line, `  ⚠ ` + message. |
| `Workflows.Workflow.End` | dist/colorize.js:571-576 | The same three framing lines as `Start`. The counter is unchanged. |
| `Workflows.StartThenTwoSteps` | dist/colorize.js:522-538 | A start followed by two steps writes five lines. With colors off, the fourth and fifth are exactly the step texts for 1 and 2 and a newline. |

## Left out

- Real I/O: `process.stdout.write` and `console.log` are appends to `Stdout.writes`. Cursor hide and show are the constant strings `HIDE_CURSOR` and `SHOW_CURSOR`.
- Timers and the event loop: `setInterval`/`clearInterval` become the `running` flag and the explicit `Tick` method. The spinner's `interval` is stored but has no effect.
- Floating point: `Math.round(width * percent)` and `Math.round(percent * 100)` are computed exactly on integers, as `(2 * scale * current + total) / (2 * total)`. IEEE rounding artefacts are not reproduced. `total`, `value` and the width are integers, and the width is non-negative. A negative width, where `repeat` would throw, is not modelled.
- `table` row rendering (dist/colorize.js:425-463): it depends on `String()` of arbitrary values and on `Object.keys` order. Only the title lines and the empty-input guard are modelled, over a tagged variant of the input.
- A theme missing a category slot: the type makes every theme complete, so the source's crash on destructuring a missing slot is not modelled.
- `Workflows.FrameLines`: its contract gives the exact lines only with colors off. With colors on, the lines are stated through `CategoryText` in its body, not as literal escape sequences.
- `createTheme` with a non-string name, or with `null` (which the `typeof ... === 'object'` guard lets through): names are strings and configs are themes.
- Registry lookups that hit JavaScript prototype properties (a theme named `toString`): the registry is a plain map.
- `Spinners.Spinner.constructor`: requires a non-empty frames option. With an empty array, the source's first tick reads the frame `undefined` and sets the frame index to `NaN`. If the logger is enabled, it writes the codes around the text `undefined`. If the logger is disabled, `_colorize` returns `undefined` itself, and by Node's stream API `process.stdout.write(undefined)` throws.
- `createProgressBar` and `createSpinner` (dist/colorize.js:491-502): they only call the constructors with the logger itself; the model calls the constructors directly, because the widget modules import the logger module. `createWorkflow` (dist/colorize.js:583-585) is the `Workflow` constructor.
- The options record the logger keeps after construction (`this.options.theme`, `customTheme`), which nothing reads afterwards; non-boolean `enabled` values (the model takes a boolean).
- The module-level singleton `logger`, the `default` export, `dist/colorize.mjs` (a re-export), `dist/colorize.d.ts` (types only) and the example scripts.
