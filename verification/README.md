# theme-csx theme resolution, modelled in Dafny

theme-csx resolves light/dark styling for React Native. This project models
the decision logic of both generations of its API and proves what each piece
promises.

- **The older `T`/`t` API.** A style carries up to four dark override keys:
  `backgroundDark`, `borderDark`, `colorDark` and `tintColorDark`. The guard
  `isThemedStyle` accepts a style only if one of them is present. The resolver
  `themeProcessor` drops the override keys. In dark mode it writes each truthy
  override onto its base property (`backgroundColor`, `borderColor`, `color`,
  `tintColor`). `darkThemeProcessor` does the same on a stripped style when the
  store's mode is effectively dark. `t` builds its result step by step in a
  mutable `Instance`: the model keeps the loop and proves that the result is
  `themeProcessor`'s for the effective mode, in whatever order the entries are
  visited. The mode store keeps one of `system`/`light`/`dark`. The OS
  appearance listener nudges the store and keeps a `prevSettingsColor` baseline.
- **The newer `createAppTheme` API.** It has two config validators: the one in
  `helpers.ts` throws on dark keys missing from light, the one in `index.tsx`
  only warns. Also modelled: the complete dark palette, the per-key iOS dynamic
  colours, and the provider's mode state with optional persistence. So are the
  mapping of a mode to light or dark, the palette in use, the theme object, the
  toggle cycle and the per-theme style cache.

JavaScript values are the datatype `JsValues.Value`, and `Truthy` is JS
truthiness. Styles, palettes, configs and themes are `map<string, Value>`.
Three host queries become parameters: the store's mode, the OS colour scheme
(`Option<Scheme>`, where `None` is null or undefined) and the platform
(`isIOS`). The persistent store is a `map<string, string>`. The result of
`DynamicColorIOS` is the constructor `DynamicToken(light, dark)`. Its
`dynamic` property is modelled as `{light, dark}`.

Behaviour of the code worth knowing:

- `dynamicColorIOS` rejects no input, even when both colours are absent.
- The OS listener does not refresh its baseline when the mode is not
  `system`. `Theme.StaleBaselineMissesChange` shows the result. The user forces
  `dark`, the OS goes dark, and the user returns to `system`. When the OS then
  goes light again, the listener does not nudge the store, although the
  effective appearance changes from dark to light.
- The listener's nudge is `switch(scheme)` followed by `switch('system')`.
  There is no separate notify primitive. A null scheme is refused by the mode
  enumeration, so the listener throws before the second switch.
- In `index.tsx`, a dark key missing from light is only a warning, and the
  dark palette is never completed from light: both `themeColors` and its
  `calculateDynamicIOSColors` read the raw dark palette.

## Model

| member | source | states |
|---|---|---|
| `Appearance.Switched` | src/core/appearance.ts:17-21 | a mode name replaces the state; a null or undefined scheme is refused by the enumeration and the state is kept |
| `Appearance.SwitchIdempotent` | src/core/appearance.ts:18-20 | `switch(x); switch(x)` leaves the state one `switch(x)` leaves |
| `Appearance.AppearanceStore.constructor` | src/core/appearance.ts:23-25 | the store starts in `system` mode |
| `Appearance.AppearanceStore.ActiveTheme` | src/core/appearance.ts:12-16 | `activeTheme` is always the stored theme |
| `Appearance.AppearanceStore.Switch` | src/core/appearance.ts:10-21 | succeeds exactly for a mode name, after which `activeTheme` is that mode; otherwise nothing changes |
| `ThemedStyle.IsThemedStyle` | src/helper/themedStyle.ts:4-14 | true exactly when the style has one of the four override keys as an own key |
| `ThemedStyle.PresenceMakesThemed` | src/helper/themedStyle.ts:6-9 | presence decides, not value: an override key holding `undefined` or any falsy value still makes the style themed |
| `ThemedStyle.OtherKeysDoNotMakeThemed` | src/helper/themedStyle.ts:13 | a style with none of the four keys is not themed, whatever else it has |
| `ThemedStyle.ThemedDependsOnKeysOnly` | src/helper/themedStyle.ts:4-14 | the guard depends only on the key set |
| `ThemeProcessor.Resolve` | src/processor/themeProcessor.ts:14-49 | no override key in the result in either mode; light mode gives the input minus the override keys; dark mode writes each truthy override onto its base key; every other key is kept exactly, including a base whose override is falsy or absent |
| `ThemeProcessor.ResolveIdempotent` | src/processor/themeProcessor.ts:14-48 | resolving a resolved style again, in either mode, returns it unchanged, since no override key survives resolution |
| `ThemeProcessor.ResolveExample` | src/processor/themeProcessor.ts:14-48 | a style with background and text overrides resolves to `{backgroundColor:'#fff', color:'#000'}` in light and `{backgroundColor:'#000', color:'#fff'}` in dark |
| `DarkThemeProcessor.EffectiveScheme` | src/processor/darkThemeProcessor.ts:17-20 | dark exactly when the mode is `dark`, or `system` with a dark OS scheme; an explicit mode is its own scheme |
| `DarkThemeProcessor.Process` | src/processor/darkThemeProcessor.ts:7-52 | when not effectively dark, returns the styles unchanged; when dark, each truthy argument sets its base key; no other key is added, removed or changed, and falsy arguments change nothing |
| `DarkThemeProcessor.ProcessAgreesWithResolve` | src/processor/darkThemeProcessor.ts:14-51 | processing the stripped style with its own overrides equals `themeProcessor` for the effective scheme |
| `StyleInstance.FirstOverrideKey` | src/core/instance.ts:36-56 | the key `darkTheme` records is an own override key of an object, and every key before it in the order backgroundDark, borderDark, colorDark, tintColorDark is absent; there is none exactly for a non-object or an unthemed style |
| `StyleInstance.Instance.constructor` | src/core/instance.ts:13-19 | a new instance has no styles and all four dark fields undefined |
| `StyleInstance.Instance.DefineStyles` | src/core/instance.ts:25-30 | the styles become the old styles overlaid by the data, the data winning; the dark fields are unchanged |
| `StyleInstance.Instance.DarkTheme` | src/core/instance.ts:36-56 | records only the first override key found, in the order backgroundDark, borderDark, colorDark, tintColorDark, with that key's value, and reports true; on a falsy or unthemed style it reports false; the styles never change |
| `StyleInstance.Instance.GetOutputStyle` | src/core/instance.ts:61-70 | replaces the styles by `darkThemeProcessor` of the styles and the recorded fields, and returns that value |
| `Apply.ApplyStyle` | src/core/apply.ts:13-40 | null exactly for a style failing the guard; otherwise a fresh instance fed every entry gives `themeProcessor` for the effective scheme in any visiting order, so override keys never reach the output, outside dark mode the output is the input minus them, and the result is what `T` returns under the same mode |
| `Theme.ResolveStyle` | src/core/theme.ts:23-72 | throws exactly for a style failing the guard; otherwise the dark resolution iff the mode is `dark` or `system` with a dark OS scheme, else the light one, including for an undetermined scheme |
| `Theme.SchemeSwitchArg` | src/core/theme.ts:89 | the store is switched to the mode naming the reported scheme; a null scheme names none |
| `Theme.OnAppearanceChange` | src/core/theme.ts:84-93 | the store ends in the mode it started in; it is nudged (switched to the scheme, then to `system`) exactly when in `system` with a scheme differing from the baseline; the baseline moves only with a nudge; a null scheme in that case throws |
| `Theme.StaleBaselineMissesChange` | src/core/theme.ts:85-92 | since the baseline is not refreshed outside `system`, a later OS change back fires no nudge although the effective appearance changes |
| `Theme.SystemWatcher.constructor` | src/core/theme.ts:83 | the baseline starts as the OS scheme at load time |
| `Theme.SystemWatcher.OnChange` | src/core/theme.ts:84-93 | one notification changes the store, the baseline and the switch trace as `OnAppearanceChange` says |
| `DynamicColor.DynamicColorIOS` | src/helper/dynamicColor.ts:6-16 | a token is always returned; its dark colour is `colorDark`; its light colour is `color` if truthy, else `defaultColor` if truthy, else `'black'`, so never falsy |
| `Helpers.SomeKeyIn` | src/helpers.ts:29 | `keys.some(key => key in d)`: true exactly when `d` has one of the keys; throws exactly when `d` is no object |
| `Helpers.IsDynamicColorObject` | src/helpers.ts:24-31 | true exactly for a truthy object with a `dynamic` property holding one of light/dark/highContrastLight/highContrastDark; throws when `dynamic` holds no object |
| `Helpers.TokenIsDynamicColorObject` | src/helpers.ts:24-31 | a DynamicColorIOS token is recognised as a dynamic colour object |
| `Helpers.ValidateThemeConfig` | src/helpers.ts:43-77 | throws when colors is falsy, not an object or an array; throws when light is missing; passes exactly when light is present and dark is absent or uses only light's keys; a mismatch names exactly the dark keys absent from light |
| `Helpers.ValidateExamples` | src/helpers.ts:43-77 | `{light:{a}, dark:{b}}` fails naming `b`; `{light:{a}, dark:{a}}` passes |
| `Helpers.CreateCompleteDarkColors` | src/helpers.ts:94-102 | the light palette itself without dark; otherwise keys light ∪ dark, dark values winning and light values elsewhere |
| `Helpers.ValidatedDarkPaletteKeys` | src/helpers.ts:94-102 | after validation passes, the complete dark palette has exactly light's keys |
| `Helpers.CalculateDynamicIOSColors` | src/helpers.ts:117-135 | throws on undefined or null colors; null exactly when light is absent; otherwise exactly light's keys, each pairing `light[key]` with the complete dark palette's value |
| `AppTheme.ParseModeName` | src/index.tsx:141-149 | a stored mode name reads back as the mode that was written |
| `AppTheme.StorageEnabled` | src/index.tsx:126 | storage is on unless the option is explicitly false |
| `AppTheme.InitialModeAsWritten` | src/index.tsx:137-143 | as written: the default mode when storage is off; otherwise any non-empty stored string, unchecked, else the default mode |
| `AppTheme.ResolvedModeAsWritten` | src/index.tsx:162-169 | as written: `system` resolves to the OS scheme or the fallback, always `light` or `dark`; any other mode string passes through unchanged |
| `AppTheme.ForeignStoredValueLeaks` | src/index.tsx:141-142 | as written, a stored string `"blue"` becomes the mode and `resolvedMode` is `"blue"` |
| `AppTheme.InitialMode` | src/index.tsx:137-143 | the default when storage is disabled; otherwise the stored mode when it names one, else the default |
| `AppTheme.InitialModeAgreesWithSource` | src/index.tsx:137-143 | wherever the stored value is absent, empty or a mode name, the corrected initial mode is the source's |
| `AppTheme.ResolvedMode` | src/index.tsx:162-169 | always light or dark: the mode itself unless `system`, then the OS scheme if light or dark, else the fallback theme |
| `AppTheme.ResolvedModeMatchesSource` | src/index.tsx:162-169 | on a well-formed mode the typed resolution is the source's string computation |
| `AppTheme.NextMode` | src/index.tsx:229-230 | the toggle never keeps the mode |
| `AppTheme.ToggleCycle` | src/index.tsx:229-230 | light→dark→system→light: light is followed by dark, three toggles return to the start, two do not |
| `AppTheme.ValidateAppThemeConfig` | src/index.tsx:277-295 | throws only when light or dark is missing; reports missingInDark = light∖dark and missingInLight = dark∖light, warning exactly when the key sets differ |
| `AppTheme.CalculateAppDynamicColors` | src/index.tsx:50-67 | throws on undefined or null colors; null unless both palettes are there; otherwise exactly light's keys, each pairing `light[key]` with the raw `dark[key]` |
| `AppTheme.DynamicColorsCompleteWithoutMismatch` | src/index.tsx:50-67 | when validation reports no mismatch, every dynamic colour carries the dark palette's own value |
| `AppTheme.ThemeColors` | src/index.tsx:171-176 | with the dynamic palette computed at setup on iOS only (src/index.tsx:105-106): throws exactly on undefined or null colors; in `light`/`dark` mode the palette of that name, never the dynamic one; on iOS in `system` mode with both palettes present, an object over light's keys whose values are dynamic colours pairing light's value with dark's; otherwise the palette that `resolvedMode` names |
| `AppTheme.ExplicitModeColorsIgnoreHost` | src/index.tsx:171-176 | outside `system` the palette in use depends on the config and the mode only, not on the platform, the OS scheme or the fallback theme |
| `AppTheme.BuildTheme` | src/index.tsx:178-186 | the theme has `colorMode`, `colors` and the rest of the config; `colors` is the given palette, `colorMode` names the given scheme, and a `colorMode` in the config wins |
| `AppTheme.ThemeProvider.constructor` | src/index.tsx:115-143 | props default to `system` and `light`; the initial mode comes from storage or the default; with storage disabled the stored key is deleted |
| `AppTheme.ThemeProvider.SetMode` | src/index.tsx:145-153 | sets the mode and writes it under the storage key iff storage is on, so the next mount starts from it |
| `AppTheme.ThemeProvider.ResetThemeMode` | src/index.tsx:155-160 | sets `system` and deletes the stored key iff storage is on, so the next mount starts from the default |
| `AppTheme.ThemeProvider.Toggle` | src/index.tsx:225-233 | sets the next mode in the cycle through `setMode` |
| `AppTheme.ThemedStylesCache.constructor` | src/index.tsx:244 | the cache starts empty |
| `AppTheme.ThemedStylesCache.UseThemedStyles` | src/index.tsx:246-258 | a cached theme returns its sheet without running `styleFn`; an uncached one runs it once and caches the result; `styleFn` runs at most once per theme |

## Left out

- React plumbing is not modelled: contexts, providers, `useState`/`useEffect`/`useMemo`/`useCallback`, rendering and re-rendering. This includes the `onPatch` subscription and unmount ref in `T`, and the `use…` accessors with their "must be used inside AppThemeProvider" errors. They are framework glue.
- React memo identity is not modelled. The cache's theme handle is supplied by the caller, so the model does not say when a new theme object is built.
- MMKV is modelled as a `map<string, string>` field. Its I/O is external.
- `Appearance.getColorScheme()`, `useColorScheme()` and `Platform.OS` are host queries and become parameters. The listener reads the scheme three times; the model assumes it returns the same value each time.
- The OS scheme's null and undefined are one value, `None`. JS `!==` tells them apart, so the model does not cover a baseline of `null` meeting a report of `undefined`.
- `DynamicColorIOS` is modelled only as a token holding its two colours. How iOS resolves it is outside the code.
- MobX-state-tree notifications are not modelled: `onPatch` calls and how many patches a nudge fires. `switch` is a plain state update. This is library behaviour.
- `console.*` output, `__DEV__` gating (`createAppTheme` validates only in development) and the `hasCreatedAppTheme` warning are not modelled. They are diagnostics.
- WeakMap garbage collection is not modelled. The cache is keyed by a handle.
- Key order is not modelled. Object keys are sets, so the thrown and warned messages list keys as a set, not in `Object.keys` order.
- `Object.keys` of a value that is not a plain object (a string or an array) is taken as empty. The TypeScript types exclude such palettes.
- Numbers are integers, so fractional values and `-0` are left out. Truthiness matters only at `0` and `NaN`.
- Helpers.IsDynamicColorObject: models only the truthiness of the returned value. On a falsy input the source returns that value itself, not `false`.
- JsValues.HasProperty: the `in` operator on arrays is modelled only for the non-index, non-`length` names the code asks about.
- src/core/styleSheet.ts is left out; it is an identity function. The type files are used only to shape datatypes. The demo apps and install scripts are left out.

## Findings

| source | as written | input that shows it | evidently intended | confidence | as-written member | corrected member |
|---|---|---|---|---|---|---|
| src/index.tsx:141-142 | the stored string is cast to a theme mode without a check and becomes the mode | the shared default store holds `"blue"` under `app-theme-mode` (written elsewhere in the app or by another version); `resolvedMode` is then `"blue"` and `config.colors[resolvedMode]` is undefined | a stored value that names no mode falls back to `defaultMode`, keeping `resolvedMode` light or dark | not executed; low | `AppTheme.InitialModeAsWritten`, `AppTheme.ForeignStoredValueLeaks` | `AppTheme.InitialMode` |

`AppTheme.ThemeProvider` uses the corrected `InitialMode`.
`AppTheme.InitialModeAgreesWithSource` shows that it differs from the source
only when the stored string is not empty and names no mode.
