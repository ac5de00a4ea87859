/** The `T` API's light/dark selection and the module-level OS appearance
    listener with its `prevSettingsColor` baseline (src/core/theme.ts). The
    OS scheme is a parameter; React state and re-rendering are not modelled. */
module Theme {
  import opened JsValues
  import opened Appearance
  import opened ThemedStyle
  import ThemeProcessor
  import DarkThemeProcessor

  /** `T(style)` under the given mode state and OS scheme: throw on a
      style failing the guard, else pick the dark or the light resolution. */
  function ResolveStyle(style: Props, theme: Mode, os: Option<Scheme>): (r: Result<Props>)
    ensures r.Err? <==> !IsThemedStyle(style)
    ensures r.Err? ==> r.error == InvalidThemeInput
    // dark exactly when 'dark', or 'system' with a dark OS scheme
    ensures r.Ok? ==> r.value == ThemeProcessor.Resolve(style, DarkThemeProcessor.EffectiveScheme(theme, os))
    // an undetermined OS scheme under 'system' resolves light
    ensures r.Ok? && theme == SystemMode && os.None? ==> r.value == style - OverrideKeys
  {
    if !IsThemedStyle(style) then
      Err(InvalidThemeInput)
    else
      var darkStyle := ThemeProcessor.Resolve(style, Dark);
      var lightStyle := ThemeProcessor.Resolve(style, Light);
      if theme == DarkMode || (theme == SystemMode && os == Some(Dark)) then Ok(darkStyle) else Ok(lightStyle)
  }

  /** The mode the store is switched to for a reported OS scheme; a null
      scheme has none. */
  function SchemeSwitchArg(scheme: Option<Scheme>): (r: Option<Mode>)
    ensures r.Some? <==> scheme.Some?
    ensures r.Some? ==> r.value == SchemeMode(scheme.value)
  {
    match scheme
    case Some(s) => Some(SchemeMode(s))
    case None => None
  }

  /** What one OS change notification does: the store's final mode, the new
      baseline, the values the store was switched through, and the error
      thrown, if any. */
  datatype ListenerResult = ListenerResult(theme: Mode, baseline: Option<Scheme>, switches: seq<Mode>, error: Option<Error>)

  /** The listener's effect, written as in the source: only in 'system' mode
      and only for a scheme different from the baseline does it nudge the
      store (switch to the scheme, then back to 'system') and refresh the
      baseline. A null scheme is refused by the first switch, which throws. */
  function OnAppearanceChange(theme: Mode, baseline: Option<Scheme>, scheme: Option<Scheme>): (r: ListenerResult)
    // the store always ends where it was: the nudge is a round trip
    ensures r.theme == theme
    ensures r.switches != [] <==> theme == SystemMode && baseline != scheme && scheme.Some?
    ensures r.switches != [] ==> r.switches == [SchemeMode(scheme.value), SystemMode]
    // the baseline moves only together with a nudge
    ensures r.baseline == if r.switches != [] then scheme else baseline
    ensures r.error.Some? <==> theme == SystemMode && baseline != scheme && scheme.None?
    ensures r.error.Some? ==> r.error.value == InvalidEnumValue
  {
    if theme == SystemMode && baseline != scheme then
      var first := Switched(theme, SchemeSwitchArg(scheme));
      if scheme.None? then
        ListenerResult(theme, baseline, [], Some(InvalidEnumValue))
      else
        ListenerResult(Switched(first, Some(SystemMode)), scheme, [first, SystemMode], None)
    else
      ListenerResult(theme, baseline, [], None)
  }

  /** The baseline is not refreshed outside 'system' mode, so an OS change
      made while the user forced 'dark' hides the next change back: after
      the user returns to 'system', the OS going light again fires no nudge
      although the effective appearance turns from dark to light. */
  lemma StaleBaselineMissesChange()
    ensures var away := OnAppearanceChange(DarkMode, Some(Light), Some(Dark));
      && away.baseline == Some(Light)
      && OnAppearanceChange(SystemMode, away.baseline, Some(Light)).switches == []
      && DarkThemeProcessor.IsEffectivelyDark(SystemMode, Some(Dark))
      && !DarkThemeProcessor.IsEffectivelyDark(SystemMode, Some(Light))
  {
  }

  /** The listener registered at load time, over the store it nudges. */
  class SystemWatcher {
    const store: AppearanceStore
    var prevSettingsColor: Option<Scheme>

    /** The baseline starts as the OS scheme at load time. */
    constructor (store: AppearanceStore, scheme: Option<Scheme>)
      ensures this.store == store && prevSettingsColor == scheme
    {
      this.store := store;
      prevSettingsColor := scheme;
    }

    /** One OS change notification reporting `scheme`. */
    method OnChange(scheme: Option<Scheme>) returns (switches: seq<Mode>, error: Option<Error>)
      modifies this, store
      ensures var r := OnAppearanceChange(old(store.theme), old(prevSettingsColor), scheme);
        && store.theme == r.theme && prevSettingsColor == r.baseline
        && switches == r.switches && error == r.error
    {
      switches, error := [], None;
      if store.ActiveTheme() == SystemMode && prevSettingsColor != scheme {
        var ok := store.Switch(SchemeSwitchArg(scheme));
        if !ok {
          error := Some(InvalidEnumValue);
          return;
        }
        switches := [store.theme];
        ok := store.Switch(Some(SystemMode));
        switches := switches + [store.theme];
        prevSettingsColor := scheme;
      }
    }
  }
}
