/** The `createAppTheme` API (src/index.tsx): config validation that only
    warns on a key mismatch, the iOS dynamic palette, the provider's mode
    state with optional persistence, the resolution of a mode to light or
    dark, the palette in use, the toggle cycle, and the per-theme style
    cache. The OS scheme and the platform are parameters; the persistent
    store is a `map<string, string>`. */
module AppTheme {
  import opened JsValues
  import opened Appearance

  /** The key the mode is persisted under. */
  const StorageKey: string := "app-theme-mode"

  /** The string a mode is stored as. */
  function ModeName(m: Mode): string
  {
    match m
    case SystemMode => "system"
    case LightMode => "light"
    case DarkMode => "dark"
  }

  /** The mode a stored string names, if any. */
  function ParseMode(s: string): (r: Option<Mode>)
    ensures r.Some? ==> ModeName(r.value) == s
  {
    if s == "system" then Some(SystemMode)
    else if s == "light" then Some(LightMode)
    else if s == "dark" then Some(DarkMode)
    else None
  }

  /** Parsing inverts storing. */
  lemma ParseModeName(m: Mode)
    ensures ParseMode(ModeName(m)) == Some(m)
  {
  }

  /** The string a concrete scheme is keyed by in `config.colors`. */
  function SchemeName(s: Scheme): string
  {
    if s == Light then "light" else "dark"
  }

  /** Storage is on unless the options say `storage: false`. */
  function StorageEnabled(storageOption: Option<bool>): (r: bool)
    ensures r <==> storageOption != Some(false)
  {
    match storageOption
    case Some(b) => b
    case None => true
  }

  // ---- The initial mode, as written and as intended ----

  /** The initial mode exactly as the source computes it: the stored string
      is cast to a mode without any check. */
  function InitialModeAsWritten(storageEnabled: bool, stored: Option<string>, defaultMode: Mode): (r: string)
    ensures !storageEnabled ==> r == ModeName(defaultMode)
    // the unchecked cast: any non-empty stored string becomes the mode
    ensures storageEnabled && stored.Some? && stored.value != "" ==> r == stored.value
    ensures storageEnabled && (stored.None? || stored.value == "") ==> r == ModeName(defaultMode)
  {
    if !storageEnabled then ModeName(defaultMode)
    else if stored.Some? && stored.value != "" then stored.value
    else ModeName(defaultMode)
  }

  /** `resolvedMode` exactly as the source computes it, on the string mode. */
  function ResolvedModeAsWritten(mode: string, os: Option<Scheme>, fallbackTheme: Scheme): (r: string)
    // any mode but 'system' passes through unchecked
    ensures mode != "system" ==> r == mode
    ensures mode == "system" ==> r == SchemeName(if os.Some? then os.value else fallbackTheme)
    ensures mode == "system" ==> r == "light" || r == "dark"
  {
    if mode == "system" then
      if os.Some? then SchemeName(os.value) else SchemeName(fallbackTheme)
    else
      mode
  }

  /** A stored string that is no mode name (written by another part of the
      app under the same key of the shared default store, or by another
      version) becomes the mode, and `resolvedMode` is then neither 'light'
      nor 'dark', so `config.colors[resolvedMode]` is undefined. */
  lemma ForeignStoredValueLeaks()
    ensures ResolvedModeAsWritten(InitialModeAsWritten(true, Some("blue"), SystemMode), Some(Light), Light) == "blue"
  {
  }

  /** The initial mode: the default when storage is disabled; otherwise the
      stored mode when the stored string names one, else the default. */
  function InitialMode(storageEnabled: bool, stored: Option<string>, defaultMode: Mode): (m: Mode)
    ensures !storageEnabled ==> m == defaultMode
    ensures storageEnabled && stored.Some? && ParseMode(stored.value).Some? ==> m == ParseMode(stored.value).value
    ensures storageEnabled && (stored.None? || ParseMode(stored.value).None?) ==> m == defaultMode
  {
    if !storageEnabled then defaultMode
    else match stored
      case Some(s) => (match ParseMode(s) case Some(p) => p case None => defaultMode)
      case None => defaultMode
  }

  /** The corrected initial mode agrees with the source wherever the stored
      value is absent, empty or a mode name. */
  lemma InitialModeAgreesWithSource(storageEnabled: bool, stored: Option<string>, defaultMode: Mode)
    requires stored.Some? ==> stored.value == "" || ParseMode(stored.value).Some?
    ensures ModeName(InitialMode(storageEnabled, stored, defaultMode))
         == InitialModeAsWritten(storageEnabled, stored, defaultMode)
  {
  }

  // ---- Resolution of the mode and the palette in use ----

  /** `resolvedMode`: the mode itself unless 'system', then the OS scheme
      when it is light or dark, else the fallback theme. */
  function ResolvedMode(mode: Mode, os: Option<Scheme>, fallbackTheme: Scheme): (r: Scheme)
    ensures mode != SystemMode ==> SchemeMode(r) == mode
    ensures mode == SystemMode && os.Some? ==> r == os.value
    ensures mode == SystemMode && os.None? ==> r == fallbackTheme
  {
    match mode
    case SystemMode => (match os case Some(s) => s case None => fallbackTheme)
    case LightMode => Light
    case DarkMode => Dark
  }

  /** On a well-formed mode the typed resolution is the source's. */
  lemma ResolvedModeMatchesSource(mode: Mode, os: Option<Scheme>, fallbackTheme: Scheme)
    ensures SchemeName(ResolvedMode(mode, os, fallbackTheme))
         == ResolvedModeAsWritten(ModeName(mode), os, fallbackTheme)
  {
  }

  /** The toggle's next mode: light, dark, system, light, ... */
  function NextMode(m: Mode): (r: Mode)
    ensures r != m
  {
    match m
    case LightMode => DarkMode
    case DarkMode => SystemMode
    case SystemMode => LightMode
  }

  /** The toggle goes light, dark, system: light is followed by dark, three
      toggles return to the start, and no fewer do. */
  lemma ToggleCycle(m: Mode)
    ensures NextMode(LightMode) == DarkMode
    ensures NextMode(NextMode(NextMode(m))) == m
    ensures NextMode(NextMode(m)) != m
  {
  }

  /** Keys of light missing from dark, and of dark missing from light. */
  datatype ColorMismatch = ColorMismatch(missingInDark: set<string>, missingInLight: set<string>)
  {
    /** Whether the source logs a mismatch warning. */
    predicate Warns()
    {
      missingInDark != {} || missingInLight != {}
    }
  }

  /** `validateThemeConfig(config)` of this API: throw only when light or
      dark colours are missing; a key mismatch is reported, not thrown. */
  function ValidateAppThemeConfig(config: Props): (r: Result<ColorMismatch>)
    ensures var colors := Lookup(config, "colors");
      r.Err? <==> !Truthy(Get(colors, "light")) || !Truthy(Get(colors, "dark"))
    ensures r.Err? ==> r.error == LightAndDarkRequired
    ensures r.Ok? ==>
      var light := OwnKeys(Get(Lookup(config, "colors"), "light"));
      var dark := OwnKeys(Get(Lookup(config, "colors"), "dark"));
      && r.value.missingInDark == light - dark
      && r.value.missingInLight == dark - light
      // no warning exactly when both palettes have the same keys
      && (!r.value.Warns() <==> light == dark)
  {
    var colors := Lookup(config, "colors");
    if !Truthy(Get(colors, "light")) || !Truthy(Get(colors, "dark")) then
      Err(LightAndDarkRequired)
    else
      var lightKeys := OwnKeys(Get(colors, "light"));
      var darkKeys := OwnKeys(Get(colors, "dark"));
      var report := ColorMismatch(lightKeys - darkKeys, darkKeys - lightKeys);
      assert !report.Warns() <==> lightKeys == darkKeys by {
        if !report.Warns() {
          forall k | k in lightKeys ensures k in darkKeys { assert k !in report.missingInDark; }
          forall k | k in darkKeys ensures k in lightKeys { assert k !in report.missingInLight; }
        } else if report.missingInDark != {} {
          var k :| k in report.missingInDark;
        } else {
          var k :| k in report.missingInLight;
        }
      }
      Ok(report)
  }

  /** This API's `calculateDynamicIOSColors(config)`: null unless both
      palettes are there, else one dynamic colour per light key pairing the
      light value with the raw dark palette's (undefined where dark lacks
      the key). Reading `colors.light` throws on undefined or null colours. */
  function CalculateAppDynamicColors(config: Props): (r: Result<Option<Props>>)
    ensures var colors := Lookup(config, "colors");
      r.Err? <==> colors.Undefined? || colors.Null?
    ensures var colors := Lookup(config, "colors");
      r.Ok? ==> (r.value.None? <==> !Truthy(Get(colors, "light")) || !Truthy(Get(colors, "dark")))
    ensures r.Ok? && r.value.Some? ==>
      var light := Fields(Get(Lookup(config, "colors"), "light"));
      var dark := Fields(Get(Lookup(config, "colors"), "dark"));
      && r.value.value.Keys == light.Keys
      && forall k :: k in r.value.value ==> r.value.value[k] == DynamicToken(light[k], Lookup(dark, k))
  {
    var colors := Lookup(config, "colors");
    match Prop(colors, "light")
    case Err(e) => Err(e)
    case Ok(light) =>
      if !Truthy(light) || !Truthy(Get(colors, "dark")) then
        Ok(None)
      else
        var dark := Get(colors, "dark");
        Ok(Some(map key | key in OwnKeys(light) :: DynamicToken(Fields(light)[key], Lookup(Fields(dark), key))))
  }

  /** When validation reports no mismatch, every dynamic colour carries the
      dark palette's own value, never undefined. */
  lemma DynamicColorsCompleteWithoutMismatch(config: Props, k: string)
    requires ValidateAppThemeConfig(config).Ok? && !ValidateAppThemeConfig(config).value.Warns()
    requires k in OwnKeys(Get(Lookup(config, "colors"), "light"))
    ensures var r := CalculateAppDynamicColors(config);
      var dark := Fields(Get(Lookup(config, "colors"), "dark"));
      r.Ok? && r.value.Some? && k in r.value.value && k in dark && r.value.value[k].dark == dark[k]
  {
    var colors := Lookup(config, "colors");
    assert OwnKeys(Get(colors, "light")) == OwnKeys(Get(colors, "dark"));
  }

  /** `themeColors`: with `dynamicIOSColors` computed once at setup on iOS
      only, the dynamic palette when on iOS, in 'system' mode and it exists;
      otherwise `config.colors[resolvedMode]`. Both reads of `colors` throw
      on undefined or null colours. */
  function ThemeColors(isIOS: bool, mode: Mode, os: Option<Scheme>, fallbackTheme: Scheme, config: Props): (r: Result<Value>)
    ensures var colors := Lookup(config, "colors");
      r.Err? <==> colors.Undefined? || colors.Null?
    // an explicit mode always uses its own palette, never the dynamic one
    ensures r.Ok? && mode != SystemMode ==> r.value == Get(Lookup(config, "colors"), ModeName(mode))
    // iOS, 'system', both palettes present: one dynamic colour per light key
    ensures var colors := Lookup(config, "colors");
      var light := Get(colors, "light");
      var dark := Get(colors, "dark");
      r.Ok? && isIOS && mode == SystemMode && Truthy(light) && Truthy(dark) ==>
        && r.value.Obj?
        && r.value.fields.Keys == Fields(light).Keys
        && forall k :: k in r.value.fields ==> r.value.fields[k] == DynamicToken(Fields(light)[k], Lookup(Fields(dark), k))
    // otherwise the palette the resolved scheme names
    ensures var colors := Lookup(config, "colors");
      r.Ok? && !(isIOS && mode == SystemMode && Truthy(Get(colors, "light")) && Truthy(Get(colors, "dark"))) ==>
        r.value == Get(colors, SchemeName(ResolvedMode(mode, os, fallbackTheme)))
  {
    var dynamicIOSColors := if isIOS then CalculateAppDynamicColors(config) else Ok(None);
    match dynamicIOSColors
    case Err(e) => Err(e)
    case Ok(dynamic) =>
      if isIOS && mode == SystemMode && dynamic.Some? then
        Ok(Obj(dynamic.value))
      else
        Prop(Lookup(config, "colors"), SchemeName(ResolvedMode(mode, os, fallbackTheme)))
  }

  /** Outside 'system' the palette depends on the config and the mode only:
      neither the platform, the OS scheme nor the fallback theme matters. */
  lemma ExplicitModeColorsIgnoreHost(mode: Mode, config: Props, isIOS: bool, os: Option<Scheme>, fallbackTheme: Scheme)
    requires mode != SystemMode
    ensures ThemeColors(isIOS, mode, os, fallbackTheme, config) == ThemeColors(false, mode, None, Light, config)
  {
  }

  /** The theme object: `{colorMode, colors, ...rest}` where `rest` is the
      config without `colors`; a `colorMode` in the config wins, as the
      spread comes last. */
  function BuildTheme(config: Props, resolved: Scheme, colors: Value): (t: Props)
    ensures t.Keys == config.Keys + {"colorMode", "colors"}
    ensures t["colors"] == colors
    ensures t["colorMode"] == if "colorMode" in config then config["colorMode"] else Str(SchemeName(resolved))
    ensures forall k :: k in config && k != "colors" ==> t[k] == config[k]
  {
    map["colorMode" := Str(SchemeName(resolved)), "colors" := colors] + (config - {"colors"})
  }

  /** The mode state of `AppThemeProvider`, with the persistent key/value
      store it reads at mount and writes on every explicit change. */
  class ThemeProvider {
    const isStorageEnabled: bool
    const defaultMode: Mode
    const fallbackTheme: Scheme
    var mode: Mode
    var storage: map<string, string>

    /** Mount, with the props `defaultMode` ('system' when omitted) and
        `fallbackTheme` ('light' when omitted): the initial mode from storage
        or the default; with storage disabled, any previously stored mode is
        deleted. */
    constructor (storageOption: Option<bool>, storage: map<string, string>,
                 defaultModeProp: Option<Mode>, fallbackThemeProp: Option<Scheme>)
      ensures isStorageEnabled == StorageEnabled(storageOption)
      ensures defaultMode == if defaultModeProp.Some? then defaultModeProp.value else SystemMode
      ensures fallbackTheme == if fallbackThemeProp.Some? then fallbackThemeProp.value else Light
      ensures mode == InitialMode(isStorageEnabled, if StorageKey in storage then Some(storage[StorageKey]) else None, defaultMode)
      ensures this.storage == if isStorageEnabled then storage else storage - {StorageKey}
    {
      var enabled := StorageEnabled(storageOption);
      var stored := if StorageKey in storage then Some(storage[StorageKey]) else None;
      var initial := match defaultModeProp case Some(m) => m case None => SystemMode;
      isStorageEnabled := enabled;
      defaultMode := initial;
      fallbackTheme := match fallbackThemeProp case Some(s) => s case None => Light;
      mode := InitialMode(enabled, stored, initial);
      this.storage := if enabled then storage else storage - {StorageKey};
    }

    /** The mode the next mount would start from. */
    function Reloaded(): Mode
      reads this
    {
      InitialMode(isStorageEnabled, if StorageKey in storage then Some(storage[StorageKey]) else None, defaultMode)
    }

    /** `setMode(m)`: set the mode, and persist it when storage is on. */
    method SetMode(newMode: Mode)
      modifies this
      ensures mode == newMode
      ensures storage == if isStorageEnabled then old(storage)[StorageKey := ModeName(newMode)] else old(storage)
      // with storage on, the next mount starts from the mode just set
      ensures isStorageEnabled ==> Reloaded() == newMode
    {
      mode := newMode;
      if isStorageEnabled {
        storage := storage[StorageKey := ModeName(newMode)];
        ParseModeName(newMode);
      }
    }

    /** `resetThemeMode()`: delete the stored mode when storage is on, and
        go back to 'system'. */
    method ResetThemeMode()
      modifies this
      ensures mode == SystemMode
      ensures storage == if isStorageEnabled then old(storage) - {StorageKey} else old(storage)
      // with storage on, the next mount starts from the default mode
      ensures isStorageEnabled ==> Reloaded() == defaultMode
    {
      if isStorageEnabled {
        storage := storage - {StorageKey};
      }
      mode := SystemMode;
    }

    /** The callback of `useToggleThemeMode`: set the next mode in the cycle. */
    method Toggle()
      modifies this
      ensures mode == NextMode(old(mode))
      ensures storage == if isStorageEnabled then old(storage)[StorageKey := ModeName(mode)] else old(storage)
    {
      SetMode(NextMode(mode));
    }
  }

  /** The cache behind `createThemedStyles(styleFn)`, keyed by theme
      identity, given here as a handle. `computed` logs every handle that
      `styleFn` ran for. */
  class ThemedStylesCache<S> {
    const styleFn: Props -> S
    var stylesCache: map<nat, S>
    ghost var computed: seq<nat>

    /** `styleFn` ran at most once per theme, and exactly for the cached ones. */
    ghost predicate Valid()
      reads this
    {
      && (forall i, j :: 0 <= i < j < |computed| ==> computed[i] != computed[j])
      && (forall id :: id in stylesCache <==> id in computed)
    }

    constructor (styleFn: Props -> S)
      ensures Valid() && this.styleFn == styleFn
      ensures stylesCache == map[] && computed == []
    {
      this.styleFn := styleFn;
      stylesCache := map[];
      computed := [];
    }

    /** `useThemedStyles()` for the theme with handle `id`: the cached
        sheet when there is one, else run `styleFn` once and cache it. */
    method UseThemedStyles(id: nat, theme: Props) returns (styles: S)
      requires Valid()
      modifies this
      ensures Valid()
      ensures id in old(stylesCache) ==>
        styles == old(stylesCache)[id] && stylesCache == old(stylesCache) && computed == old(computed)
      ensures id !in old(stylesCache) ==>
        styles == styleFn(theme) && stylesCache == old(stylesCache)[id := styles] && computed == old(computed) + [id]
    {
      if id in stylesCache {
        return stylesCache[id];
      }
      styles := styleFn(theme);
      stylesCache := stylesCache[id := styles];
      computed := computed + [id];
    }
  }
}
