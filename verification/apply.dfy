/** The `t(args)` function of the older API (src/core/apply.ts): feed every
    entry of the style, one single-key object at a time, into a fresh
    `Instance`, then take its output style. */
module Apply {
  import opened JsValues
  import opened Appearance
  import opened ThemedStyle
  import StyleInstance
  import DarkThemeProcessor
  import ThemeProcessor
  import Theme

  /** The value an override key contributes once its entry has been fed:
      `undefined` before that, or when the key is absent. */
  function Recorded(args: Props, remaining: set<string>, k: string): Value
  {
    if k in args && k !in remaining then args[k] else Undefined
  }

  /** `t(args)` with the store's mode and the OS scheme as parameters.
      A style failing the guard yields null (`None`); otherwise the result
      is the pure resolver's for the effective scheme, whatever order the
      entries are visited in. */
  method ApplyStyle(args: Props, activeTheme: Mode, os: Option<Scheme>) returns (r: Option<Props>)
    ensures r.None? <==> !IsThemedStyle(args)
    ensures r.Some? ==> r.value == ThemeProcessor.Resolve(args, DarkThemeProcessor.EffectiveScheme(activeTheme, os))
    ensures r.Some? ==> forall k :: k in OverrideKeys ==> k !in r.value
    // the two APIs agree under the same mode: `t` returns what `T` returns, null where `T` throws
    ensures match Theme.ResolveStyle(args, activeTheme, os)
            case Ok(s) => r == Some(s)
            case Err(_) => r == None
    ensures r.Some? && !DarkThemeProcessor.IsEffectivelyDark(activeTheme, os) ==> r.value == args - OverrideKeys
  {
    if !IsThemedStyle(args) {
      return None;
    }
    var instance := new StyleInstance.Instance();
    var remaining := args.Keys;
    while remaining != {}
      invariant remaining <= args.Keys
      invariant instance.obj == (args - remaining) - OverrideKeys
      invariant instance.bgDark == Recorded(args, remaining, "backgroundDark")
      invariant instance.borderDark == Recorded(args, remaining, "borderDark")
      invariant instance.textDark == Recorded(args, remaining, "colorDark")
      invariant instance.tintDark == Recorded(args, remaining, "tintColorDark")
      decreases remaining
    {
      var key :| key in remaining;
      var entry := map[key := args[key]];
      var themed := instance.DarkTheme(Obj(entry));
      if !themed {
        instance.DefineStyles(entry);
      }
      remaining := remaining - {key};
      assert instance.obj == (args - remaining) - OverrideKeys;
    }
    assert args - remaining == args;
    var output := instance.GetOutputStyle(activeTheme, os);
    DarkThemeProcessor.ProcessAgreesWithResolve(args, activeTheme, os);
    return Some(output);
  }
}
