/** `darkThemeProcessor` (src/processor/darkThemeProcessor.ts): when the
    store's mode is effectively dark, write each truthy override argument
    onto its base property. The store's mode and the OS scheme, which the
    source reads from globals, are parameters here. */
module DarkThemeProcessor {
  import opened JsValues
  import opened Appearance
  import opened ThemedStyle
  import ThemeProcessor

  /** The mode is effectively dark: 'dark', or 'system' while the OS reports
      dark. An undetermined OS scheme counts as light. */
  predicate IsEffectivelyDark(activeTheme: Mode, os: Option<Scheme>)
  {
    activeTheme == DarkMode || (activeTheme == SystemMode && os == Some(Dark))
  }

  /** The concrete scheme a mode resolves to under the older API. */
  function EffectiveScheme(activeTheme: Mode, os: Option<Scheme>): (s: Scheme)
    ensures s == Dark <==> IsEffectivelyDark(activeTheme, os)
    ensures activeTheme != SystemMode ==> SchemeMode(s) == activeTheme
  {
    if IsEffectivelyDark(activeTheme, os) then Dark else Light
  }

  /** The dark override arguments, in the source's parameter order. */
  datatype DarkArgs = DarkArgs(bgDark: Value, borderDark: Value, textDark: Value, tintDark: Value)
  {
    /** The argument that the dark pass writes onto base property `base`. */
    function For(base: string): Value
      requires base in BaseKeys
    {
      if base == "backgroundColor" then bgDark
      else if base == "borderColor" then borderDark
      else if base == "color" then textDark
      else tintDark
    }
  }

  /** The override arguments a themed style carries (undefined when absent). */
  function ArgsOf(style: Props): (a: DarkArgs)
    ensures forall b :: b in BaseKeys ==> a.For(b) == Lookup(style, OverrideOf(b))
  {
    assert forall b :: b in BaseKeys ==>
      b == "backgroundColor" || b == "borderColor" || b == "color" || b == "tintColor";
    DarkArgs(Lookup(style, "backgroundDark"), Lookup(style, "borderDark"),
             Lookup(style, "colorDark"), Lookup(style, "tintColorDark"))
  }

  /** `darkThemeProcessor(styles, bgDark, borderDark, textDark, tintDark)`. */
  function Process(styles: Props, args: DarkArgs, activeTheme: Mode, os: Option<Scheme>): (r: Props)
    // not effectively dark: the styles come back unchanged
    ensures !IsEffectivelyDark(activeTheme, os) ==> r == styles
    // dark: each truthy argument is written onto its base property
    ensures IsEffectivelyDark(activeTheme, os) ==>
      forall b :: b in BaseKeys && Truthy(args.For(b)) ==> b in r && r[b] == args.For(b)
    // no other key is added, removed or changed
    ensures forall k :: !(IsEffectivelyDark(activeTheme, os) && k in BaseKeys && Truthy(args.For(k))) ==>
      (k in r <==> k in styles) && (k in r ==> r[k] == styles[k])
  {
    if IsEffectivelyDark(activeTheme, os) then
      var withBackground := ThemeProcessor.OverlayIfTruthy(styles, "backgroundColor", args.bgDark);
      var withBorder := ThemeProcessor.OverlayIfTruthy(withBackground, "borderColor", args.borderDark);
      var withText := ThemeProcessor.OverlayIfTruthy(withBorder, "color", args.textDark);
      var r := ThemeProcessor.OverlayIfTruthy(withText, "tintColor", args.tintDark);
      assert forall k :: !(IsEffectivelyDark(activeTheme, os) && k in BaseKeys && Truthy(args.For(k))) ==>
        (k in r <==> k in styles) && (k in r ==> r[k] == styles[k])
      by {
        forall k | !(IsEffectivelyDark(activeTheme, os) && k in BaseKeys && Truthy(args.For(k)))
          ensures (k in r <==> k in styles) && (k in r ==> r[k] == styles[k])
        {
          assert (k in withBackground <==> k in styles) && (k in withBackground ==> withBackground[k] == styles[k]);
          assert (k in withBorder <==> k in styles) && (k in withBorder ==> withBorder[k] == styles[k]);
          assert (k in withText <==> k in styles) && (k in withText ==> withText[k] == styles[k]);
        }
      }
      r
    else
      styles
  }

  /** The two resolvers agree: processing a style stripped of its override
      keys with the overrides it carried gives the pure resolver's result
      for the effective scheme. */
  lemma ProcessAgreesWithResolve(style: Props, activeTheme: Mode, os: Option<Scheme>)
    ensures Process(style - OverrideKeys, ArgsOf(style), activeTheme, os)
         == ThemeProcessor.Resolve(style, EffectiveScheme(activeTheme, os))
  {
    var p := Process(style - OverrideKeys, ArgsOf(style), activeTheme, os);
    var q := ThemeProcessor.Resolve(style, EffectiveScheme(activeTheme, os));
    forall k ensures (k in p <==> k in q) && (k in p ==> p[k] == q[k]) {
      if k in BaseKeys {
        OverrideKeysAreNotBaseKeys();
      }
    }
    assert p.Keys == q.Keys;
  }
}
