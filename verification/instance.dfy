/** The mutable style accumulator of the `t` API (src/core/instance.ts). */
module StyleInstance {
  import opened JsValues
  import opened Appearance
  import ThemedStyle
  import DarkThemeProcessor

  /** The order in which `darkTheme` checks the override keys. */
  const OverrideOrder: seq<string> := ["backgroundDark", "borderDark", "colorDark", "tintColorDark"]

  /** The override key `darkTheme` records from a style, checked in the
      source's order: the first own key among backgroundDark, borderDark,
      colorDark, tintColorDark of a truthy object. */
  function FirstOverrideKey(style: Value): (r: Option<string>)
    ensures r.Some? ==> style.Obj? && r.value in style.fields
    ensures r.Some? ==> r.value in ThemedStyle.OverrideKeys
    ensures r.None? <==> (!style.Obj? || !ThemedStyle.IsThemedStyle(style.fields))
    // precedence: every key checked before the recorded one is absent
    ensures r.Some? ==>
      exists i :: 0 <= i < |OverrideOrder| && r.value == OverrideOrder[i]
        && (forall j :: 0 <= j < i ==> OverrideOrder[j] !in style.fields)
  {
    if !style.Obj? then None
    else if "backgroundDark" in style.fields then
      assert OverrideOrder[0] == "backgroundDark";
      Some("backgroundDark")
    else if "borderDark" in style.fields then
      assert OverrideOrder[1] == "borderDark";
      Some("borderDark")
    else if "colorDark" in style.fields then
      assert OverrideOrder[2] == "colorDark";
      Some("colorDark")
    else if "tintColorDark" in style.fields then
      assert OverrideOrder[3] == "tintColorDark";
      Some("tintColorDark")
    else None
  }

  class Instance {
    var obj: Props
    var bgDark: Value
    var borderDark: Value
    var textDark: Value
    var tintDark: Value

    /** The override arguments recorded so far. */
    function Args(): DarkThemeProcessor.DarkArgs
      reads this
    {
      DarkThemeProcessor.DarkArgs(bgDark, borderDark, textDark, tintDark)
    }

    /** A new instance: no styles, every dark field undefined. */
    constructor ()
      ensures obj == map[]
      ensures bgDark == Undefined && borderDark == Undefined
      ensures textDark == Undefined && tintDark == Undefined
    {
      obj := map[];
      bgDark, borderDark, textDark, tintDark := Undefined, Undefined, Undefined, Undefined;
    }

    /** `defineStyles(data)`: overlay `data` onto the styles, `data` winning. */
    method DefineStyles(data: Props)
      modifies this
      ensures obj == old(obj) + data
      ensures Args() == old(Args())
    {
      obj := obj + data;
    }

    /** `darkTheme(style)`: record the first override key's value (`x && x`
        is `x`) in its field and report true; on a falsy style or one with
        no override key, change nothing and report false. */
    method DarkTheme(style: Value) returns (themed: bool)
      modifies this
      ensures themed <==> FirstOverrideKey(style).Some?
      ensures obj == old(obj)
      ensures bgDark == if FirstOverrideKey(style) == Some("backgroundDark") then style.fields["backgroundDark"] else old(bgDark)
      ensures borderDark == if FirstOverrideKey(style) == Some("borderDark") then style.fields["borderDark"] else old(borderDark)
      ensures textDark == if FirstOverrideKey(style) == Some("colorDark") then style.fields["colorDark"] else old(textDark)
      ensures tintDark == if FirstOverrideKey(style) == Some("tintColorDark") then style.fields["tintColorDark"] else old(tintDark)
    {
      if Truthy(style) && style.Obj? {
        var f := style.fields;
        if "backgroundDark" in f {
          bgDark := f["backgroundDark"];
          return true;
        }
        if "borderDark" in f {
          borderDark := f["borderDark"];
          return true;
        }
        if "colorDark" in f {
          textDark := f["colorDark"];
          return true;
        }
        if "tintColorDark" in f {
          tintDark := f["tintColorDark"];
          return true;
        }
      }
      return false;
    }

    /** `getOutputStyle()`: replace the styles by their dark processing under
        the given store mode and OS scheme, and return them. */
    method GetOutputStyle(activeTheme: Mode, os: Option<Scheme>) returns (r: Props)
      modifies this
      ensures r == DarkThemeProcessor.Process(old(obj), old(Args()), activeTheme, os)
      ensures obj == r
      ensures Args() == old(Args())
    {
      obj := DarkThemeProcessor.Process(obj, Args(), activeTheme, os);
      r := obj;
    }
  }
}
