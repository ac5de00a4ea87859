/** Palette helpers of the `createAppTheme` API (src/helpers.ts): the dynamic
    colour test, config validation that throws on a key mismatch, the
    complete dark palette, and the per-key iOS dynamic colours. A config is
    the object's own properties. */
module Helpers {
  import opened JsValues

  /** The keys that mark the `dynamic` part of an iOS dynamic colour. */
  const DynamicColorIOSProperties: seq<string> := ["light", "dark", "highContrastLight", "highContrastDark"]

  /** `key in d` for the first key of `keys` that `d` has, checking them in
      order (`Array.prototype.some`); throws when `d` is not an object. */
  function SomeKeyIn(keys: seq<string>, d: Value): (r: Result<bool>)
    requires keys != []
    ensures r.Err? <==> HasProperty(d, keys[0]).Err?
    ensures r == Ok(true) <==> exists i :: 0 <= i < |keys| && HasProperty(d, keys[i]) == Ok(true)
  {
    match HasProperty(d, keys[0])
    case Err(e) => Err(e)
    case Ok(found) =>
      if found || |keys| == 1 then
        Ok(found)
      else
        var rest := SomeKeyIn(keys[1..], d);
        assert forall i :: 1 <= i < |keys| ==> HasProperty(d, keys[i]).Ok?;
        assert forall i :: 1 <= i < |keys| ==> keys[i] == keys[1..][i - 1];
        rest
  }

  /** `isDynamicColorObject(value)`, as the truthiness of what it returns. */
  function IsDynamicColorObject(value: Value): (r: Result<bool>)
    ensures r == Ok(true) <==>
      && Truthy(value) && IsObjectType(value)
      && HasProperty(value, "dynamic") == Ok(true)
      && exists key :: key in DynamicColorIOSProperties && HasProperty(Get(value, "dynamic"), key) == Ok(true)
    // `key in value.dynamic` throws when `dynamic` holds no object
    ensures r.Err? <==>
      Truthy(value) && IsObjectType(value) && HasProperty(value, "dynamic") == Ok(true)
      && !(IsObjectType(Get(value, "dynamic")) && !Get(value, "dynamic").Null?)
  {
    if !Truthy(value) || !IsObjectType(value) then
      Ok(false)
    else if HasProperty(value, "dynamic") != Ok(true) then
      Ok(false)
    else
      var r := SomeKeyIn(DynamicColorIOSProperties, Get(value, "dynamic"));
      assert forall key :: key in DynamicColorIOSProperties <==>
        exists i :: 0 <= i < |DynamicColorIOSProperties| && DynamicColorIOSProperties[i] == key;
      r
  }

  /** A DynamicColorIOS token is a dynamic colour object. */
  lemma TokenIsDynamicColorObject(light: Value, dark: Value)
    ensures IsDynamicColorObject(DynamicToken(light, dark)) == Ok(true)
  {
    assert "light" in DynamicColorIOSProperties;
  }

  /** `validateThemeConfig(config)`: throw unless `colors` is a non-array
      object with a truthy `light`; with a truthy `dark`, throw naming the
      dark keys that light lacks. */
  function ValidateThemeConfig(config: Props): (r: Outcome)
    ensures r == Fail(ColorsNotObject) <==>
      var colors := Lookup(config, "colors");
      !Truthy(colors) || !IsObjectType(colors) || colors.Arr?
    ensures r == Fail(LightColorsMissing) ==> !Truthy(Get(Lookup(config, "colors"), "light"))
    // passing: colors well formed, light present, and dark (when present) only overrides light keys
    ensures r == Pass <==>
      var colors := Lookup(config, "colors");
      var light := Get(colors, "light");
      var dark := Get(colors, "dark");
      && Truthy(colors) && IsObjectType(colors) && !colors.Arr?
      && Truthy(light)
      && (Truthy(dark) ==> OwnKeys(dark) <= OwnKeys(light))
    // a mismatch lists exactly the dark keys absent from light
    ensures r.Fail? && r.error.DarkKeysNotInLight? ==>
      var colors := Lookup(config, "colors");
      r.error.keys == OwnKeys(Get(colors, "dark")) - OwnKeys(Get(colors, "light")) && r.error.keys != {}
    // with well-formed colours, a missing light palette is reported as such
    ensures var colors := Lookup(config, "colors");
      Truthy(colors) && IsObjectType(colors) && !colors.Arr? && !Truthy(Get(colors, "light")) ==>
        r == Fail(LightColorsMissing)
    // with both palettes present, dark keys that light lacks are reported by name
    ensures var colors := Lookup(config, "colors");
      var light := Get(colors, "light");
      var dark := Get(colors, "dark");
      Truthy(colors) && IsObjectType(colors) && !colors.Arr? && Truthy(light) && Truthy(dark)
        && !(OwnKeys(dark) <= OwnKeys(light)) ==>
        r == Fail(DarkKeysNotInLight(OwnKeys(dark) - OwnKeys(light)))
  {
    var colors := Lookup(config, "colors");
    if !Truthy(colors) || !IsObjectType(colors) || colors.Arr? then
      Fail(ColorsNotObject)
    else if !Truthy(Get(colors, "light")) then
      Fail(LightColorsMissing)
    else if !Truthy(Get(colors, "dark")) then
      Pass
    else
      var invalidDarkKeys := OwnKeys(Get(colors, "dark")) - OwnKeys(Get(colors, "light"));
      assert invalidDarkKeys == {} <==> OwnKeys(Get(colors, "dark")) <= OwnKeys(Get(colors, "light")) by {
        if invalidDarkKeys == {} {
          forall k | k in OwnKeys(Get(colors, "dark")) ensures k in OwnKeys(Get(colors, "light")) {
            assert k !in invalidDarkKeys;
          }
        } else {
          var k :| k in invalidDarkKeys;
        }
      }
      if invalidDarkKeys != {} then Fail(DarkKeysNotInLight(invalidDarkKeys)) else Pass
  }

  /** Two configurations: a dark key `b` that light lacks is reported; a
      matching one passes. */
  lemma ValidateExamples()
    ensures ValidateThemeConfig(map["colors" := Obj(map[
      "light" := Obj(map["a" := Str("#fff")]), "dark" := Obj(map["b" := Str("#000")])])])
      == Fail(DarkKeysNotInLight({"b"}))
    ensures ValidateThemeConfig(map["colors" := Obj(map[
      "light" := Obj(map["a" := Str("#fff")]), "dark" := Obj(map["a" := Str("#000")])])])
      == Pass
  {
    var bad := map["colors" := Obj(map[
      "light" := Obj(map["a" := Str("#fff")]), "dark" := Obj(map["b" := Str("#000")])])];
    var colors := Lookup(bad, "colors");
    assert OwnKeys(Get(colors, "dark")) == {"b"};
    assert OwnKeys(Get(colors, "light")) == {"a"};
    assert {"b"} - {"a"} == {"b"};
  }

  /** `createCompleteDarkColors(light, dark)`: the light palette itself
      without a dark one, else light overlaid by dark. */
  function CreateCompleteDarkColors(light: Props, dark: Option<Props>): (r: Props)
    ensures dark.None? ==> r == light
    ensures dark.Some? ==> r.Keys == light.Keys + dark.value.Keys
    ensures dark.Some? ==> forall k :: k in dark.value ==> r[k] == dark.value[k]
    ensures dark.Some? ==> forall k :: k in light && k !in dark.value ==> r[k] == light[k]
  {
    match dark
    case None => light
    case Some(d) => light + d
  }

  /** Once validation has passed, the complete dark palette has exactly
      the light palette's keys. */
  lemma ValidatedDarkPaletteKeys(config: Props)
    requires ValidateThemeConfig(config) == Pass
    ensures var colors := Lookup(config, "colors");
      var light := Fields(Get(colors, "light"));
      var dark := Get(colors, "dark");
      CreateCompleteDarkColors(light, if Truthy(dark) then Some(Fields(dark)) else None).Keys == light.Keys
  {
  }

  /** `calculateDynamicIOSColors(config, completeDark)`: null without light
      colours, else one dynamic colour per light key pairing the light value
      with the complete dark palette's. Reading `colors.light` throws when
      `colors` is undefined or null. */
  function CalculateDynamicIOSColors(config: Props, completeDarkColors: Props): (r: Result<Option<Props>>)
    ensures r.Err? <==> Lookup(config, "colors").Undefined? || Lookup(config, "colors").Null?
    ensures r.Ok? ==> (r.value.None? <==> !Truthy(Get(Lookup(config, "colors"), "light")))
    ensures r.Ok? && r.value.Some? ==>
      var light := Fields(Get(Lookup(config, "colors"), "light"));
      && r.value.value.Keys == light.Keys
      && forall k :: k in r.value.value ==>
           r.value.value[k] == DynamicToken(light[k], Lookup(completeDarkColors, k))
  {
    match Prop(Lookup(config, "colors"), "light")
    case Err(e) => Err(e)
    case Ok(light) =>
      if !Truthy(light) then
        Ok(None)
      else
        Ok(Some(map key | key in OwnKeys(light) :: DynamicToken(Fields(light)[key], Lookup(completeDarkColors, key))))
  }
}
