/** The pure resolver of the `T` API (src/processor/themeProcessor.ts): drop
    the four override keys, and in dark mode write each truthy override onto
    its base property. */
module ThemeProcessor {
  import opened JsValues
  import opened Appearance
  import opened ThemedStyle

  /** Whether the dark pass writes base property `k`: `k` is a base colour
      property whose override is truthy in `style`. */
  predicate Overridden(style: Props, k: string)
  {
    k in BaseKeys && Truthy(Lookup(style, OverrideOf(k)))
  }

  /** `{...style, base: value}` when `value` is truthy, else `style`. */
  function OverlayIfTruthy(style: Props, base: string, value: Value): (r: Props)
    ensures Truthy(value) ==> base in r && r[base] == value
    ensures !Truthy(value) ==> r == style
    ensures forall k :: k != base ==> (k in r <==> k in style) && (k in r ==> r[k] == style[k])
  {
    if Truthy(value) then style[base := value] else style
  }

  /** `themeProcessor(style, mode)`. */
  function Resolve(style: Props, mode: Scheme): (r: Props)
    // no override key survives, in either mode
    ensures forall k :: k in OverrideKeys ==> k !in r
    // light mode: the input minus the override keys, nothing else changed
    ensures mode == Light ==> r == style - OverrideKeys
    // dark mode: every truthy override is written onto its base property
    ensures mode == Dark ==>
      forall k :: Overridden(style, k) ==> k in r && r[k] == style[OverrideOf(k)]
    // every other key is exactly as in the input, present or absent
    ensures forall k :: k !in OverrideKeys && !(mode == Dark && Overridden(style, k)) ==>
      (k in r <==> k in style) && (k in r ==> r[k] == style[k])
  {
    var other := style - OverrideKeys;
    if mode == Light then
      other
    else
      assert OverrideOf("backgroundColor") == "backgroundDark" && OverrideOf("borderColor") == "borderDark";
      assert OverrideOf("color") == "colorDark" && OverrideOf("tintColor") == "tintColorDark";
      var withBackground := OverlayIfTruthy(other, "backgroundColor", Lookup(style, "backgroundDark"));
      var withBorder := OverlayIfTruthy(withBackground, "borderColor", Lookup(style, "borderDark"));
      var withColor := OverlayIfTruthy(withBorder, "color", Lookup(style, "colorDark"));
      var r := OverlayIfTruthy(withColor, "tintColor", Lookup(style, "tintColorDark"));
      assert forall k :: k !in OverrideKeys && !(mode == Dark && Overridden(style, k)) ==>
        (k in r <==> k in style) && (k in r ==> r[k] == style[k])
      by {
        forall k | k !in OverrideKeys && !Overridden(style, k)
          ensures (k in r <==> k in style) && (k in r ==> r[k] == style[k])
        {
          assert (k in withBackground <==> k in style) && (k in withBackground ==> withBackground[k] == style[k]);
          assert (k in withBorder <==> k in style) && (k in withBorder ==> withBorder[k] == style[k]);
          assert (k in withColor <==> k in style) && (k in withColor ==> withColor[k] == style[k]);
        }
      }
      r
  }

  /** Resolving twice changes nothing: no override key survives the first
      resolution, so the second, in either mode, has nothing to write or drop. */
  lemma {:induction false} ResolveIdempotent(style: Props, mode: Scheme, again: Scheme)
    ensures Resolve(Resolve(style, mode), again) == Resolve(style, mode)
  {
    var r := Resolve(style, mode);
    var rr := Resolve(r, again);
    forall k | k in BaseKeys ensures !Overridden(r, k) {
      assert OverrideOf(k) !in r;
    }
    forall k ensures (k in rr <==> k in r) && (k in rr ==> rr[k] == r[k]) {
      if k in OverrideKeys {
        assert k !in r && k !in rr;
      }
    }
    assert rr.Keys == r.Keys;
  }

  /** A style with background and text overrides, `{backgroundColor:
      '#fff', backgroundDark: '#000', color: '#000', colorDark: '#fff'}`,
      keeps its base colours in light and takes the overrides in dark. */
  lemma ResolveExample()
    ensures var s := map["backgroundColor" := Str("#fff"), "backgroundDark" := Str("#000"),
                         "color" := Str("#000"), "colorDark" := Str("#fff")];
      && Resolve(s, Light) == map["backgroundColor" := Str("#fff"), "color" := Str("#000")]
      && Resolve(s, Dark) == map["backgroundColor" := Str("#000"), "color" := Str("#fff")]
  {
    var s := map["backgroundColor" := Str("#fff"), "backgroundDark" := Str("#000"),
                 "color" := Str("#000"), "colorDark" := Str("#fff")];
    var light := map["backgroundColor" := Str("#fff"), "color" := Str("#000")];
    var dark := map["backgroundColor" := Str("#000"), "color" := Str("#fff")];
    assert Resolve(s, Light).Keys == light.Keys;
    assert Resolve(s, Dark).Keys == dark.Keys;
  }
}
