/** The four dark override keys, the base properties they write to, and the
    `isThemedStyle` guard (src/helper/themedStyle.ts). */
module ThemedStyle {
  import opened JsValues

  const OverrideKeys: set<string> := {"backgroundDark", "borderDark", "colorDark", "tintColorDark"}
  const BaseKeys: set<string> := {"backgroundColor", "borderColor", "color", "tintColor"}

  /** The dark override key paired with a base colour property. */
  function OverrideOf(base: string): (k: string)
    requires base in BaseKeys
    ensures k in OverrideKeys
  {
    if base == "backgroundColor" then "backgroundDark"
    else if base == "borderColor" then "borderDark"
    else if base == "color" then "colorDark"
    else "tintColorDark"
  }

  lemma OverrideKeysAreNotBaseKeys()
    ensures OverrideKeys !! BaseKeys
  {
  }

  /** A style is themed when it has one of the four override keys as an own
      property, whatever that property holds. */
  function IsThemedStyle(style: Props): (r: bool)
    ensures r <==> exists k :: k in OverrideKeys && k in style
  {
    if "colorDark" in style || "backgroundDark" in style
       || "borderDark" in style || "tintColorDark" in style
    then
      true
    else
      assert forall k :: k in OverrideKeys ==> k !in style;
      false
  }

  /** Presence decides, not value: an override key holding `undefined` or
      any falsy value still makes the style themed. */
  lemma PresenceMakesThemed(style: Props, k: string, v: Value)
    requires k in OverrideKeys
    ensures IsThemedStyle(style[k := v])
  {
  }

  /** Other keys never make a style themed. */
  lemma OtherKeysDoNotMakeThemed(style: Props)
    requires style.Keys !! OverrideKeys
    ensures !IsThemedStyle(style)
  {
  }

  /** The guard looks at the key set only. */
  lemma ThemedDependsOnKeysOnly(s1: Props, s2: Props)
    requires s1.Keys == s2.Keys
    ensures IsThemedStyle(s1) == IsThemedStyle(s2)
  {
  }
}
