/** `dynamicColorIOS` (src/helper/dynamicColor.ts): build an iOS dynamic
    colour from a light colour, with a fallback chain, and a dark colour. */
module DynamicColor {
  import opened JsValues

  /** `dynamicColorIOS(color, colorDark, defaultColor)`; an omitted
      `defaultColor` is `Undefined`. No input is refused. */
  function DynamicColorIOS(color: Value, colorDark: Value, defaultColor: Value): (r: Value)
    ensures r.DynamicToken?
    ensures r.dark == colorDark
    ensures Truthy(color) ==> r.light == color
    ensures !Truthy(color) && Truthy(defaultColor) ==> r.light == defaultColor
    ensures !Truthy(color) && !Truthy(defaultColor) ==> r.light == Str("black")
    // the light colour is never falsy
    ensures Truthy(r.light)
  {
    DynamicToken(
      if Truthy(color) then color else if Truthy(defaultColor) then defaultColor else Str("black"),
      colorDark)
  }
}
