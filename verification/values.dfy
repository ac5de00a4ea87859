/** JavaScript values as the theme code sees them: style properties, palette
    entries, configuration fields, and the few operators it applies to them
    (truthiness, property reads, the `in` operator, `Object.keys`). */
module JsValues {

  datatype Option<+T> = None | Some(value: T)

  /** The errors the theme code raises, thrown or implied by the JS runtime. */
  datatype Error =
    | TypeError                               // property read on undefined/null, `in` on a primitive
    | InvalidThemeInput                       // a style with no dark override key
    | InvalidEnumValue                        // a value the mode enumeration does not admit
    | ColorsNotObject                         // config.colors missing, primitive or an array
    | LightColorsMissing                      // config.colors.light missing
    | DarkKeysNotInLight(keys: set<string>)   // dark palette keys absent from light
    | LightAndDarkRequired                    // newer API: both palettes are mandatory

  datatype Result<+T> = Ok(value: T) | Err(error: Error)

  datatype Outcome = Pass | Fail(error: Error)

  /** A JS value. Numbers are integers here (NaN apart); `DynamicToken` is the
      opaque colour object that DynamicColorIOS builds from a light and a dark
      colour. */
  datatype Value =
    | Undefined
    | Null
    | Bool(b: bool)
    | Num(n: int)
    | NaN
    | Str(s: string)
    | Arr(items: seq<Value>)
    | Obj(fields: map<string, Value>)
    | DynamicToken(light: Value, dark: Value)

  /** A style, a colour palette, a theme or a config object, as its own
      enumerable properties. */
  type Props = map<string, Value>

  /** JS truthiness: `undefined`, `null`, `false`, `0`, `NaN` and `''` are falsy. */
  predicate Truthy(v: Value)
  {
    match v
    case Undefined => false
    case Null => false
    case NaN => false
    case Bool(b) => b
    case Num(n) => n != 0
    case Str(s) => s != ""
    case _ => true
  }

  /** `typeof v === 'object'` (which holds of null too). */
  predicate IsObjectType(v: Value)
  {
    v.Null? || v.Arr? || v.Obj? || v.DynamicToken?
  }

  /** `m[k]` on a plain object: `undefined` when the key is absent. */
  function Lookup(m: Props, k: string): (r: Value)
    ensures k !in m ==> r == Undefined
    ensures k in m ==> r == m[k]
  {
    if k in m then m[k] else Undefined
  }

  /** The properties of a value as a plain object; anything but a plain
      object contributes none. */
  function Fields(v: Value): Props
  {
    if v.Obj? then v.fields else map[]
  }

  /** `Object.keys(v)`. */
  function OwnKeys(v: Value): set<string>
  {
    Fields(v).Keys
  }

  /** The named property of a value, read through the few names the theme
      code uses (`colors`, `light`, `dark`, `dynamic`, palette keys). A
      DynamicColorIOS token carries `dynamic: {light, dark}`. */
  function Get(v: Value, k: string): Value
  {
    match v
    case Obj(f) => Lookup(f, k)
    case DynamicToken(l, d) =>
      if k == "dynamic" then Obj(map["light" := l, "dark" := d]) else Undefined
    case _ => Undefined
  }

  /** `v.k`: throws a TypeError on undefined and null. */
  function Prop(v: Value, k: string): (r: Result<Value>)
    ensures r.Err? <==> v.Undefined? || v.Null?
    ensures r.Ok? ==> r.value == Get(v, k)
  {
    if v.Undefined? || v.Null? then Err(TypeError) else Ok(Get(v, k))
  }

  /** `k in v` for a property name that is neither an index nor `length`:
      throws a TypeError unless `v` is a non-null object. */
  function HasProperty(v: Value, k: string): (r: Result<bool>)
    ensures r.Err? <==> !IsObjectType(v) || v.Null?
    ensures r == Ok(true) ==> v.Obj? || v.DynamicToken?
  {
    match v
    case Obj(f) => Ok(k in f)
    case DynamicToken(_, _) => Ok(k == "dynamic")
    case Arr(_) => Ok(false)
    case _ => Err(TypeError)
  }
}
