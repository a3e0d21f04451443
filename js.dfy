/**
 * JavaScript values as the core sees them: request bodies, decoded token
 * payloads, stored records and broadcast payloads. Numbers are integers
 * (floating point and NaN are not modelled).
 */
module Js {
  import opened Wrappers
  import opened Strings

  datatype JsValue =
    | Undefined
    | Null
    | Bool(b: bool)
    | Num(n: int)
    | Str(s: string)
    | Arr(items: seq<JsValue>)
    | Obj(fields: map<string, JsValue>)

  /** JavaScript truthiness: `undefined`, `null`, `false`, `0` and `""` are falsy. */
  predicate Truthy(v: JsValue)
  {
    match v
    case Undefined => false
    case Null => false
    case Bool(b) => b
    case Num(n) => n != 0
    case Str(s) => s != ""
    case Arr(_) => true
    case Obj(_) => true
  }

  /** `null` or `undefined`, the values whose properties cannot be read. */
  predicate Nullish(v: JsValue)
  {
    v.Undefined? || v.Null?
  }

  /**
   * `v.key` (also the destructuring `const { key } = v`): `None` is the
   * TypeError that reading a property of `null` or `undefined` throws; a
   * missing own property reads as `undefined`.
   */
  function GetProp(v: JsValue, key: string): (r: Option<JsValue>)
    ensures r.None? <==> v.Undefined? || v.Null?
    ensures v.Obj? && key in v.fields ==> r == Some(v.fields[key])
  {
    match v
    case Undefined => None
    case Null => None
    case Obj(f) => Some(if key in f then f[key] else Undefined)
    case _ => Some(Undefined)
  }

  /** `v.key` where `v` is known to be an object (or reads as `undefined`). */
  function Prop(v: JsValue, key: string): JsValue
  {
    if v.Obj? && key in v.fields then v.fields[key] else Undefined
  }

  /** The own properties `{...v}` copies: those of an object, none otherwise. */
  function Spread(v: JsValue): map<string, JsValue>
  {
    if v.Obj? then v.fields else map[]
  }

  /** An object literal with one property. */
  function Single(key: string, v: JsValue): (r: JsValue)
    ensures Prop(r, key) == v
  {
    Obj(map[key := v])
  }

  /** `String(v)` for the values `JSON.parse` can produce, and `undefined`. */
  function ToJsString(v: JsValue): string
  {
    match v
    case Undefined => "undefined"
    case Null => "null"
    case Bool(b) => if b then "true" else "false"
    case Num(n) => IntToString(n)
    case Str(s) => s
    case Arr(items) => ItemsText(items)
    case Obj(_) => "[object Object]"
  }

  /** `String(items)`: the elements joined by commas, `null` and `undefined` as empty. */
  function ItemsText(items: seq<JsValue>): string
  {
    if |items| == 0 then ""
    else
      var first := if items[0].Undefined? || items[0].Null? then "" else ToJsString(items[0]);
      if |items| == 1 then first else first + "," + ItemsText(items[1..])
  }
}
