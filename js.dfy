/** JavaScript values as the game's client and its HTTP routes see them:
    parsed JSON request bodies and the untyped (`any`) game data. */
module Js {

  datatype Option<+T> = None | Some(value: T)

  /** A JavaScript value. Numbers are exact reals and no arithmetic is done
      on them here. A JSON body cannot carry NaN; a number too large for a
      double parses to an infinity, which this type does not represent. */
  datatype JsValue =
    | Undefined
    | Null
    | Bool(b: bool)
    | Number(n: real)
    | Str(s: string)
    | Arr(items: seq<JsValue>)
    | Obj(fields: map<string, JsValue>)

  /** JavaScript truthiness: `!v` is `!Truthy(v)`. */
  predicate Truthy(v: JsValue)
  {
    match v
    case Undefined => false
    case Null => false
    case Bool(b) => b
    case Number(n) => n != 0.0
    case Str(s) => s != ""
    case Arr(_) => true
    case Obj(_) => true
  }

  /** Property read `v.key` for the keys this model reads ("name", "score",
      "gameData", "pipesPassed"), none of which exists on a primitive, an
      array or the object prototype. Reading from undefined or null throws in
      JavaScript; callers rule those out first (see Destructurable). */
  function Prop(v: JsValue, key: string): JsValue
  {
    if v.Obj? && key in v.fields then v.fields[key] else Undefined
  }

  /** `const { a, b } = v` throws a TypeError exactly when v is undefined or null. */
  predicate Destructurable(v: JsValue)
  {
    !v.Undefined? && !v.Null?
  }
}
