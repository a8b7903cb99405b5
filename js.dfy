/** JavaScript values as far as the `DynamicImage` component inspects them:
    the result of `typeof`, and the truthiness of the three fields it reads. */
module Js {

  datatype Option<+T> = None | Some(value: T) {
    function GetOr(default: T): (r: T) {
      match this
      case Some(v) => v
      case None => default
    }
  }

  /** The fields of an object passed as an image source that the component
      reads. A field the object does not have (undefined) is None. */
  datatype ImageObject = ImageObject(uri: Option<string>, width: Option<real>, height: Option<real>)

  /** A value of the `source` prop, one constructor per kind that `typeof`
      tells apart. Arrays and other objects are `Object`s whose three fields
      are absent; null is its own constructor, although `typeof` calls it an
      object. */
  datatype JsValue =
    | Undefined
    | Null
    | Boolean(b: bool)
    | Number(n: real)
    | Text(s: string)
    | Object(obj: ImageObject)
    | Function
    | BigInt(i: int)
    | Symbol

  /** The string the `typeof` operator yields. */
  function TypeOf(v: JsValue): (t: string)
    ensures t == "object" <==> v.Null? || v.Object?
    ensures t == "string" <==> v.Text?
    ensures t == "number" <==> v.Number?
  {
    match v
    case Undefined => "undefined"
    case Null => "object"
    case Boolean(_) => "boolean"
    case Number(_) => "number"
    case Text(_) => "string"
    case Object(_) => "object"
    case Function => "function"
    case BigInt(_) => "bigint"
    case Symbol => "symbol"
  }

  /** Truthiness of an optional string field: undefined and "" are falsy. */
  predicate TruthyText(f: Option<string>) {
    f.Some? && f.value != ""
  }

  /** Truthiness of an optional number field: undefined and 0 are falsy. */
  predicate TruthyNumber(f: Option<real>) {
    f.Some? && f.value != 0.0
  }
}
