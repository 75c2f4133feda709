/**
  JavaScript values as the token handler and the lead-source module see them:
  plain data built from null, booleans, numbers, strings, arrays and objects.
  An object's own properties are a map from property name to value; a property
  that is absent reads as `undefined`.
 */
module Js {

  datatype Option<+T> = None | Some(value: T)

  datatype Result<+R, +E> = Success(value: R) | Failure(error: E)

  /** A JavaScript value. Numbers are kept to integers (see README). */
  datatype Value =
    | Null
    | Bool(b: bool)
    | Num(n: int)
    | Str(s: string)
    | Arr(items: seq<Value>)
    | Obj(props: Object)

  /** The own enumerable properties of a plain object. */
  type Object = map<string, Value>

  /** JavaScript truthiness: null, false, 0 and "" are falsy, everything else is truthy. */
  predicate Truthy(v: Value) {
    match v
    case Null => false
    case Bool(b) => b
    case Num(n) => n != 0
    case Str(s) => s != ""
    case Arr(_) => true
    case Obj(_) => true
  }

  /** `o[k]` is truthy; an absent property reads as `undefined`, which is falsy. */
  predicate TruthyAt(o: Object, k: string) {
    k in o && Truthy(o[k])
  }

  /** A nullable string as a JavaScript value. */
  function NullableString(x: Option<string>): (v: Value)
    ensures x.None? <==> v == Null
    ensures x.Some? ==> v == Str(x.value)
  {
    match x
    case None => Null
    case Some(s) => Str(s)
  }

  /**
    An object that is updated in place through a reference, as the `data`
    argument of the handler's method-resolution steps is.
   */
  class DataObject {
    var props: Object

    constructor (props: Object)
      ensures this.props == props
    {
      this.props := props;
    }
  }
}
