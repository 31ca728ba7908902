/**
 * The JavaScript values that the device lister reads from capability objects:
 * primitives compared by value, objects by identity, and the truthiness test
 * that `if (x)` and `!x` apply. Numbers are integers or NaN.
 */
module JsValues {

  datatype Value =
    | Undefined
    | Null
    | Bool(b: bool)
    | Num(n: int)
    | NaN
    | Str(s: string)
    | Obj(id: nat)

  /** A plain object: its own enumerable properties. */
  type Object = map<string, Value>

  /** Property access `o[name]`: undefined when the property is absent. */
  function Get(o: Object, name: string): Value {
    if name in o then o[name] else Undefined
  }

  /** ToBoolean: false exactly for undefined, null, false, 0, NaN and the empty string. */
  predicate Truthy(v: Value): (t: bool)
    ensures !t <==> v in {Undefined, Null, Bool(false), Num(0), NaN, Str("")}
  {
    match v
    case Undefined => false
    case Null => false
    case Bool(b) => b
    case Num(n) => n != 0
    case NaN => false
    case Str(s) => s != ""
    case Obj(_) => true
  }
}
