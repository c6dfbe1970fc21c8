/** JavaScript values as the form, the prompts and the resolvers see them. */
module Js {

  /** An argument value. `Undefined` stands for a key that is present with the
      value `undefined`, which `Object.keys` still lists. Numbers are integers:
      floating point (and NaN) is not part of this model. */
  datatype Value = Undefined | Null | Bool(b: bool) | Num(n: int) | Str(s: string)

  /** A plain object of argument values, keyed by argument name. */
  type Object = map<string, Value>

  /** JavaScript truthiness: `undefined`, `null`, `false`, `0` and `""` are falsy. */
  predicate Truthy(v: Value)
  {
    match v
    case Undefined => false
    case Null => false
    case Bool(b) => b
    case Num(n) => n != 0
    case Str(s) => s != ""
  }

  /** Property access `o[k]`: a missing key reads as `undefined`. */
  function Get(o: Object, k: string): (v: Value)
    ensures k !in o ==> v == Undefined
    ensures k in o ==> v == o[k]
  {
    if k in o then o[k] else Undefined
  }

}
