/**
 * The JSON values a request field of the relay can hold, and JavaScript's
 * notion of truthiness, which decides the relay's request validation.
 */
module JsValues {

  /** A field of a parsed JSON body or query string. Numbers are integers here. */
  datatype JsValue =
    | Undefined          // the field is absent
    | Null
    | Bool(b: bool)
    | Number(n: int)
    | Str(s: string)
    | Object             // any non-array object: always truthy

  /** JavaScript truthiness: `!v` is true exactly for the falsy values. */
  predicate Truthy(v: JsValue)
  {
    match v
    case Undefined => false
    case Null => false
    case Bool(b) => b
    case Number(n) => n != 0
    case Str(s) => s != ""
    case Object => true
  }

  /** The falsy values are exactly undefined, null, false, 0 and the empty string. */
  lemma FalsyValues(v: JsValue)
    ensures !Truthy(v) <==> v in {Undefined, Null, Bool(false), Number(0), Str("")}
  {
  }
}
