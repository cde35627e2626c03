/** The JavaScript values the expense endpoint reads from a parsed request
    body, and the two ways the code tests them: truthiness (`!x`) and
    nullishness (`x === undefined || x === null`). */
module JsValues {

  /** A property value of the parsed request body. */
  datatype Value =
    | Undefined                  // the property is absent
    | Null
    | Bool(b: bool)
    | Num(x: real)               // a finite number, as JSON delivers it
    | Str(s: string)
    | Compound(text: string)     // an array or an object, with what String() makes of it

  /** The request body after `request.body || {}`: its own properties.
      An absent body, or one that is not an object, reads as the empty map. */
  type Payload = map<string, Value>

  /** Property access: a missing property reads as `undefined`. */
  function Get(body: Payload, key: string): Value {
    if key in body then body[key] else Undefined
  }

  /** `x === undefined || x === null` */
  predicate Nullish(v: Value) {
    v.Undefined? || v.Null?
  }

  /** JavaScript truthiness: `undefined`, `null`, `false`, `0` and `""` are
      falsy; every other value, including every array and object, is truthy. */
  predicate Truthy(v: Value) {
    match v
    case Undefined => false
    case Null => false
    case Bool(b) => b
    case Num(x) => x != 0.0
    case Str(s) => s != ""
    case Compound(_) => true
  }

  /** An IEEE double as far as the endpoint cares: what `parseFloat` can
      return. Only its sign, NaN-ness and finite value matter here. */
  datatype Number = NaN | Finite(value: real) | PositiveInfinity | NegativeInfinity

  /** `isNaN(n)` */
  predicate IsNaN(n: Number) {
    n.NaN?
  }

  /** `n <= 0`, which is false for NaN as every comparison with NaN is. */
  predicate AtMostZero(n: Number) {
    match n
    case NaN => false
    case Finite(r) => r <= 0.0
    case PositiveInfinity => false
    case NegativeInfinity => true
  }

  /** A number strictly greater than zero (and so not NaN). */
  predicate IsPositive(n: Number) {
    n.PositiveInfinity? || (n.Finite? && n.value > 0.0)
  }

  /** The amount check of the validator rejects exactly the numbers that
      are not positive. */
  lemma RejectedIffNotPositive(n: Number)
    ensures IsNaN(n) || AtMostZero(n) <==> !IsPositive(n)
  {
  }
}
