/**
 * JavaScript values as the price proxy sees them after `response.json()`:
 * JSON values, numbers as IEEE 754 binary64 bit patterns, and the two
 * JavaScript checks the handler applies (truthiness and `typeof … === 'number'`).
 */
module JsValues {
  import opened Wrappers

  /**
   * A JavaScript number. Prices are only copied, never computed with, so a number
   * is kept as its 64-bit pattern; NaN, infinities and negative values are all
   * admitted, as `typeof` admits them.
   */
  datatype Number = Binary64(bits: bv64) {

    /** +0 or -0. */
    predicate IsZero() {
      bits & 0x7FFF_FFFF_FFFF_FFFF == 0
    }

    /** -0: only the sign bit set. */
    predicate IsNegativeZero() {
      bits == 0x8000_0000_0000_0000
    }

    /** Exponent all ones and a non-zero fraction. */
    predicate IsNaN() {
      bits & 0x7FF0_0000_0000_0000 == 0x7FF0_0000_0000_0000 && bits & 0x000F_FFFF_FFFF_FFFF != 0
    }

    /** Neither NaN nor an infinity: the exponent is not all ones. */
    predicate IsFinite() {
      bits & 0x7FF0_0000_0000_0000 != 0x7FF0_0000_0000_0000
    }

    /** `this === other`: NaN equals nothing, and +0 equals -0. */
    predicate StrictEquals(other: Number) {
      !IsNaN() && !other.IsNaN() && (this == other || (IsZero() && other.IsZero()))
    }
  }

  /** A parsed JSON value; an object is a map from member names to values. */
  datatype Json =
    | JNull
    | JBool(b: bool)
    | JNumber(n: Number)
    | JString(s: string)
    | JArray(items: seq<Json>)
    | JObject(members: map<string, Json>)

  /**
   * JavaScript truthiness of a value, where `None` stands for `undefined`:
   * `undefined`, `null`, `false`, `±0`, `NaN` and `""` are falsy.
   */
  predicate Truthy(v: Option<Json>)
  {
    match v
    case None => false
    case Some(JNull) => false
    case Some(JBool(b)) => b
    case Some(JNumber(n)) => !n.IsZero() && !n.IsNaN()
    case Some(JString(s)) => s != ""
    case Some(JArray(_)) => true
    case Some(JObject(_)) => true
  }

  /** `typeof v === 'number'`. */
  predicate IsNumber(v: Option<Json>)
  {
    v.Some? && v.value.JNumber?
  }
}
