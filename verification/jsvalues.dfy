/**
 * The run-time values that flow through the purifier's property records and
 * state record. The plugin is untyped at these points (`any`), so a field that
 * TypeScript declares `boolean` can end up holding `undefined`.
 */
module JsValues {

  /** The values this model follows: JavaScript numbers are taken to be integers. */
  datatype JsValue = Undefined | Null | Bool(b: bool) | Num(n: int)

  /**
   * JavaScript's loose comparison `v == true`. The boolean operand is first
   * converted to the number 1, so `1 == true` holds, while `undefined` and
   * `null` equal only each other.
   */
  predicate LooselyEqualsTrue(v: JsValue)
  {
    match v
    case Bool(b) => b
    case Num(n) => n == 1
    case Undefined => false
    case Null => false
  }

  /** JavaScript's strict comparison `v === k` against a number `k`. */
  predicate StrictlyEqualsNum(v: JsValue, k: int)
  {
    v == Num(k)
  }
}
