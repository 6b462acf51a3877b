/** Values the browser code computes with: optional values and JavaScript numbers.
    A JavaScript number is modelled as a real, or as NaN; the comparison operators
    of JavaScript are false whenever one side is NaN. */
module JsValues {

  datatype Option<+T> = None | Some(value: T)

  /** A JavaScript number: `Some(x)` for a finite value, `None` for NaN. */
  type JsNumber = Option<real>

  /** `n > 0` in JavaScript. */
  predicate Positive(n: JsNumber) {
    n.Some? && n.value > 0.0
  }

  /** `n <= bound` in JavaScript: false when `n` is NaN. */
  predicate AtMost(n: JsNumber, bound: real) {
    n.Some? && n.value <= bound
  }

  /** `n > m` in JavaScript: false when either side is NaN. */
  predicate Exceeds(n: JsNumber, m: JsNumber) {
    n.Some? && m.Some? && n.value > m.value
  }
}
