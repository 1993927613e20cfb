/** The handful of JavaScript value semantics the request gates depend on:
    what `Number(...)` can produce, how a number or a form field behaves under
    `!` (truthiness), and how `n < 0` behaves on the special numbers. */
module Js {

  datatype Option<+T> = None | Some(value: T)

  /** A value as JavaScript's `Number(...)` returns it. Arithmetic is exact
      (`real`) instead of IEEE doubles; `-0` is `Finite(0.0)`, which behaves
      like `0` under both `!` and `< 0`. */
  datatype Number = NaN | Finite(value: real) | Infinity(negative: bool)

  /** A form field after `express.urlencoded({ extended: true })`: absent
      (`undefined`), a string, or a nested array/object. */
  datatype Field = Undefined | Text(s: string) | Nested

  /** `!!n`: false exactly for `NaN`, `0` and `-0`. */
  predicate NumberTruthy(n: Number) {
    match n
    case NaN => false
    case Finite(r) => r != 0.0
    case Infinity(_) => true
  }

  /** `n < 0`: every comparison with `NaN` is false. */
  predicate LessThanZero(n: Number) {
    match n
    case NaN => false
    case Finite(r) => r < 0.0
    case Infinity(negative) => negative
  }

  /** The number is strictly greater than zero (`+Infinity` included). */
  predicate GreaterThanZero(n: Number) {
    (n.Finite? && n.value > 0.0) || n == Infinity(false)
  }

  /** `!!f` for a form field: `undefined` and `""` are falsy, every other
      string and every array or object is truthy. */
  predicate FieldTruthy(f: Field) {
    match f
    case Undefined => false
    case Text(s) => s != ""
    case Nested => true
  }

  /** `!!v` for a value that is either `undefined` or a string. */
  predicate StringTruthy(v: Option<string>) {
    v.Some? && v.value != ""
  }

  /** Passing the two number checks in the order the validators run them
      (`!n` first, then `n < 0`) is the same as being greater than zero. */
  lemma PassesNumberChecksIffPositive(n: Number)
    ensures NumberTruthy(n) && !LessThanZero(n) <==> GreaterThanZero(n)
    ensures LessThanZero(n) ==> NumberTruthy(n)
  {
  }
}
