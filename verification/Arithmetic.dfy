/** The arithmetic the pipelines compute in. Every equality of a tiled and a naive pipeline is proved for
    all values of this record: IEEE single precision, with whatever rounding and libm, is one of them. */
module Arithmetic {

  datatype Arith<!P> = Arith(
    add: (P, P) -> P,
    sub: (P, P) -> P,
    mul: (P, P) -> P,
    div: (P, P) -> P,
    neg: P -> P,
    abs: P -> P,
    exp: P -> P,
    less: (P, P) -> bool,
    lit: real -> P,     // a float constant of the source
    ofInt: int -> P,    // (float) n
    toInt: P -> int)    // (int) x

  /** C truncation toward zero */
  function Truncate(x: real): int {
    if x < 0.0 then -(-x).Floor else x.Floor
  }

  /** The reals, for the theorems about what the pipelines compute when rounding is left out; any function
      may stand for exp. */
  function Reals(exp: real -> real): Arith<real> {
    Arith((x, y) => x + y, (x, y) => x - y, (x, y) => x * y, (x, y) => if y == 0.0 then 0.0 else x / y,
          x => -x, x => if x < 0.0 then -x else x, exp, (x, y) => x < y,
          x => x, n => n as real, x => Truncate(x))
  }
}
