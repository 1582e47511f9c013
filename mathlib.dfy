/**
 * The C math library (sqrtf, sinf, cosf, tanf, atan2) that the renderer calls.
 * Its code is not part of this model, so the functions are a parameter: a record
 * of total functions on reals, of which only the facts in `Valid` are assumed.
 */
module MathLib {

  datatype Libm = Libm(
    sqrt: real -> real,
    sin: real -> real,
    cos: real -> real,
    tan: real -> real,
    atan2: (real, real) -> real)
  {
    /** The only facts the model relies on: sqrt is the non-negative square root
        on non-negative arguments, cos 0 = 1, sin 0 = 0, and sin^2 + cos^2 = 1. */
    ghost predicate Valid() {
      && (forall v: real :: 0.0 <= v ==> 0.0 <= sqrt(v) && sqrt(v) * sqrt(v) == v)
      && cos(0.0) == 1.0
      && sin(0.0) == 0.0
      && (forall t: real :: sin(t) * sin(t) + cos(t) * cos(t) == 1.0)
    }
  }
}
