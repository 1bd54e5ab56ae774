// Numeric helpers of the game (utils/helpers.js). JavaScript numbers are
// modelled as reals; NaN and infinities are not part of the model.
module Helpers {

  /** Math.max on two numbers. */
  function Max(a: real, b: real): real { if a >= b then a else b }

  /** Math.min on two numbers. */
  function Min(a: real, b: real): real { if a <= b then a else b }

  /** clamp(v, min, max) = Math.max(min, Math.min(max, v)). The bounds are not
      checked: when lo > hi the outer maximum makes lo win. */
  function Clamp(v: real, lo: real, hi: real): (r: real)
    ensures lo <= hi ==> lo <= r <= hi
    ensures lo <= v <= hi ==> r == v
    ensures v < lo ==> r == lo
    ensures lo <= hi && hi < v ==> r == hi
    ensures hi < lo ==> r == lo
  {
    Max(lo, Min(hi, v))
  }

  /** Clamping an already clamped value changes nothing, for every pair of bounds. */
  lemma ClampIdempotent(v: real, lo: real, hi: real)
    ensures Clamp(Clamp(v, lo, hi), lo, hi) == Clamp(v, lo, hi)
  {
  }

  /** Clamp only ever answers the value itself or one of the two bounds. */
  lemma ClampIsOneOf(v: real, lo: real, hi: real)
    ensures var r := Clamp(v, lo, hi); r == v || r == lo || r == hi
  {
  }
}
