/** Sums and products of reals. */
module Reals {
  function Sum(s: seq<real>): real {
    if s == [] then 0.0 else s[0] + Sum(s[1..])
  }

  lemma LargerProduct(u: real, v: real, t: real)
    requires u < v && t > 0.0
    ensures u * t < v * t
  {
    assert (v - u) * t > 0.0;
  }
}
