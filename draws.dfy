/** Injected random draws.
    Every `Math.random()` of the dashboard becomes a `real` parameter that
    the caller draws beforehand; `Math.floor(Math.random() * k)` becomes
    `ScaledFloor(r, k)`. No claim is made about the distribution. */
module Draws {

  /** A value `Math.random()` can return: in [0, 1). */
  predicate IsDraw(r: real) {
    0.0 <= r < 1.0
  }

  /** `Math.floor(r * k)`: an index below `k`, and the floor of `r * k`. */
  function ScaledFloor(r: real, k: nat): (i: nat)
    requires IsDraw(r) && k > 0
    ensures i < k
    ensures i as real <= r * k as real < i as real + 1.0
  {
    ScaledBounds(r, k);
    (r * k as real).Floor
  }

  lemma ScaledBounds(r: real, k: nat)
    requires IsDraw(r) && k > 0
    ensures 0.0 <= r * k as real < k as real
  {
    assert r * k as real <= 1.0 * k as real;
    assert (1.0 - r) * k as real > 0.0;
  }

  /** Smaller of two naturals (JavaScript's clamping in `slice`). */
  function Min(a: nat, b: nat): (m: nat)
    ensures m <= a && m <= b && (m == a || m == b)
  {
    if a <= b then a else b
  }
}
