/**
 * The few pieces of JavaScript's Math object that the site relies on.
 * Math.random() is never called here: every random draw is a parameter
 * `r` that the caller promises lies in [0, 1), as Math.random's do.
 */
module JsMath {

  /** What Math.random() can return. */
  predicate IsDraw(r: real) {
    0.0 <= r < 1.0
  }

  /** Math.round: round half up (towards positive infinity). */
  function Round(x: real): (n: int)
    ensures n as real - 0.5 <= x < n as real + 0.5
  {
    (x + 0.5).Floor
  }

  /** Math.round(Math.random() * k): an integer in [0, k]. */
  function RandomUpTo(r: real, k: nat): (n: int)
    requires IsDraw(r)
    ensures 0 <= n <= k
  {
    ScaledDrawBounds(r, k);
    Round(r * k as real)
  }

  /** Math.floor(Math.random() * n): an index into a list of length n. */
  function RandomIndex(r: real, n: nat): (i: nat)
    requires IsDraw(r) && n > 0
    ensures i < n
  {
    ScaledDrawBounds(r, n);
    (r * n as real).Floor
  }

  /** Math.round(Math.random() * 360): a whole number of degrees in [0, 360]. */
  function RandomRotation(r: real): (deg: int)
    requires IsDraw(r)
    ensures 0 <= deg <= 360
  {
    RandomUpTo(r, 360)
  }

  /** A draw scaled by k stays in [0, k], and below k when k is positive. */
  lemma ScaledDrawBounds(r: real, k: nat)
    requires IsDraw(r)
    ensures 0.0 <= r * k as real <= k as real
    ensures k > 0 ==> r * k as real < k as real
  {
    var kr := k as real;
    assert 0.0 <= r * kr;
    assert kr - r * kr == (1.0 - r) * kr;
    assert 0.0 <= (1.0 - r) * kr;
    if k > 0 {
      assert 0.0 < (1.0 - r) * kr;
    }
  }
}
