/** The arithmetic shared by the components, on exact reals standing for
    JavaScript numbers: `clamp`, `lerp` and `Math.round`. */
module Numeric {

  function Min(a: real, b: real): real { if a <= b then a else b }

  function Max(a: real, b: real): real { if a <= b then b else a }

  /** `Math.min(b, Math.max(a, n))`. When the bounds are crossed (a > b) the
      upper bound wins, as the order of the two calls dictates. */
  function Clamp(n: real, a: real, b: real): (r: real)
    ensures a <= b ==> a <= r <= b
    ensures a <= n <= b ==> r == n
    ensures a <= b && n < a ==> r == a
    ensures n > b ==> r == b
    ensures b < a ==> r == b
  {
    Min(b, Max(a, n))
  }

  /** Clamping twice is clamping once. */
  lemma ClampIdempotent(n: real, a: real, b: real)
    requires a <= b
    ensures Clamp(Clamp(n, a, b), a, b) == Clamp(n, a, b)
  {
  }

  /** `Clamp` is monotone in the clamped value. */
  lemma ClampMonotone(n1: real, n2: real, a: real, b: real)
    requires n1 <= n2
    ensures Clamp(n1, a, b) <= Clamp(n2, a, b)
  {
  }

  /** `a + (b - a) * t`. */
  function Lerp(a: real, b: real, t: real): (r: real)
    ensures t == 0.0 ==> r == a
    ensures t == 1.0 ==> r == b
  {
    a + (b - a) * t
  }

  /** For t in [0, 1] the interpolant lies between the two end points. */
  lemma LerpBetween(a: real, b: real, t: real)
    requires 0.0 <= t <= 1.0
    ensures Min(a, b) <= Lerp(a, b, t) <= Max(a, b)
  {
    if a <= b {
      MulBetween(t, b - a);
    } else {
      MulBetween(t, a - b);
      assert (b - a) * t == -((a - b) * t);
    }
  }

  /** A fraction of a non-negative quantity lies between zero and the quantity. */
  lemma MulBetween(k: real, h: real)
    requires 0.0 <= k <= 1.0 && 0.0 <= h
    ensures 0.0 <= k * h <= h
  {
    assert (1.0 - k) * h >= 0.0;
  }

  /** What a fraction of `h` is, at the ends and in between. */
  lemma FractionOf(k: real, h: real)
    ensures 0.0 <= k <= 1.0 && 0.0 <= h ==> 0.0 <= k * h <= h
    ensures k == 0.0 ==> k * h == 0.0
    ensures k == 1.0 ==> k * h == h
  {
    if 0.0 <= k <= 1.0 && 0.0 <= h {
      MulBetween(k, h);
    }
  }

  /** `Math.round`: the nearest integer, halves rounded up (towards +infinity). */
  function Round(x: real): (r: int)
    ensures r as real - 0.5 <= x < r as real + 0.5
  {
    (x + 0.5).Floor
  }

  /** Rounding a number that lies between two integers stays between them. */
  lemma RoundBetween(x: real, lo: int, hi: int)
    requires lo as real <= x <= hi as real
    ensures lo <= Round(x) <= hi
  {
  }

  /** Rounding an integer gives it back. */
  lemma RoundInt(k: int)
    ensures Round(k as real) == k
  {
  }
}
