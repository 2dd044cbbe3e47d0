/** The parts of JavaScript's Math object that the reward engine relies on,
    over exact reals: Math.max on two numbers, Math.round, and the
    round-to-cents idiom Math.round(x * 100) / 100. */
module JsMath {

  /** Math.max(a, b) for ordinary (non-NaN) numbers. */
  function Max(a: real, b: real): (m: real)
    ensures m >= a && m >= b
    ensures m == a || m == b
  {
    if a >= b then a else b
  }

  /** Math.round: the integer nearest to x, where a tie (a fraction of
      exactly one half) goes toward +infinity. */
  function Round(x: real): (n: int)
    ensures x - 0.5 < n as real <= x + 0.5
  {
    (x + 0.5).Floor
  }

  /** True when x is a whole number of cents. */
  predicate IsCents(x: real) {
    (x * 100.0).Floor as real == x * 100.0
  }

  /** Math.round(x * 100) / 100: x rounded to the nearest cent, ties up. */
  function Round2(x: real): (r: real)
    ensures IsCents(r)
    ensures x - 0.005 < r <= x + 0.005
  {
    Round(x * 100.0) as real / 100.0
  }

  /** Rounding to cents never reverses the order of two numbers. */
  lemma Round2Monotone(x: real, y: real)
    requires x <= y
    ensures Round2(x) <= Round2(y)
  {
    var a, b := x * 100.0 + 0.5, y * 100.0 + 0.5;
    assert a.Floor as real <= a <= b < b.Floor as real + 1.0;
    assert Round(x * 100.0) <= Round(y * 100.0);
  }

  /** A whole number of cents is left as it is. */
  lemma Round2OfCents(x: real)
    requires IsCents(x)
    ensures Round2(x) == x
  {
    var n := (x * 100.0).Floor;
    assert (x * 100.0 + 0.5).Floor == n;
  }

  /** Rounding to cents keeps a number inside any interval whose ends are
      whole numbers of cents. */
  lemma Round2Within(lo: real, x: real, hi: real)
    requires IsCents(lo) && IsCents(hi)
    requires lo <= x <= hi
    ensures lo <= Round2(x) <= hi
  {
    Round2Monotone(lo, x);
    Round2Monotone(x, hi);
    Round2OfCents(lo);
    Round2OfCents(hi);
  }

  /** Rounding a non-negative number to cents gives a non-negative number. */
  lemma Round2NonNegative(x: real)
    requires x >= 0.0
    ensures Round2(x) >= 0.0
  {
    Round2Monotone(0.0, x);
    Round2OfCents(0.0);
  }
}
