/**
 * Exact powers of two and the numeric routines the pipeline borrows from `math`, `numpy`,
 * `statistics` and `datetime`. Those routines are floating-point library code, so they are
 * parameters of the model, with only the properties the pipeline relies on assumed of them.
 */
module Numerics {
  import opened Wrappers

  function Min(a: real, b: real): (r: real)
    ensures r <= a && r <= b && (r == a || r == b)
  {
    if a <= b then a else b
  }

  function Max(a: real, b: real): (r: real)
    ensures r >= a && r >= b && (r == a || r == b)
  {
    if a >= b then a else b
  }

  /** The reciprocal of a positive number is positive. */
  lemma ReciprocalPositive(x: real)
    requires x > 0.0
    ensures 1.0 / x > 0.0
  {
    assert (1.0 / x) * x == 1.0;
  }

  /** `float(2 ** k)` for an integer `k`, exact: `2 ** -3` is 0.125. */
  function Pow2(k: int): (r: real)
    ensures r > 0.0
    decreases if k >= 0 then k else -k
  {
    if k == 0 then 1.0
    else if k > 0 then 2.0 * Pow2(k - 1)
    else Pow2(k + 1) / 2.0
  }

  /** Each step up the exponent doubles the power. */
  lemma Pow2Step(k: int)
    ensures Pow2(k + 1) == 2.0 * Pow2(k)
  {
    if k < 0 {
      assert Pow2(k) == Pow2(k + 1) / 2.0;
    }
  }

  /** Powers of two are strictly increasing in the exponent. */
  lemma {:induction false} Pow2Increasing(a: int, b: int)
    requires a < b
    ensures Pow2(a) < Pow2(b)
    decreases b - a
  {
    Pow2Step(a);
    if a + 1 < b {
      Pow2Increasing(a + 1, b);
    }
  }

  /**
   * The foreign routines:
   * - `binOf(m)` is `int(round(math.log2(max(m, 1e-6))))`, the duration bin of `m` minutes;
   * - `exp2(x)` is `2 ** x` for a fractional exponent `x`;
   * - `log2(x)` is `math.log2(x)`;
   * - `polyfitSlope(xs, ys)` is `np.polyfit(xs, ys, 1)[0]`, the least-squares slope;
   * - `quantile(xs, q)` is `np.quantile(xs, q)`, and `median(xs)` is `statistics.median(xs)`;
   * - `parseDate(s)` is the day number of the date `s` (the two `datetime` parsers tried in
   *   turn), or `None` when neither accepts it.
   */
  datatype Routines = Routines(
    binOf: real -> int,
    exp2: real -> real,
    log2: real -> real,
    polyfitSlope: (seq<real>, seq<real>) -> real,
    quantile: (seq<real>, real) -> real,
    median: seq<real> -> real,
    parseDate: string -> Option<int>)

  /** What the model assumes of `2 ** x`: positive, strictly increasing, exact on integers. */
  ghost predicate ValidExp2(exp2: real -> real)
  {
    && (forall x :: exp2(x) > 0.0)
    && (forall x, y :: x < y ==> exp2(x) < exp2(y))
    && (forall k: int :: exp2(k as real) == Pow2(k))
  }
}
