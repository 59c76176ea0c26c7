/** Decimal rounding over exact reals, standing in for Python's `round(x, n)`.

    `Round(x, n)` is the multiple of 10^-n nearest to `x`, with ties rounded
    up (towards +infinity). Python rounds ties to even on the binary value of
    the float. Being on the grid, being the nearest grid point, monotonicity
    and idempotence hold under either tie rule; the strict lower bound
    `x - HalfStep(n) < Round(x, n)` is particular to rounding ties up, since
    a tie rounded down lands exactly half a step below `x`.

    The proofs work at a scale `p = 10^n` given as a parameter (the `Step`
    lemmas), which keeps each nonlinear fact in a small lemma of its own.
 */
module Rounding {

  /** The number of grid steps of 10^-n in one unit: 10 raised to `n`. */
  function Scale(n: nat): (p: real)
    ensures p >= 1.0
  {
    if n == 0 then 1.0 else 10.0 * Scale(n - 1)
  }

  /** The largest whole number not above `v`. */
  function Floor(v: real): (k: int)
    ensures k as real <= v < k as real + 1.0
  {
    v.Floor
  }

  /** `v` is a whole number. */
  predicate IsWhole(v: real) {
    Floor(v) as real == v
  }

  /** `r` measured in steps of 10^-n. */
  function StepsOf(r: real, n: nat): real {
    r * Scale(n)
  }

  /** `r` is a whole number of steps of 10^-n. */
  predicate OnGrid(r: real, n: nat) {
    IsWhole(StepsOf(r, n))
  }

  /** Half a step of the grid of 10^-n: the largest error `Round` may make. */
  function HalfStep(n: nat): (h: real)
    ensures 0.0 < h <= 0.5
  {
    0.5 / Scale(n)
  }

  /** The multiple of 10^-n nearest to `x`, ties upwards. */
  function Round(x: real, n: nat): (r: real)
    ensures x - HalfStep(n) < r <= x + HalfStep(n)
    ensures x >= 0.0 ==> r >= 0.0
  {
    StepBounds(x, Scale(n));
    RoundToStep(x, Scale(n))
  }

  /** The multiple of 1/p nearest to `x`, ties upwards: `Round` with the
      scale `p = 10^n` given directly. */
  function RoundToStep(x: real, p: real): real
    requires p >= 1.0
  {
    Floor(x * p + 0.5) as real / p
  }

  /** `RoundToStep` spelled out, for proofs that need its value. */
  lemma UnfoldStep(x: real, p: real)
    requires p >= 1.0
    ensures RoundToStep(x, p) == Floor(x * p + 0.5) as real / p
  {
  }

  /** `RoundToStep` is within half a step of its input, and keeps a
      non-negative input non-negative. */
  lemma StepBounds(x: real, p: real)
    requires p >= 1.0
    ensures x - 0.5 / p < RoundToStep(x, p) <= x + 0.5 / p
    ensures x >= 0.0 ==> RoundToStep(x, p) >= 0.0
  {
    var k := Floor(x * p + 0.5);
    UnfoldStep(x, p);
    UnscaledBounds(k, x, p);
  }

  /** From `k <= x*p + 0.5 < k + 1` back to the unscaled bounds on `k / p`. */
  lemma UnscaledBounds(k: int, x: real, p: real)
    requires p >= 1.0
    requires k as real <= x * p + 0.5 < k as real + 1.0
    ensures x - 0.5 / p < k as real / p <= x + 0.5 / p
    ensures x >= 0.0 ==> k as real / p >= 0.0
  {
    var r := k as real / p;
    assert r * p == k as real;
    assert (r - x) * p == k as real - x * p;
    if x >= 0.0 {
      assert k >= 0;
    }
  }

  /** Every rounding is a whole number of grid steps. */
  lemma RoundIsOnGrid(x: real, n: nat)
    ensures OnGrid(Round(x, n), n)
  {
    var k := StepCount(x, Scale(n));
    assert StepsOf(Round(x, n), n) == k as real;
    WholeNumber(StepsOf(Round(x, n), n), k);
  }

  /** The number of steps of 1/p in `RoundToStep(x, p)`. */
  lemma StepCount(x: real, p: real) returns (k: int)
    requires p >= 1.0
    ensures RoundToStep(x, p) * p == k as real
  {
    k := Floor(x * p + 0.5);
    UnfoldStep(x, p);
    DivMulCancel(k, p);
  }

  /** Dividing by `p` and multiplying back returns a whole `k`. */
  lemma DivMulCancel(k: int, p: real)
    requires p >= 1.0
    ensures k as real / p * p == k as real
  {
  }

  /** A real equal to an integer is whole. */
  lemma WholeNumber(v: real, k: int)
    requires v == k as real
    ensures IsWhole(v)
  {
    assert Floor(k as real) == k;
  }

  /** Scaling up by a positive factor keeps order. */
  lemma ScaleMonotone(a: real, b: real, p: real)
    requires p > 0.0 && a <= b
    ensures a * p <= b * p
  {
  }

  /** Dividing two whole numbers by the same positive factor keeps order. */
  lemma QuotientMonotone(i: int, j: int, p: real)
    requires p > 0.0 && i <= j
    ensures i as real / p <= j as real / p
  {
  }

  /** Scaling by a positive factor keeps strict order. */
  lemma ScaleStrict(a: real, b: real, p: real)
    requires p > 0.0 && a < b
    ensures a * p < b * p
  {
  }

  /** `Floor` never reverses order. */
  lemma FloorMonotone(a: real, b: real)
    requires a <= b
    ensures Floor(a) <= Floor(b)
  {
  }

  /** `Round` never moves a larger input below a smaller one. */
  lemma RoundMonotone(x: real, y: real, n: nat)
    requires x <= y
    ensures Round(x, n) <= Round(y, n)
  {
    StepMonotone(x, y, Scale(n));
  }

  /** `RoundMonotone` at the scale `p`. */
  lemma StepMonotone(x: real, y: real, p: real)
    requires p >= 1.0 && x <= y
    ensures RoundToStep(x, p) <= RoundToStep(y, p)
  {
    ScaleMonotone(x, y, p);
    FloorMonotone(x * p + 0.5, y * p + 0.5);
    QuotientMonotone(Floor(x * p + 0.5), Floor(y * p + 0.5), p);
    UnfoldStep(x, p);
    UnfoldStep(y, p);
  }

  /** Any grid point strictly closer than half a step to `x` is `Round(x, n)`:
      the rounding is the nearest grid point. */
  lemma RoundIsNearest(x: real, g: real, n: nat)
    requires OnGrid(g, n)
    requires x - HalfStep(n) < g < x + HalfStep(n)
    ensures Round(x, n) == g
  {
    var k := Floor(StepsOf(g, n));
    StepIsNearest(x, g, Scale(n), k);
  }

  /** `RoundIsNearest` at the scale `p`, for the grid point `g = k / p`. */
  lemma StepIsNearest(x: real, g: real, p: real, k: int)
    requires p >= 1.0 && g * p == k as real
    requires x - 0.5 / p < g < x + 0.5 / p
    ensures RoundToStep(x, p) == g
  {
    UnfoldStep(x, p);
    var h := 0.5 / p;
    assert h * p == 0.5;
    ScaleStrict(g - x, h, p);
    ScaleStrict(x - g, h, p);
    assert Floor(x * p + 0.5) == k;
    assert k as real / p == g;
  }

  /** A value already on the grid is its own rounding. */
  lemma RoundOnGrid(x: real, n: nat)
    requires OnGrid(x, n)
    ensures Round(x, n) == x
  {
    RoundIsNearest(x, x, n);
  }

  /** Rounding twice is rounding once. */
  lemma RoundIdempotent(x: real, n: nat)
    ensures Round(Round(x, n), n) == Round(x, n)
  {
    RoundIsOnGrid(x, n);
    RoundOnGrid(Round(x, n), n);
  }

  /** `Round(x, n)` is `g` when `g` is `k` steps of 10^-n within half a step
      of `x`: how the concrete roundings of the scenarios are computed. */
  lemma RoundsTo(x: real, n: nat, g: real, k: int)
    requires StepsOf(g, n) == k as real
    requires x - HalfStep(n) < g < x + HalfStep(n)
    ensures Round(x, n) == g
  {
    WholeNumber(StepsOf(g, n), k);
    RoundIsNearest(x, g, n);
  }

  /** The number of tenths and hundredths used by the calculator. */
  lemma ScaleValues()
    ensures Scale(1) == 10.0 && Scale(2) == 100.0
    ensures HalfStep(1) == 0.05 && HalfStep(2) == 0.005
  {
    assert Scale(1) == 10.0 * Scale(0);
    assert Scale(2) == 10.0 * Scale(1);
  }
}
