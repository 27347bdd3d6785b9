/** The two seeded generators of the engines, on exact integer state.
    A draw is represented by the generator's new state: the Park–Miller draw
    is r = (v - 1) / 2147483646 and the LCG draw is r = s / 233280, so
    `Math.floor(r * n)` is an integer division and `r < p` a comparison of
    integers. */
module Random {
  import opened Shared

  // ---------------------------------------------------------------------------
  // Park–Miller "minimal standard" generator:
  //   value = (value * 16807) % 2147483647; return (value - 1) / 2147483646
  // (BlackjackEngine.ts:108-114, RouletteEngine.ts:99-105, SlotsEngine.ts:96-102,
  //  JewelMiningEngine.ts:108-114)
  // ---------------------------------------------------------------------------

  const PM_MULTIPLIER: int := 16807
  const PM_MODULUS: int := 2147483647
  const PM_SPAN: int := 2147483646
  /** The inverse of PM_MULTIPLIER modulo PM_MODULUS: 16807 * 1407677000 == 1 + 11017 * PM_MODULUS. */
  const PM_INVERSE: int := 1407677000

  function LehmerStep(v: int): int {
    JsRem(v * PM_MULTIPLIER, PM_MODULUS)
  }

  /** The state after k calls, starting from the seed. */
  function LehmerAfter(seed: int, k: nat): int
    decreases k
  {
    if k == 0 then seed else LehmerStep(LehmerAfter(seed, k - 1))
  }

  /** `Math.floor(r * n)` for the draw r = (v - 1) / PM_SPAN. */
  function LehmerScale(v: int, n: int): int {
    ((v - 1) * n) / PM_SPAN
  }

  /** A state whose draw lies in [0, 1). */
  predicate Live(v: int) {
    0 < v < PM_MODULUS
  }

  lemma ModShift(a: int, b: int)
    ensures (a * PM_MODULUS + b) % PM_MODULUS == b % PM_MODULUS
  {
  }

  /** x * n <= y * n for 0 <= x <= y and n >= 0. */
  lemma MulMonotone(x: int, y: int, n: int)
    requires 0 <= x <= y && n >= 0
    ensures 0 <= x * n <= y * n
  {
    assert y * n - x * n == (y - x) * n;
  }

  /** Multiplying by the inverse undoes one step: the state before a live
      step is recovered from the state after it. */
  lemma {:induction false} StepInvertible(v: int)
    requires Live(v)
    ensures (LehmerStep(v) * PM_INVERSE) % PM_MODULUS == v
  {
    var p := v * PM_MULTIPLIER;
    var q, r := p / PM_MODULUS, p % PM_MODULUS;
    assert p == q * PM_MODULUS + r;
    assert LehmerStep(v) == r;
    calc {
      (r * PM_INVERSE) % PM_MODULUS;
      { ModShift(-q * PM_INVERSE, p * PM_INVERSE); }
      (p * PM_INVERSE) % PM_MODULUS;
      { assert p * PM_INVERSE == v * (PM_MULTIPLIER * PM_INVERSE);
        assert PM_MULTIPLIER * PM_INVERSE == 11017 * PM_MODULUS + 1;
        assert p * PM_INVERSE == (v * 11017) * PM_MODULUS + v;
        ModShift(v * 11017, v); }
      v % PM_MODULUS;
    }
  }

  /** A live state stays live: the generator never reaches 0 from a live state. */
  lemma {:induction false} LiveStep(v: int)
    requires Live(v)
    ensures Live(LehmerStep(v))
  {
    StepInvertible(v);
  }

  lemma {:induction false} LiveAfter(seed: int, k: nat)
    requires Live(seed)
    ensures Live(LehmerAfter(seed, k))
    decreases k
  {
    if k > 0 {
      LiveAfter(seed, k - 1);
      LiveStep(LehmerAfter(seed, k - 1));
    }
  }

  /** The first state is live exactly for the positive seeds that are not
      multiples of the modulus; every later state is then live too. */
  lemma {:induction false} FirstStateLive(seed: int)
    ensures Live(LehmerStep(seed)) <==> seed > 0 && seed % PM_MODULUS != 0
  {
    if seed > 0 {
      var s := seed % PM_MODULUS;
      ModShift(seed / PM_MODULUS * PM_MULTIPLIER, s * PM_MULTIPLIER);
      assert seed * PM_MULTIPLIER == (seed / PM_MODULUS * PM_MULTIPLIER) * PM_MODULUS + s * PM_MULTIPLIER;
      assert LehmerStep(seed) == LehmerStep(s);
      if s != 0 {
        StepInvertible(s);
      }
    }
  }

  /** A non-positive state stays non-positive. */
  lemma NonPositiveStep(v: int)
    requires v <= 0
    ensures LehmerStep(v) <= 0
  {
  }

  /** Any seed that is a multiple of the modulus is sent to 0 and stays there. */
  lemma {:induction false} MultipleSticksAtZero(seed: int, k: nat)
    requires seed % PM_MODULUS == 0 && k >= 1
    ensures LehmerAfter(seed, k) == 0
    decreases k
  {
    if k == 1 {
      var q := seed / PM_MODULUS;
      assert seed * PM_MULTIPLIER == (q * PM_MULTIPLIER) * PM_MODULUS;
      ModShift(q * PM_MULTIPLIER, 0);
      ModShift(-q * PM_MULTIPLIER, 0);
    } else {
      MultipleSticksAtZero(seed, k - 1);
    }
  }

  /** A live draw scaled by n lies in [0, n). */
  lemma ScaleLive(v: int, n: int)
    requires Live(v) && n > 0
    ensures 0 <= LehmerScale(v, n) < n
  {
    MulMonotone(v - 1, PM_SPAN - 1, n);
    assert (v - 1) * n < PM_SPAN * n;
  }

  /** The draw of state 0 is -1 / PM_SPAN; scaled by any 1 <= n <= PM_SPAN it floors to -1. */
  lemma ScaleZero(n: int)
    requires 1 <= n <= PM_SPAN
    ensures LehmerScale(0, n) == -1
  {
  }

  /** A non-positive state gives a negative draw, so a negative index. */
  lemma ScaleNonPositive(v: int, n: int)
    requires v <= 0 && n > 0
    ensures LehmerScale(v, n) < 0
  {
    assert (v - 1) * n <= -n;
  }

  /** Every state the step gives from a non-positive one lies in (-PM_MODULUS, 0],
      so its draw lies in (-1 - 1 / PM_SPAN, -1 / PM_SPAN] and scales to an index
      in [-n - 1, -1]. */
  lemma ScaleDead(v: int, n: int)
    requires v <= 0 && 1 <= n <= PM_SPAN
    ensures -PM_MODULUS < LehmerStep(v) <= 0
    ensures -n - 1 <= LehmerScale(LehmerStep(v), n) <= -1
  {
    var w := LehmerStep(v);
    NonPositiveStep(v);
    ScaleNonPositive(w, n);
    var x := (w - 1) * n;
    MulMonotone(0, w - 1 + PM_MODULUS, n);
    assert x + PM_MODULUS * n >= 0;
    assert x >= (-n - 1) * PM_SPAN;
    DivLowerBound(x, -n - 1, PM_SPAN);
  }

  /** Euclidean division keeps a lower bound that is a multiple of the divisor. */
  lemma DivLowerBound(x: int, k: int, d: int)
    requires d > 0 && x >= k * d
    ensures x / d >= k
  {
    var q := x / d;
    assert x < (q + 1) * d;
    if q < k {
      MulMonotone(0, k - (q + 1), d);
    }
  }

  /** Any state the step produces scales to an index below n: a live state by
      ScaleLive, any other one to a negative index. */
  lemma ScaleBelow(v: int, n: int)
    requires n > 0
    ensures LehmerScale(LehmerStep(v), n) < n
    ensures !Live(LehmerStep(v)) ==> LehmerScale(LehmerStep(v), n) < 0
  {
    var w := LehmerStep(v);
    if Live(w) {
      ScaleLive(w, n);
    } else {
      ScaleNonPositive(w, n);
    }
  }

  /** The closure returned by `seededRandom(seed)`. */
  class Lehmer {
    var value: int

    constructor (seed: int)
      ensures value == seed
    {
      value := seed;
    }

    /** One call of the closure; the new state v stands for the draw (v - 1) / PM_SPAN. */
    method Next() returns (v: int)
      modifies this
      ensures value == LehmerStep(old(value)) && v == value
    {
      value := JsRem(value * PM_MULTIPLIER, PM_MODULUS);
      v := value;
    }
  }

  // ---------------------------------------------------------------------------
  // Linear congruential generator `class SeededRandom`:
  //   seed = (seed * 9301 + 49297) % 233280; return seed / 233280
  // (PaiGowEngine.ts:41-52, PlinkoEngine.ts:10-21, MathChallengeEngine.ts:36-51)
  // ---------------------------------------------------------------------------

  const LCG_MULTIPLIER: int := 9301
  const LCG_INCREMENT: int := 49297
  const LCG_MODULUS: int := 233280

  function LcgStep(s: int): int {
    JsRem(s * LCG_MULTIPLIER + LCG_INCREMENT, LCG_MODULUS)
  }

  function LcgAfter(seed: int, k: nat): int
    decreases k
  {
    if k == 0 then seed else LcgStep(LcgAfter(seed, k - 1))
  }

  /** `Math.floor(r * n)` for the draw r = s / LCG_MODULUS. */
  function LcgScale(s: int, n: int): int {
    (s * n) / LCG_MODULUS
  }

  /** `nextInt(lo, hi)` once `next()` has moved the state to s. */
  function LcgInt(s: int, lo: int, hi: int): int {
    LcgScale(s, hi - lo + 1) + lo
  }

  /** A state whose draw lies in [0, 1). */
  predicate LcgLive(s: int) {
    0 <= s < LCG_MODULUS
  }

  /** From a non-negative state every later state is live. */
  lemma {:induction false} LcgLiveAfter(seed: int, k: nat)
    requires seed >= 0
    ensures k >= 1 ==> LcgLive(LcgAfter(seed, k))
    ensures LcgAfter(seed, k) >= 0
    decreases k
  {
    if k > 0 {
      LcgLiveAfter(seed, k - 1);
    }
  }

  /** `nextInt(lo, hi)` lies in [lo, hi] for a live state. */
  lemma LcgIntRange(s: int, lo: int, hi: int)
    requires LcgLive(s) && lo <= hi
    ensures lo <= LcgInt(s, lo, hi) <= hi
  {
    var n := hi - lo + 1;
    MulMonotone(s, LCG_MODULUS - 1, n);
    assert s * n < LCG_MODULUS * n;
  }

  /** The step from a state s: a non-negative new state scales to [0, n) and
      steps on to a non-negative state; a negative one scales below 0. Every
      seed from -5 up gives a non-negative first state. */
  lemma LcgScaleBelow(s: int, n: int)
    requires n > 0
    ensures 0 <= LcgStep(s) ==> 0 <= LcgScale(LcgStep(s), n) < n && LcgLive(LcgStep(s))
    ensures LcgStep(s) < 0 ==> LcgScale(LcgStep(s), n) < 0
    ensures 0 <= LcgStep(s) ==> 0 <= LcgStep(LcgStep(s))
    ensures s >= -5 ==> 0 <= LcgStep(s)
  {
    var w := LcgStep(s);
    if w >= 0 {
      MulMonotone(w, LCG_MODULUS - 1, n);
      assert w * n < LCG_MODULUS * n;
    } else {
      assert w * n < 0;
    }
  }

  /** `class SeededRandom`. `NextInt` exists only in the Math Challenge copy. */
  class Lcg {
    var seed: int

    constructor (seed: int)
      ensures this.seed == seed
    {
      this.seed := seed;
    }

    /** `next()`; the new state s stands for the draw s / LCG_MODULUS. */
    method Next() returns (s: int)
      modifies this
      ensures seed == LcgStep(old(seed)) && s == seed
    {
      seed := JsRem(seed * LCG_MULTIPLIER + LCG_INCREMENT, LCG_MODULUS);
      s := seed;
    }

    /** `nextInt(lo, hi)`: `Math.floor(this.next() * (hi - lo + 1)) + lo`. */
    method NextInt(lo: int, hi: int) returns (k: int)
      modifies this
      ensures seed == LcgStep(old(seed)) && k == LcgInt(seed, lo, hi)
    {
      var s := Next();
      k := (s * (hi - lo + 1)) / LCG_MODULUS + lo;
    }
  }
}
