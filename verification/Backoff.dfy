/**
 ExponentialBackoff.NextDelay in exact arithmetic. Converting a float that does not fit
 into an int64 gives an architecture-dependent value, so that is a parameter.
 */
module Backoff {
  import opened Rows

  const TWO63: int := 0x8000_0000_0000_0000

  /** A time.Duration. */
  type Duration = d: int | -TWO63 <= d < TWO63

  /** What an out-of-range conversion yields: the largest or the smallest int64. */
  datatype Conversion = Saturating | Wrapping

  function Pow2(n: nat): (p: int)
    ensures p >= 1
  {
    if n == 0 then 1 else 2 * Pow2(n - 1)
  }

  /** time.Duration(x) for a non-negative x. */
  function ToDuration(x: real, conv: Conversion): Duration
    requires x >= 0.0
  {
    if x < TWO63 as real then x.Floor else if conv.Saturating? then TWO63 - 1 else -TWO63
  }

  /** Policy settings; `draw` is the random value in [0, 1]. */
  datatype Policy = Policy(base: Duration, max: Duration, jitterFraction: real)
  {
    function Base(): int { if base <= 0 then SECOND else base }
    function Max(): int { if max <= 0 then HOUR else max }
    function Jitter(): real {
      if jitterFraction < 0.0 then 0.0 else if jitterFraction > 1.0 then 1.0 else jitterFraction
    }
  }

  function Spread(p: Policy, draw: real): real {
    (2.0 * draw - 1.0) * p.Jitter()
  }

  lemma SpreadRange(p: Policy, draw: real)
    requires 0.0 <= draw <= 1.0
    ensures -p.Jitter() <= Spread(p, draw) <= p.Jitter()
  {
    var j, c := p.Jitter(), 2.0 * draw - 1.0;
    assert (1.0 - c) * j >= 0.0;
    assert (1.0 + c) * j >= 0.0;
  }

  /** Float multiplication, in exact arithmetic. */
  function Scale(d: real, factor: real): real { d * factor }

  lemma NonNegative(x: real, y: real)
    requires x >= 0.0 && y >= 0.0
    ensures x * y >= 0.0
  {
  }

  /** Scaling by a non-negative number keeps order. */
  lemma Scaled(d: real, lo: real, x: real, hi: real)
    requires d >= 0.0 && lo <= x <= hi
    ensures d * lo <= d * x <= d * hi
  {
    assert d * (x - lo) >= 0.0 && d * (hi - x) >= 0.0;
  }

  function Min(a: int, b: int): int { if a < b then a else b }

  function Steps(attempt: int): nat { if attempt < 1 then 0 else attempt - 1 }

  /** The delay before jitter, with its overflow guard. */
  function Unjittered(p: Policy, attempt: int, conv: Conversion): (d: int)
    ensures d >= 1
  {
    var d := ToDuration((p.Base() * Pow2(Steps(attempt))) as real, conv);
    if d <= 0 || d > p.Max() then p.Max() else d
  }

  /** Scale by 1 + spread, convert, clamp to [0, max]. */
  function Jittered(d: int, spread: real, max: int, conv: Conversion): int
    requires d >= 0 && spread >= -1.0
  {
    NonNegative(d as real, 1.0 + spread);
    var x := ToDuration(Scale(d as real, 1.0 + spread), conv);
    Min(if x < 0 then 0 else x, max)
  }

  function NextDelay(p: Policy, attempt: int, draw: real, conv: Conversion): int
    requires 0.0 <= draw <= 1.0
  {
    SpreadRange(p, draw);
    var d := Unjittered(p, attempt, conv);
    if p.Jitter() > 0.0 then Jittered(d, Spread(p, draw), p.Max(), conv) else d
  }

  /** The documented formula. */
  function Ideal(p: Policy, attempt: int): int {
    Min(p.Max(), p.Base() * Pow2(Steps(attempt)))
  }

  /** The overflow guard loses nothing: the unjittered delay is the formula at every attempt, on every architecture. */
  lemma GuardIsExact(p: Policy, attempt: int, conv: Conversion)
    ensures Unjittered(p, attempt, conv) == Ideal(p, attempt)
    ensures 1 <= Ideal(p, attempt) <= p.Max()
  {
    var v := p.Base() * Pow2(Steps(attempt));
    assert v >= 1;
    assert (v as real).Floor == v;
  }

  lemma {:induction false} Pow2Mono(m: nat, n: nat)
    requires m <= n
    ensures Pow2(m) <= Pow2(n)
    decreases n - m
  {
    if m < n {
      Pow2Mono(m, n - 1);
    }
  }

  lemma NoJitter(p: Policy, attempt: int, draw: real, conv: Conversion)
    requires 0.0 <= draw <= 1.0 && p.Jitter() == 0.0
    ensures NextDelay(p, attempt, draw, conv) == Ideal(p, attempt)
  {
    GuardIsExact(p, attempt, conv);
  }

  lemma Twice(b: int, q: int)
    ensures b * (2 * q) == 2 * (b * q)
  {
  }

  lemma MinTwice(m: int, v: int)
    requires m >= 0 && v >= 0
    ensures Min(m, 2 * v) == Min(m, 2 * Min(m, v))
  {
  }

  lemma IdealDoubles(p: Policy, attempt: int)
    requires attempt >= 1
    ensures Ideal(p, attempt + 1) == Min(p.Max(), 2 * Ideal(p, attempt))
  {
    var b, q := p.Base(), Pow2(Steps(attempt));
    Twice(b, q);
    MulMono(b, 0, q);
    MinTwice(p.Max(), b * q);
  }

  /**
   Without jitter the delay starts at the base, a second if unset, doubles from attempt to attempt,
   and is cut off at the maximum, an hour if unset.
   */
  lemma DelayDoubles(p: Policy, attempt: int, draw: real, conv: Conversion)
    requires 0.0 <= draw <= 1.0 && p.jitterFraction <= 0.0
    ensures var max := if p.max >= 1 then p.max else 3600 * SECOND;
            var d := NextDelay(p, attempt, draw, conv);
            && (attempt <= 1 ==> d == Min(max, if p.base >= 1 then p.base else SECOND))
            && (attempt >= 1 ==> NextDelay(p, attempt + 1, draw, conv) == Min(max, 2 * d))
  {
    NoJitter(p, attempt, draw, conv);
    NoJitter(p, attempt + 1, draw, conv);
    if attempt >= 1 { IdealDoubles(p, attempt); }
    if attempt <= 1 { assert Pow2(Steps(attempt)) == 1; }
  }

  /** d scaled by 1 + c * f. */
  function Widened(d: int, c: real, f: real): real { Scale(d as real, 1.0 + c * f) }

  lemma NoSpread(d: int, c: real)
    ensures Widened(d, c, 0.0) == d as real && (d as real).Floor == d
  {
  }

  lemma WidenedJitter(d: int, spread: real, max: int, conv: Conversion)
    requires d >= 0 && spread >= -1.0
    ensures var x := Scale(d as real, 1.0 + spread);
            x < TWO63 as real ==> Jittered(d, spread, max, conv) == Min(max, x.Floor)
  {
    NonNegative(d as real, 1.0 + spread);
  }

  lemma SpreadWidens(p: Policy, d: int, draw: real)
    ensures Scale(d as real, 1.0 + Spread(p, draw)) == Widened(d, 2.0 * draw - 1.0, p.Jitter())
  {
  }

  lemma ScaledDelay(p: Policy, attempt: int, draw: real, conv: Conversion)
    requires 0.0 <= draw <= 1.0
    ensures var x := Widened(Ideal(p, attempt), 2.0 * draw - 1.0, p.Jitter());
            x < TWO63 as real ==> NextDelay(p, attempt, draw, conv) == Min(p.Max(), x.Floor)
  {
    var d, j := Ideal(p, attempt), p.Jitter();
    GuardIsExact(p, attempt, conv);
    if j > 0.0 {
      SpreadRange(p, draw);
      SpreadWidens(p, d, draw);
      WidenedJitter(d, Spread(p, draw), p.Max(), conv);
    } else {
      assert j == 0.0;
      NoJitter(p, attempt, draw, conv);
      NoSpread(d, 2.0 * draw - 1.0);
    }
  }

  /** The jittered delay is the formula scaled by a factor between 1 - f and 1 + f, rounded down, as long as it fits. */
  lemma JitterFormula(p: Policy, attempt: int, draw: real, conv: Conversion)
    requires 0.0 <= draw <= 1.0
    ensures var f := if p.jitterFraction < 0.0 then 0.0 else if p.jitterFraction > 1.0 then 1.0 else p.jitterFraction;
            var x := Widened(Ideal(p, attempt), 2.0 * draw - 1.0, f);
            x < TWO63 as real ==>
              NextDelay(p, attempt, draw, conv) == Min(if p.max >= 1 then p.max else 3600 * SECOND, x.Floor)
  {
    ScaledDelay(p, attempt, draw, conv);
  }

  lemma IdealMono(p: Policy, a: int, b: int)
    requires a <= b
    ensures Ideal(p, a) <= Ideal(p, b)
  {
    Pow2Mono(Steps(a), Steps(b));
    MulMono(p.Base(), Pow2(Steps(a)), Pow2(Steps(b)));
  }

  /** A widened delay that still fits an int64, or is cut off there, keeps order under conversion and clamping. */
  lemma JitteredMono(d: int, e: int, s: real, max: int, conv: Conversion)
    requires 0 <= d <= e && s >= -1.0 && (conv.Saturating? || Scale(e as real, 1.0 + s) < TWO63 as real)
    ensures Jittered(d, s, max, conv) <= Jittered(e, s, max, conv)
  {
    ScaleMono(d as real, e as real, 1.0 + s);
    DurationMono(Scale(d as real, 1.0 + s), Scale(e as real, 1.0 + s), conv);
  }

  lemma ScaleMono(d: real, e: real, factor: real)
    requires 0.0 <= d <= e && factor >= 0.0
    ensures 0.0 <= Scale(d, factor) <= Scale(e, factor)
  {
    NonNegative(d, factor);
    NonNegative(e - d, factor);
  }

  lemma DurationMono(x: real, y: real, conv: Conversion)
    requires 0.0 <= x <= y && (conv.Saturating? || y < TWO63 as real)
    ensures ToDuration(x, conv) <= ToDuration(y, conv)
  {
  }

  /** For one and the same draw, the delay never decreases from attempt to attempt while it fits. */
  lemma MonotoneInAttempt(p: Policy, a: int, b: int, draw: real, conv: Conversion)
    requires 0.0 <= draw <= 1.0 && a <= b
    requires p.Jitter() == 0.0 || conv.Saturating? || Scale(Ideal(p, b) as real, 1.0 + Spread(p, draw)) < TWO63 as real
    ensures NextDelay(p, a, draw, conv) <= NextDelay(p, b, draw, conv)
  {
    GuardIsExact(p, a, conv);
    GuardIsExact(p, b, conv);
    IdealMono(p, a, b);
    SpreadRange(p, draw);
    if p.Jitter() > 0.0 { JitteredMono(Ideal(p, a), Ideal(p, b), Spread(p, draw), p.Max(), conv); }
  }

  lemma MulMono(c: int, x: int, y: int)
    requires c >= 0 && x <= y
    ensures c * x <= c * y
  {
  }

  lemma InRange(p: Policy, attempt: int, draw: real, conv: Conversion)
    requires 0.0 <= draw <= 1.0
    ensures 0 <= NextDelay(p, attempt, draw, conv) <= p.Max()
  {
    GuardIsExact(p, attempt, conv);
  }

  // ----- Jitter ------------------------------------------------------------------------

  /** n lies between (1-j)d, rounded down, and min(max, (1+j)d). */
  predicate InBand(d: int, j: real, max: int, n: int) {
    Scale(d as real, 1.0 - j).Floor <= n <= max && n as real <= Scale(d as real, 1.0 + j)
  }

  predicate WithinJitter(p: Policy, attempt: int, n: int) {
    InBand(Ideal(p, attempt), p.Jitter(), p.Max(), n)
  }

  /** Every draw lands in the jitter band. */
  ghost predicate AlwaysWithinJitter(p: Policy, attempt: int, conv: Conversion) {
    forall draw: real :: 0.0 <= draw <= 1.0 ==> WithinJitter(p, attempt, NextDelay(p, attempt, draw, conv))
  }

  /** The widened delay still fits an int64, or the conversion saturates, or the band reaches down to zero anyway. */
  predicate BandFits(d: int, j: real, conv: Conversion) {
    j == 0.0 || conv.Saturating? || Scale(d as real, 1.0 + j) < TWO63 as real || Scale(d as real, 1.0 - j).Floor <= 0
  }

  predicate Fits(p: Policy, attempt: int, conv: Conversion) {
    BandFits(Ideal(p, attempt), p.Jitter(), conv)
  }

  /** Truncating and clamping keep a value inside its band, unless the conversion wraps. */
  lemma ClampKeepsBand(lo: real, y: real, hi: real, d: int, max: int, conv: Conversion)
    requires 0.0 <= lo <= y <= hi && lo <= d as real <= hi && d <= max < TWO63
    requires conv.Saturating? || hi < TWO63 as real || lo.Floor <= 0
    ensures var x := ToDuration(y, conv); var n := Min(if x < 0 then 0 else x, max);
            lo.Floor <= n <= max && n as real <= hi
  {
    assert lo.Floor <= y.Floor;
    assert lo.Floor <= d;
  }

  lemma Band(d: real, j: real, s: real)
    requires d >= 0.0 && 0.0 <= j <= 1.0 && -j <= s <= j
    ensures 0.0 <= Scale(d, 1.0 - j) <= Scale(d, 1.0 + s) <= Scale(d, 1.0 + j)
    ensures Scale(d, 1.0 - j) <= d <= Scale(d, 1.0 + j)
  {
    NonNegative(d, 1.0 - j);
    NonNegative(d, j);
    Scaled(d, 1.0 - j, 1.0 + s, 1.0 + j);
  }

  lemma JitteredInBand(d: int, j: real, s: real, max: int, conv: Conversion)
    requires 0 <= d <= max < TWO63 && 0.0 < j <= 1.0 && -j <= s <= j && BandFits(d, j, conv)
    ensures InBand(d, j, max, Jittered(d, s, max, conv))
  {
    Band(d as real, j, s);
    ClampKeepsBand(Scale(d as real, 1.0 - j), Scale(d as real, 1.0 + s), Scale(d as real, 1.0 + j), d, max, conv);
  }

  lemma DrawWithin(p: Policy, attempt: int, draw: real, conv: Conversion)
    requires 0.0 <= draw <= 1.0 && p.Jitter() > 0.0 && Fits(p, attempt, conv)
    ensures WithinJitter(p, attempt, NextDelay(p, attempt, draw, conv))
  {
    GuardIsExact(p, attempt, conv);
    SpreadRange(p, draw);
    JitteredInBand(Ideal(p, attempt), p.Jitter(), Spread(p, draw), p.Max(), conv);
  }

  lemma UnjitteredWithin(p: Policy, attempt: int, draw: real, conv: Conversion)
    requires 0.0 <= draw <= 1.0 && p.Jitter() == 0.0
    ensures WithinJitter(p, attempt, NextDelay(p, attempt, draw, conv))
  {
    GuardIsExact(p, attempt, conv);
    Band(Ideal(p, attempt) as real, 0.0, 0.0);
  }

  lemma JitterBandIff(p: Policy, attempt: int, conv: Conversion)
    ensures AlwaysWithinJitter(p, attempt, conv) <==> Fits(p, attempt, conv)
  {
    if Fits(p, attempt, conv) {
      forall draw: real | 0.0 <= draw <= 1.0 ensures WithinJitter(p, attempt, NextDelay(p, attempt, draw, conv)) {
        if p.Jitter() > 0.0 { DrawWithin(p, attempt, draw, conv); } else { UnjitteredWithin(p, attempt, draw, conv); }
      }
    } else {
      GuardIsExact(p, attempt, conv);
      assert Spread(p, 1.0) == p.Jitter();
      assert NextDelay(p, attempt, 1.0, conv) == 0;
      assert !WithinJitter(p, attempt, NextDelay(p, attempt, 1.0, conv));
    }
  }

  /** A Max below 2^62 ns (146 years) rules the overflow out for every setting and attempt. */
  lemma SmallMaxFits(p: Policy, attempt: int, conv: Conversion)
    requires 2 * p.Max() < TWO63
    ensures AlwaysWithinJitter(p, attempt, conv)
  {
    GuardIsExact(p, attempt, conv);
    var d, j := Ideal(p, attempt) as real, p.Jitter();
    Scaled(d, 1.0, 1.0 + j, 2.0);
    assert d * 2.0 <= p.Max() as real * 2.0;
    JitterBandIff(p, attempt, conv);
  }

  /** A huge Max with jitter can drop the delay to zero where the conversion wraps. */
  lemma HugeMaxCollapses()
    ensures NextDelay(Policy(TWO63 - 1, TWO63 - 1, 0.5), 1, 1.0, Wrapping) == 0
  {
    var p := Policy(TWO63 - 1, TWO63 - 1, 0.5);
    GuardIsExact(p, 1, Wrapping);
    assert Pow2(0) == 1;
    assert Ideal(p, 1) == TWO63 - 1;
    assert Spread(p, 1.0) == 0.5;
  }
}
