/** Aggressive sizing of an entry proposal: leverage, margin and the caps that bound them. */
module Sizing {
  import opened Common

  /** The sizing fields of a proposal; an absent number is zero, as the code reads it. */
  datatype Proposal = Proposal(
    adjustedConfidence: real,
    rawConfidence: real,
    aiFlexLeverage: real,
    leverage: real,
    margin: real,
    aiFlexMargin: real,
    marginPct: real)

  datatype Config = Config(
    minMargin: real, maxMargin: real, targetNotional: real, radarFraction: real,
    defaultLeverage: real, maxLeverage: real,
    dynamic: bool, dynamicLow: real, dynamicHigh: real, dynamicMaxMargin: real, dynamicMarginPct: real)

  /** What the sizing takes for granted of its configuration. */
  predicate Usable(c: Config) {
    c.minMargin > 0.0 && c.targetNotional >= 0.0 && c.maxLeverage >= 2.0
  }

  function Confidence(p: Proposal): real {
    OrElse(OrElse(p.adjustedConfidence, p.rawConfidence), 0.55)
  }

  function Between(lo: real, hi: real, share: real): real {
    lo + share * (hi - lo)
  }

  /** The leverage before it is clamped. */
  function RawLeverage(p: Proposal, c: Config): real {
    if c.dynamic then
      var lo := MaxR(2.0, c.dynamicLow);
      var hi := MaxR(lo, c.dynamicHigh);
      Between(lo, hi, MaxR(0.0, MinR(1.0, Confidence(p))))
    else
      var asked := OrElse(p.aiFlexLeverage, p.leverage);
      if asked > 0.0 then asked
      else MinR(100.0, MaxR(10.0, c.defaultLeverage * MaxR(0.85, Confidence(p))))
  }

  /** The margin asked for, at least the minimum. */
  function AskedMargin(p: Proposal, pool: real, c: Config): real {
    var asked := OrElse(p.margin, p.aiFlexMargin);
    var fromPool := if asked <= 0.0 && p.marginPct > 0.0 && pool > 0.0 then pool * p.marginPct else asked;
    var margin :=
      if fromPool <= 0.0 then MaxR(c.minMargin, if pool > 0.0 then pool * 0.04 else c.minMargin) else fromPool;
    MaxR(margin, c.minMargin)
  }

  /** The cap that configuration, pool and radar budget put on a margin. */
  function MarginCap(pool: real, radar: real, c: Config): real {
    var absolute := if c.dynamic then MaxR(c.maxMargin, c.dynamicMaxMargin) else c.maxMargin;
    var pooled :=
      if pool > 0.0 then MinR(absolute, pool * (if c.dynamic then c.dynamicMarginPct else 0.05)) else absolute;
    if radar > 0.0 then MinR(pooled, radar * c.radarFraction) else pooled
  }

  /** The margin that reaches the target notional at a leverage, plus one. */
  function TargetMargin(leverage: real, c: Config): real {
    c.targetNotional / MaxR(leverage, 1.0) + 1.0
  }

  function Leverage(raw: real, c: Config): real {
    MinR(MinR(c.maxLeverage, 100.0), MaxR(2.0, raw))
  }

  /** The margin before the minimum is enforced. */
  function WantedMargin(p: Proposal, pool: real, radar: real, c: Config): real {
    MinR(MinR(AskedMargin(p, pool, c), MarginCap(pool, radar, c)), TargetMargin(RawLeverage(p, c), c))
  }

  function Sized(p: Proposal, pool: real, radar: real, c: Config): Proposal {
    p.(leverage := Leverage(RawLeverage(p, c), c),
       margin := MaxR(c.minMargin, WantedMargin(p, pool, radar, c)),
       marginPct := 0.0)
  }

  method ChooseLeverage(p: Proposal, c: Config) returns (leverage: real)
    ensures leverage == RawLeverage(p, c)
  {
    var confidence := OrElse(OrElse(p.adjustedConfidence, p.rawConfidence), 0.55);
    leverage := OrElse(p.aiFlexLeverage, p.leverage);
    if leverage <= 0.0 {
      leverage := MinR(100.0, MaxR(10.0, c.defaultLeverage * MaxR(0.85, confidence)));
    }
    if c.dynamic {
      var lo := MaxR(2.0, c.dynamicLow);
      var hi := MaxR(lo, c.dynamicHigh);
      leverage := lo + MaxR(0.0, MinR(1.0, confidence)) * (hi - lo);
    }
  }

  method ChooseMargin(p: Proposal, pool: real, c: Config) returns (margin: real)
    ensures MaxR(margin, c.minMargin) == AskedMargin(p, pool, c)
  {
    margin := OrElse(p.margin, p.aiFlexMargin);
    if margin <= 0.0 && p.marginPct > 0.0 && pool > 0.0 { margin := pool * p.marginPct; }
    if margin <= 0.0 { margin := MaxR(c.minMargin, if pool > 0.0 then pool * 0.04 else c.minMargin); }
  }

  method CapMargin(pool: real, radar: real, c: Config) returns (maxMargin: real)
    ensures maxMargin == MarginCap(pool, radar, c)
  {
    maxMargin := c.maxMargin;
    if c.dynamic { maxMargin := MaxR(maxMargin, c.dynamicMaxMargin); }
    if pool > 0.0 { maxMargin := MinR(maxMargin, pool * (if c.dynamic then c.dynamicMarginPct else 0.05)); }
    if radar > 0.0 { maxMargin := MinR(maxMargin, radar * c.radarFraction); }
  }

  method ApplyAggressiveSizing(p: Proposal, pool: real, radar: real, c: Config) returns (q: Proposal)
    ensures q == Sized(p, pool, radar, c)
  {
    var leverage := ChooseLeverage(p, c);
    var margin := ChooseMargin(p, pool, c);
    var maxMargin := CapMargin(pool, radar, c);
    var target := c.targetNotional / MaxR(leverage, 1.0);
    margin := MinR(MinR(MaxR(margin, c.minMargin), maxMargin), target + 1.0);
    margin := MaxR(c.minMargin, MinR(margin, maxMargin));
    q := p.(leverage := MinR(MinR(c.maxLeverage, 100.0), MaxR(2.0, leverage)), margin := margin, marginPct := 0.0);
  }

  // ----- bounds

  lemma RawPositive(p: Proposal, c: Config)
    ensures RawLeverage(p, c) > 0.0
    ensures c.dynamic || OrElse(p.aiFlexLeverage, p.leverage) <= 0.0 ==> RawLeverage(p, c) >= 2.0
  {
    if c.dynamic {
      var lo := MaxR(2.0, c.dynamicLow);
      var hi := MaxR(lo, c.dynamicHigh);
      AboveLow(lo, hi, MaxR(0.0, MinR(1.0, Confidence(p))));
    }
  }

  lemma AboveLow(lo: real, hi: real, share: real)
    requires lo <= hi && share >= 0.0
    ensures lo <= Between(lo, hi, share)
  {
    ProductNonNegative(share, hi - lo);
  }

  lemma CapWithinPools(pool: real, radar: real, c: Config)
    ensures pool > 0.0 ==> MarginCap(pool, radar, c) <= pool * (if c.dynamic then c.dynamicMarginPct else 0.05)
    ensures radar > 0.0 ==> MarginCap(pool, radar, c) <= radar * c.radarFraction
    ensures MarginCap(pool, radar, c) <= if c.dynamic then MaxR(c.maxMargin, c.dynamicMaxMargin) else c.maxMargin
  {
  }

  /** Leverage and margin stay within their limits, whatever was asked for. */
  lemma SizingWithinLimits(p: Proposal, pool: real, radar: real, c: Config)
    requires Usable(c)
    ensures var q := Sized(p, pool, radar, c);
      && 2.0 <= q.leverage <= MinR(c.maxLeverage, 100.0)
      && c.minMargin <= q.margin
      && (q.margin > c.minMargin ==>
            && (pool > 0.0 ==> q.margin <= pool * (if c.dynamic then c.dynamicMarginPct else 0.05))
            && (radar > 0.0 ==> q.margin <= radar * c.radarFraction)
            && q.margin <= (if c.dynamic then MaxR(c.maxMargin, c.dynamicMaxMargin) else c.maxMargin))
  {
    CapWithinPools(pool, radar, c);
    var cap, q := MarginCap(pool, radar, c), Sized(p, pool, radar, c);
    assert q.margin <= MaxR(c.minMargin, cap);
  }

  /** The largest margin that the target allows at the lowest leverage there is, or the minimum. */
  function LowestRoom(c: Config): real {
    MaxR(c.minMargin, c.targetNotional / 2.0 + 1.0)
  }

  /** Something keeps the margin within that room: what is asked for, a cap, or the target at the raw leverage. */
  predicate FitsLowest(p: Proposal, pool: real, radar: real, c: Config) {
    || AskedMargin(p, pool, c) <= LowestRoom(c)
    || MarginCap(pool, radar, c) <= LowestRoom(c)
    || TargetMargin(RawLeverage(p, c), c) <= LowestRoom(c)
  }

  /** The notional is within a target plus the leverage, or is that of the minimum margin. */
  ghost predicate NotionalWithin(q: Proposal, target: real, c: Config) {
    q.margin * q.leverage <= MaxR(c.minMargin * q.leverage, target + q.leverage)
  }

  /**
   * Main result: the notional stays within the target (plus the leverage, or the minimum margin's notional) exactly
   * when the raw leverage is at least 2 or what is asked for, a cap or the target at the raw leverage leaves no more
   * margin than the target allows at leverage 2.
   */
  lemma NotionalWithinTargetIff(p: Proposal, pool: real, radar: real, c: Config)
    requires Usable(c)
    ensures NotionalWithin(Sized(p, pool, radar, c), c.targetNotional, c)
      <==> RawLeverage(p, c) >= 2.0 || FitsLowest(p, pool, radar, c)
  {
    RawPositive(p, c);
    var raw, wanted := RawLeverage(p, c), WantedMargin(p, pool, radar, c);
    assert wanted <= TargetMargin(raw, c);
    SizedBound(Sized(p, pool, radar, c), raw, wanted, c);
  }

  lemma SizedBound(q: Proposal, raw: real, wanted: real, c: Config)
    requires Usable(c) && raw > 0.0 && q.leverage == Leverage(raw, c) && q.margin == MaxR(c.minMargin, wanted)
    requires wanted <= TargetMargin(raw, c)
    ensures NotionalWithin(q, c.targetNotional, c)
      <==> raw >= 2.0 || wanted <= LowestRoom(c)
  {
    var leverage := q.leverage;
    if raw >= 2.0 {
      TargetReached(raw, leverage, c.targetNotional);
      Scale(wanted, TargetMargin(raw, c), leverage);
      assert (c.targetNotional / raw + 1.0) * leverage == c.targetNotional / raw * leverage + leverage;
    } else {
      assert leverage == 2.0;
    }
  }

  lemma TargetReached(raw: real, leverage: real, target: real)
    requires raw >= 2.0 && 0.0 < leverage <= raw && target >= 0.0
    ensures target / raw * leverage <= target
  {
    var m := target / raw;
    assert m * raw == target;
    assert m >= 0.0 by { if m < 0.0 { ProductNegative(m, raw); } }
    Scale(leverage, raw, m);
  }

  /** Whatever the leverage, the notional is within twice the target. */
  lemma NotionalWithinTwiceTarget(p: Proposal, pool: real, radar: real, c: Config)
    requires Usable(c)
    ensures NotionalWithin(Sized(p, pool, radar, c), 2.0 * c.targetNotional, c)
  {
    RawPositive(p, c);
    var raw, q := RawLeverage(p, c), Sized(p, pool, radar, c);
    if raw >= 2.0 {
      NotionalWithinTargetIff(p, pool, radar, c);
    } else {
      assert q.leverage == 2.0;
      AtMost(c.targetNotional, MaxR(raw, 1.0));
    }
  }

  lemma AtMost(target: real, divisor: real)
    requires target >= 0.0 && divisor >= 1.0
    ensures target / divisor <= target
  {
    var m := target / divisor;
    assert m * divisor == target;
    if m < 0.0 { ProductNegative(m, divisor); } else { Scale(1.0, divisor, m); }
  }

  // ----- what is asked for

  /** A positive asked leverage is kept within 2 and both caps; the flexible one is asked before the plain one. */
  lemma AskedLeverageKept(p: Proposal, pool: real, radar: real, c: Config)
    requires Usable(c) && !c.dynamic
    ensures var got, top := Sized(p, pool, radar, c).leverage, MinR(c.maxLeverage, 100.0);
      && (p.aiFlexLeverage > 0.0 ==> got == if p.aiFlexLeverage < 2.0 then 2.0 else MinR(p.aiFlexLeverage, top))
      && (p.aiFlexLeverage == 0.0 && p.leverage > 0.0 ==>
           got == if p.leverage < 2.0 then 2.0 else MinR(p.leverage, top))
  {
  }

  /** Without a usable one it is the default times the confidence, read as 0.85 at least, and 10 at least. */
  lemma DefaultLeverage(p: Proposal, pool: real, radar: real, c: Config)
    requires Usable(c) && !c.dynamic && p.aiFlexLeverage <= 0.0
    requires p.aiFlexLeverage == 0.0 ==> p.leverage <= 0.0
    ensures var got, top := Sized(p, pool, radar, c).leverage, MinR(c.maxLeverage, 100.0);
      var scaled := c.defaultLeverage * MaxR(Confidence(p), 0.85);
      got == MinR(top, if scaled < 10.0 then 10.0 else scaled)
  {
    assert MaxR(0.85, Confidence(p)) == MaxR(Confidence(p), 0.85);
    var scaled := c.defaultLeverage * MaxR(Confidence(p), 0.85);
    assert RawLeverage(p, c) == MinR(100.0, MaxR(10.0, scaled));
    assert Leverage(RawLeverage(p, c), c) == MinR(MinR(c.maxLeverage, 100.0), MaxR(10.0, scaled));
  }

  /** The first confidence that is not zero counts, the adjusted before the raw one, and 0.55 without either. */
  lemma ConfidenceRead(p: Proposal)
    ensures p.adjustedConfidence != 0.0 ==> Confidence(p) == p.adjustedConfidence
    ensures p.adjustedConfidence == 0.0 && p.rawConfidence != 0.0 ==> Confidence(p) == p.rawConfidence
    ensures p.adjustedConfidence == p.rawConfidence == 0.0 ==> Confidence(p) == 0.55
  {
  }

  /** Dynamic sizing goes from the low leverage without confidence to the high one at full, and never falls with it. */
  lemma DynamicLeverage(p: Proposal, q: Proposal, pool: real, radar: real, c: Config)
    requires Usable(c) && c.dynamic && 2.0 <= c.dynamicLow <= c.dynamicHigh <= MinR(c.maxLeverage, 100.0)
    ensures Confidence(p) <= 0.0 ==> Sized(p, pool, radar, c).leverage == c.dynamicLow
    ensures Confidence(p) >= 1.0 ==> Sized(p, pool, radar, c).leverage == c.dynamicHigh
    ensures Confidence(p) == 0.5 ==> Sized(p, pool, radar, c).leverage == (c.dynamicLow + c.dynamicHigh) / 2.0
    ensures Confidence(p) <= Confidence(q) ==> Sized(p, pool, radar, c).leverage <= Sized(q, pool, radar, c).leverage
  {
    var a, b := MaxR(0.0, MinR(1.0, Confidence(p))), MaxR(0.0, MinR(1.0, Confidence(q)));
    var lo, hi := c.dynamicLow, c.dynamicHigh;
    assert RawLeverage(p, c) == Between(lo, hi, a) && RawLeverage(q, c) == Between(lo, hi, b);
    AboveLow(lo, hi, a);
    AboveLow(lo, hi, b);
    BetweenGrows(lo, hi, a, b);
    BetweenGrows(lo, hi, b, 1.0);
    BetweenGrows(lo, hi, a, 1.0);
  }

  lemma BetweenGrows(lo: real, hi: real, a: real, b: real)
    requires lo <= hi
    ensures a <= b ==> Between(lo, hi, a) <= Between(lo, hi, b)
    ensures Between(lo, hi, 0.0) == lo && Between(lo, hi, 1.0) == hi && Between(lo, hi, 0.5) == (lo + hi) / 2.0
  {
    if a <= b { Scale(a, b, hi - lo); }
  }

  /** A margin asked for within all limits is given: plain before flexible, and a share of the pool after both. */
  lemma AskedMarginGiven(p: Proposal, pool: real, radar: real, c: Config, asked: real)
    requires c.minMargin <= asked <= MarginCap(pool, radar, c) && asked > 0.0
    requires asked <= TargetMargin(RawLeverage(p, c), c)
    requires
      || p.margin == asked
      || (p.margin == 0.0 && p.aiFlexMargin == asked)
      || (p.margin == p.aiFlexMargin == 0.0 && p.marginPct > 0.0 && pool > 0.0 && pool * p.marginPct == asked)
    ensures Sized(p, pool, radar, c).margin == asked
  {
    AskedMarginRead(p, pool, c, asked);
    WithinLimits(p, pool, radar, c);
  }

  lemma AskedMarginRead(p: Proposal, pool: real, c: Config, asked: real)
    requires c.minMargin <= asked && asked > 0.0
    requires
      || p.margin == asked
      || (p.margin == 0.0 && p.aiFlexMargin == asked)
      || (p.margin == p.aiFlexMargin == 0.0 && p.marginPct > 0.0 && pool > 0.0 && pool * p.marginPct == asked)
    ensures AskedMargin(p, pool, c) == asked
  {
  }

  lemma WithinLimits(p: Proposal, pool: real, radar: real, c: Config)
    requires var asked := AskedMargin(p, pool, c);
      c.minMargin <= asked <= MinR(MarginCap(pool, radar, c), TargetMargin(RawLeverage(p, c), c))
    ensures Sized(p, pool, radar, c).margin == AskedMargin(p, pool, c)
  {
  }

  /** With nothing asked for, the wish is four hundredths of the pool, and at least the minimum. */
  lemma NothingAsked(p: Proposal, pool: real, c: Config)
    requires p.margin == p.aiFlexMargin == 0.0 && p.marginPct <= 0.0
    ensures AskedMargin(p, pool, c) == if pool > 0.0 && pool * 0.04 > c.minMargin then pool * 0.04 else c.minMargin
  {
  }

  /** The cap is the smallest of its three parts, each of which binds where it applies. */
  lemma CapIsSmallest(pool: real, radar: real, c: Config)
    ensures var cap := MarginCap(pool, radar, c);
      var fixed := if c.dynamic && c.dynamicMaxMargin > c.maxMargin then c.dynamicMaxMargin else c.maxMargin;
      var share := pool * (if c.dynamic then c.dynamicMarginPct else 0.05);
      && cap <= fixed && (pool > 0.0 ==> cap <= share) && (radar > 0.0 ==> cap <= radar * c.radarFraction)
      && (cap == fixed || (pool > 0.0 && cap == share) || (radar > 0.0 && cap == radar * c.radarFraction))
  {
  }

  /** A margin limited by the target is what reaches it, and one unit, at a raw leverage within the caps. */
  lemma TargetReachedExactly(p: Proposal, pool: real, radar: real, c: Config)
    requires Usable(c) && 2.0 <= RawLeverage(p, c) <= MinR(c.maxLeverage, 100.0)
    requires c.minMargin <= TargetMargin(RawLeverage(p, c), c)
    requires TargetMargin(RawLeverage(p, c), c) <= MinR(AskedMargin(p, pool, c), MarginCap(pool, radar, c))
    ensures var q := Sized(p, pool, radar, c);
      q.leverage == RawLeverage(p, c) && q.margin == c.targetNotional / q.leverage + 1.0
  {
  }

  /** A sizing that has been done asks for nothing else any more: the share of the pool is dropped. */
  lemma ShareDropped(p: Proposal, pool: real, radar: real, c: Config)
    ensures var q := Sized(p, pool, radar, c);
      q == p.(leverage := q.leverage, margin := q.margin, marginPct := 0.0)
  {
  }

  // ----- sizing again

  /** A smaller leverage leaves more room for margin. */
  lemma TargetAntitone(a: real, b: real, c: Config)
    requires 0.0 < a <= b && c.targetNotional >= 0.0
    ensures TargetMargin(b, c) <= TargetMargin(a, c)
  {
    var x, y := MaxR(a, 1.0), MaxR(b, 1.0);
    var m, n := c.targetNotional / x, c.targetNotional / y;
    assert m * x == c.targetNotional && n * y == c.targetNotional;
    if n > m {
      if n < 0.0 { ProductNegative(n, y); }
      Scale(x, y, n);
      ScaleStrict(m, n, x);
    }
  }

  /**
   * Sizing again with the same pools changes nothing, exactly when the raw leverage was at least 2,
   * or is still there to be read again, or the margin fits as above.
   */
  lemma ResizeIsNoOpIff(p: Proposal, pool: real, radar: real, c: Config)
    requires Usable(c)
    ensures var q := Sized(p, pool, radar, c);
      Sized(q, pool, radar, c) == q
      <==> RawLeverage(p, c) >= 2.0 || p.aiFlexLeverage != 0.0 || FitsLowest(p, pool, radar, c)
  {
    RawPositive(p, c);
    var q := Sized(p, pool, radar, c);
    var raw, again := RawLeverage(p, c), RawLeverage(q, c);
    assert q.leverage >= 2.0 && q.margin >= c.minMargin;
    assert AskedMargin(q, pool, c) == q.margin;
    if c.dynamic || p.aiFlexLeverage != 0.0 {
      assert again == raw || (raw >= 2.0 && again == raw);
      SecondMargin(p, q, pool, radar, c);
    } else {
      assert again == q.leverage;
      assert Leverage(again, c) == q.leverage;
      SecondMargin(p, q, pool, radar, c);
      if raw < 2.0 { assert TargetMargin(again, c) == c.targetNotional / 2.0 + 1.0; }
    }
  }

  /** The second margin is the first, cut down to the target at the leverage read the second time. */
  lemma SecondMargin(p: Proposal, q: Proposal, pool: real, radar: real, c: Config)
    requires Usable(c) && q == Sized(p, pool, radar, c) && AskedMargin(q, pool, c) == q.margin
    ensures Sized(q, pool, radar, c).margin
         == MaxR(c.minMargin, MinR(q.margin, TargetMargin(RawLeverage(q, c), c)))
    ensures RawLeverage(q, c) > 0.0 && RawLeverage(q, c) <= RawLeverage(p, c) ==>
      Sized(q, pool, radar, c).margin == q.margin
  {
    RawPositive(p, c);
    if RawLeverage(q, c) > 0.0 && RawLeverage(q, c) <= RawLeverage(p, c) {
      TargetAntitone(RawLeverage(q, c), RawLeverage(p, c), c);
    }
  }

  /** From the second sizing on nothing changes any more. */
  lemma ThirdSizingIsNoOp(p: Proposal, pool: real, radar: real, c: Config)
    requires Usable(c)
    ensures var q := Sized(Sized(p, pool, radar, c), pool, radar, c); Sized(q, pool, radar, c) == q
  {
    var first := Sized(p, pool, radar, c);
    RawPositive(first, c);
    ResizeIsNoOpIff(first, pool, radar, c);
    SizingWithinLimits(p, pool, radar, c);
  }

  /** The default configuration. */
  const SHIPPED := Config(80.0, 120.0, 800.0, 0.4, 25.0, 25.0, false, 20.0, 100.0, 500.0, 0.12)

  /** Under the default caps the escape clause always holds, so both results hold for every proposal. */
  lemma ShippedCapsFit(p: Proposal, pool: real, radar: real)
    ensures NotionalWithin(Sized(p, pool, radar, SHIPPED), 800.0, SHIPPED)
    ensures var q := Sized(p, pool, radar, SHIPPED); Sized(q, pool, radar, SHIPPED) == q
  {
    CapWithinPools(pool, radar, SHIPPED);
    assert FitsLowest(p, pool, radar, SHIPPED);
    NotionalWithinTargetIff(p, pool, radar, SHIPPED);
    ResizeIsNoOpIff(p, pool, radar, SHIPPED);
  }

  /** With a larger margin cap, an asked leverage of 1 overshoots the target and shrinks when sized again. */
  lemma UnitLeverageOvershoots()
    ensures exists p: Proposal, c: Config ::
      && Usable(c) && !NotionalWithin(Sized(p, 0.0, 0.0, c), c.targetNotional, c)
      && Sized(Sized(p, 0.0, 0.0, c), 0.0, 0.0, c) != Sized(p, 0.0, 0.0, c)
  {
    var c := SHIPPED.(maxMargin := 1200.0);
    var p := Proposal(0.0, 0.0, 0.0, 1.0, 1000.0, 0.0, 0.0);
    assert WantedMargin(p, 0.0, 0.0, c) == 801.0;
    assert !FitsLowest(p, 0.0, 0.0, c);
    NotionalWithinTargetIff(p, 0.0, 0.0, c);
    ResizeIsNoOpIff(p, 0.0, 0.0, c);
  }
}
