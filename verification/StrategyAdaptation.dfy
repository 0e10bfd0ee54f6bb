/** The strategy adaptation engine: pressure, mode and overrides. */
module StrategyAdaptation {
  import opened Common

  datatype Mode = Normal | Cautious | Restricted | Suspended {
    function Rank(): nat {
      match this case Normal => 0 case Cautious => 1 case Restricted => 2 case Suspended => 3
    }
  }

  /** The market context after lower-casing and defaulting. */
  datatype Context = Context(
    marketRegime: string,
    slippageRisk: string,
    liquidityStatus: string,
    oiNotionalStatus: string,
    fundingRisk: string,
    basisRisk: string,
    liquidationRisk: string,
    newsConflict: bool,
    whaleConflict: bool)

  /** The part of the base guidance the engine reads; an absent number is read like a zero. */
  datatype Guidance = Guidance(
    lossRate: real,
    consecutiveLosses: int,
    confidencePenalty: real,
    failureFocus: set<string>,
    pauseNewEntries: bool,
    minConfidence: real,
    aggression: real,
    positionSize: real,
    leverageCap: Option<real>,
    blockedRegimes: set<string>)

  datatype Overrides = Overrides(
    minConfidence: real,
    aggression: real,
    positionSize: real,
    leverageCap: Option<real>,
    blockedRegimes: set<string>)

  /** `pressure` is in hundredths. */
  datatype Adaptation = Adaptation(
    mode: Mode,
    pressure: nat,
    reviewRequired: bool,
    pauseNewEntries: bool,
    overrides: Overrides)

  const CAUTIOUS_PRESSURE: nat := 35
  const RESTRICTED_PRESSURE: nat := 60
  const SUSPENDED_PRESSURE: nat := 82
  const DISLOCATED_REGIMES: set<string> :=
    {"thin_liquidity", "high_slippage", "basis_dislocation", "funding_dislocation", "liquidation_risk"}

  // ----- pressure

  function Weigh(signal: bool, weight: nat): nat {
    if signal then weight else 0
  }

  function LiquidationWeight(risk: string): nat {
    if risk == "critical" then 35 else if risk == "elevated" then 22 else 0
  }

  /** The weights the market context adds, in hundredths. */
  function MarketPressure(ctx: Context): nat {
    Weigh(ctx.slippageRisk == "elevated", 22) + Weigh(ctx.liquidityStatus != "healthy", 18)
    + Weigh(ctx.oiNotionalStatus != "healthy", 16) + Weigh(ctx.fundingRisk == "elevated", 12)
    + Weigh(ctx.basisRisk == "elevated", 12) + LiquidationWeight(ctx.liquidationRisk)
    + Weigh(ctx.newsConflict, 18) + Weigh(ctx.whaleConflict, 18)
  }

  /** The weights the strategy's own record adds, in hundredths. */
  function LossPressure(base: Guidance): nat {
    (if base.lossRate >= 0.6 then 15 else 0)
    + (if base.consecutiveLosses >= 5 then 35 else if base.consecutiveLosses >= 3 then 18 else 0)
    + (if base.confidencePenalty >= 0.12 then 14 else 0)
    + (if "bad_market_regime" in base.failureFocus then 12 else 0)
    + (if "low_liquidity" in base.failureFocus then 12 else 0)
    + (if "over_leverage" in base.failureFocus || "confidence_overestimated" in base.failureFocus then 15 else 0)
  }

  function Pressure(ctx: Context, base: Guidance): nat {
    var total := MarketPressure(ctx) + LossPressure(base);
    if total > 100 then 100 else total
  }

  function ModeFor(pressure: nat, paused: bool): Mode {
    if paused || pressure >= SUSPENDED_PRESSURE then Suspended
    else if pressure >= RESTRICTED_PRESSURE then Restricted
    else if pressure >= CAUTIOUS_PRESSURE then Cautious
    else Normal
  }

  // ----- caps by mode

  function ConfidenceFloor(mode: Mode): real {
    match mode case Normal => 0.0 case Cautious => 0.42 case Restricted => 0.5 case Suspended => 0.62
  }

  function AggressionCap(mode: Mode): Option<real> {
    match mode
    case Normal => None
    case Cautious => Some(0.82)
    case Restricted => Some(0.66)
    case Suspended => Some(0.45)
  }

  function PositionCap(mode: Mode): Option<real> {
    match mode
    case Normal => None
    case Cautious => Some(0.85)
    case Restricted => Some(0.62)
    case Suspended => Some(0.4)
  }

  function LeverageCap(mode: Mode, fleet: string): Option<real> {
    match mode
    case Normal => None
    case Cautious => Some(20.0)
    case Restricted => Some(if fleet == "PEPE" then 8.0 else 10.0)
    case Suspended => Some(3.0)
  }

  /** The smaller of two caps, where None is no cap at all. */
  function MinCap(a: Option<real>, b: Option<real>): Option<real> {
    if a.None? then b else if b.None? then a else Some(MinR(a.value, b.value))
  }

  function Capped(x: real, cap: Option<real>): real {
    if cap.None? then x else MinR(x, cap.value)
  }

  function Floored(x: real, mode: Mode): real {
    if mode.Normal? then x else MaxR(x, ConfidenceFloor(mode))
  }

  /** What evaluation comes to, as one expression per field. */
  function Adapted(fleet: string, base: Guidance, ctx: Context): Adaptation {
    var pressure := Pressure(ctx, base);
    var mode := ModeFor(pressure, base.pauseNewEntries);
    var confidence := OrElse(base.minConfidence, 0.35);
    Adaptation(
      mode,
      pressure,
      mode in {Restricted, Suspended},
      mode == Suspended,
      Overrides(
        Floored(confidence, mode),
        Capped(OrElse(base.aggression, 1.0), AggressionCap(mode)),
        Capped(OrElse(base.positionSize, 1.0), PositionCap(mode)),
        MinCap(LeverageCap(mode, fleet), base.leverageCap),
        base.blockedRegimes
          + (if ctx.marketRegime in DISLOCATED_REGIMES && mode in {Restricted, Suspended}
             then {ctx.marketRegime} else {})))
  }

  method MeasureMarket(ctx: Context) returns (pressure: nat)
    ensures pressure == MarketPressure(ctx)
  {
    pressure := 0;
    if ctx.slippageRisk == "elevated" { pressure := pressure + 22; }
    if ctx.liquidityStatus != "healthy" { pressure := pressure + 18; }
    if ctx.oiNotionalStatus != "healthy" { pressure := pressure + 16; }
    if ctx.fundingRisk == "elevated" { pressure := pressure + 12; }
    if ctx.basisRisk == "elevated" { pressure := pressure + 12; }
    assert pressure == Weigh(ctx.slippageRisk == "elevated", 22) + Weigh(ctx.liquidityStatus != "healthy", 18)
      + Weigh(ctx.oiNotionalStatus != "healthy", 16) + Weigh(ctx.fundingRisk == "elevated", 12)
      + Weigh(ctx.basisRisk == "elevated", 12);
    if ctx.liquidationRisk == "critical" {
      pressure := pressure + 35;
    } else if ctx.liquidationRisk == "elevated" {
      pressure := pressure + 22;
    }
    if ctx.newsConflict { pressure := pressure + 18; }
    if ctx.whaleConflict { pressure := pressure + 18; }
  }

  method MeasureLosses(base: Guidance) returns (pressure: nat)
    ensures pressure == LossPressure(base)
  {
    pressure := 0;
    if base.lossRate >= 0.6 { pressure := pressure + 15; }
    if base.consecutiveLosses >= 5 {
      pressure := pressure + 35;
    } else if base.consecutiveLosses >= 3 {
      pressure := pressure + 18;
    }
    if base.confidencePenalty >= 0.12 { pressure := pressure + 14; }
    if "bad_market_regime" in base.failureFocus { pressure := pressure + 12; }
    if "low_liquidity" in base.failureFocus { pressure := pressure + 12; }
    if "over_leverage" in base.failureFocus || "confidence_overestimated" in base.failureFocus {
      pressure := pressure + 15;
    }
  }

  method Evaluate(fleet: string, base: Guidance, ctx: Context) returns (a: Adaptation)
    ensures a == Adapted(fleet, base, ctx)
  {
    var market := MeasureMarket(ctx);
    var losses := MeasureLosses(base);
    var pressure := if market + losses > 100 then 100 else market + losses;
    var mode := Normal;
    if base.pauseNewEntries || pressure >= SUSPENDED_PRESSURE {
      mode := Suspended;
    } else if pressure >= RESTRICTED_PRESSURE {
      mode := Restricted;
    } else if pressure >= CAUTIOUS_PRESSURE {
      mode := Cautious;
    }

    var confidence := OrElse(base.minConfidence, 0.35);
    var aggression := OrElse(base.aggression, 1.0);
    var size := OrElse(base.positionSize, 1.0);
    var cap := base.leverageCap;
    var blocked := base.blockedRegimes;
    var review, pause := false, base.pauseNewEntries;
    match mode {
      case Normal =>
      case Cautious =>
        confidence, aggression, size := MaxR(confidence, 0.42), MinR(aggression, 0.82), MinR(size, 0.85);
        cap := Some(if cap.None? then 20.0 else MinR(20.0, cap.value));
      case Restricted =>
        confidence, aggression, size := MaxR(confidence, 0.5), MinR(aggression, 0.66), MinR(size, 0.62);
        var limit := if fleet == "PEPE" then 8.0 else 10.0;
        cap := Some(if cap.None? then limit else MinR(limit, cap.value));
        review := true;
      case Suspended =>
        confidence, aggression, size := MaxR(confidence, 0.62), MinR(aggression, 0.45), MinR(size, 0.4);
        cap := Some(if cap.None? then 3.0 else MinR(3.0, cap.value));
        pause, review := true, true;
    }
    if ctx.marketRegime in DISLOCATED_REGIMES && (mode == Restricted || mode == Suspended) {
      blocked := blocked + {ctx.marketRegime};
    }
    a := Adaptation(mode, pressure, review, pause, Overrides(confidence, aggression, size, cap, blocked));
  }

  // ----- what each signal weighs

  /** From context and guidance `c`, `g` to `d`, `h` the pressure rises by `weight` hundredths, up to 100. */
  predicate Raises(c: Context, g: Guidance, d: Context, h: Guidance, weight: nat) {
    var low, high := Adapted("", g, c).pressure, Adapted("", h, d).pressure;
    high == if low + weight <= 100 then low + weight else 100
  }

  lemma RaisedBy(c: Context, g: Guidance, d: Context, h: Guidance, weight: nat)
    requires MarketPressure(d) + LossPressure(h) == MarketPressure(c) + LossPressure(g) + weight
    ensures Raises(c, g, d, h, weight)
  {
  }

  // Each market risk weighs on its own; `calm` and `weak` are any other readings of a risk and of a status.

  lemma SlippageWeight(c: Context, g: Guidance, calm: string)
    requires calm != "elevated"
    ensures Raises(c.(slippageRisk := calm), g, c.(slippageRisk := "elevated"), g, 22)
  {
    RaisedBy(c.(slippageRisk := calm), g, c.(slippageRisk := "elevated"), g, 22);
  }

  lemma FundingWeight(c: Context, g: Guidance, calm: string)
    requires calm != "elevated"
    ensures Raises(c.(fundingRisk := calm), g, c.(fundingRisk := "elevated"), g, 12)
  {
    RaisedBy(c.(fundingRisk := calm), g, c.(fundingRisk := "elevated"), g, 12);
  }

  lemma BasisWeight(c: Context, g: Guidance, calm: string)
    requires calm != "elevated"
    ensures Raises(c.(basisRisk := calm), g, c.(basisRisk := "elevated"), g, 12)
  {
    RaisedBy(c.(basisRisk := calm), g, c.(basisRisk := "elevated"), g, 12);
  }

  lemma LiquidityWeight(c: Context, g: Guidance, weak: string)
    requires weak != "healthy"
    ensures Raises(c.(liquidityStatus := "healthy"), g, c.(liquidityStatus := weak), g, 18)
  {
    RaisedBy(c.(liquidityStatus := "healthy"), g, c.(liquidityStatus := weak), g, 18);
  }

  lemma OpenInterestWeight(c: Context, g: Guidance, weak: string)
    requires weak != "healthy"
    ensures Raises(c.(oiNotionalStatus := "healthy"), g, c.(oiNotionalStatus := weak), g, 16)
  {
    RaisedBy(c.(oiNotionalStatus := "healthy"), g, c.(oiNotionalStatus := weak), g, 16);
  }

  lemma NewsWeight(c: Context, g: Guidance)
    ensures Raises(c.(newsConflict := false), g, c.(newsConflict := true), g, 18)
  {
    RaisedBy(c.(newsConflict := false), g, c.(newsConflict := true), g, 18);
  }

  lemma WhaleWeight(c: Context, g: Guidance)
    ensures Raises(c.(whaleConflict := false), g, c.(whaleConflict := true), g, 18)
  {
    RaisedBy(c.(whaleConflict := false), g, c.(whaleConflict := true), g, 18);
  }

  lemma LiquidationWeights(c: Context, g: Guidance, calm: string)
    requires calm !in {"elevated", "critical"}
    ensures Raises(c.(liquidationRisk := calm), g, c.(liquidationRisk := "elevated"), g, 22)
    ensures Raises(c.(liquidationRisk := calm), g, c.(liquidationRisk := "critical"), g, 35)
  {
    RaisedBy(c.(liquidationRisk := calm), g, c.(liquidationRisk := "elevated"), g, 22);
    RaisedBy(c.(liquidationRisk := calm), g, c.(liquidationRisk := "critical"), g, 35);
  }

  /** Each figure of the strategy's own record weighs on its own. */
  lemma RecordWeights(c: Context, g: Guidance, low: real, high: real)
    ensures low < 0.6 <= high ==> Raises(c, g.(lossRate := low), c, g.(lossRate := high), 15)
    ensures low < 0.12 <= high ==> Raises(c, g.(confidencePenalty := low), c, g.(confidencePenalty := high), 14)
  {
    if low < 0.6 <= high { RaisedBy(c, g.(lossRate := low), c, g.(lossRate := high), 15); }
    if low < 0.12 <= high { RaisedBy(c, g.(confidencePenalty := low), c, g.(confidencePenalty := high), 14); }
  }

  lemma StreakWeights(c: Context, g: Guidance, few: int, soft: int, hard: int)
    requires few < 3 <= soft < 5 <= hard
    ensures Raises(c, g.(consecutiveLosses := few), c, g.(consecutiveLosses := soft), 18)
    ensures Raises(c, g.(consecutiveLosses := few), c, g.(consecutiveLosses := hard), 35)
  {
    RaisedBy(c, g.(consecutiveLosses := few), c, g.(consecutiveLosses := soft), 18);
    RaisedBy(c, g.(consecutiveLosses := few), c, g.(consecutiveLosses := hard), 35);
  }

  /** So does each failure in focus, except that overreach counts once in its two forms. */
  lemma FocusWeights(c: Context, g: Guidance, overreach: set<string>)
    requires overreach != {} && overreach <= {"over_leverage", "confidence_overestimated"}
    ensures "bad_market_regime" !in g.failureFocus ==>
      Raises(c, g, c, g.(failureFocus := g.failureFocus + {"bad_market_regime"}), 12)
    ensures "low_liquidity" !in g.failureFocus ==>
      Raises(c, g, c, g.(failureFocus := g.failureFocus + {"low_liquidity"}), 12)
    ensures "over_leverage" !in g.failureFocus && "confidence_overestimated" !in g.failureFocus ==>
      Raises(c, g, c, g.(failureFocus := g.failureFocus + overreach), 15)
  {
    var regime, thin, over := g.(failureFocus := g.failureFocus + {"bad_market_regime"}),
                              g.(failureFocus := g.failureFocus + {"low_liquidity"}),
                              g.(failureFocus := g.failureFocus + overreach);
    var word :| word in overreach;
    if "bad_market_regime" !in g.failureFocus { RaisedBy(c, g, c, regime, 12); }
    if "low_liquidity" !in g.failureFocus { RaisedBy(c, g, c, thin, 12); }
    if "over_leverage" !in g.failureFocus && "confidence_overestimated" !in g.failureFocus {
      RaisedBy(c, g, c, over, 15);
    }
  }

  /** No pressure comes from anything else. */
  lemma CalmHasNoPressure(fleet: string, c: Context, g: Guidance)
    requires c.slippageRisk != "elevated" && c.fundingRisk != "elevated" && c.basisRisk != "elevated"
    requires c.liquidityStatus == "healthy" && c.oiNotionalStatus == "healthy"
    requires c.liquidationRisk !in {"elevated", "critical"} && !c.newsConflict && !c.whaleConflict
    requires g.lossRate < 0.6 && g.consecutiveLosses < 3 && g.confidencePenalty < 0.12
    requires g.failureFocus !! {"bad_market_regime", "low_liquidity", "over_leverage", "confidence_overestimated"}
    ensures Adapted(fleet, g, c).pressure == 0
  {
  }

  /** The pressure at which each mode starts, for guidance that is not paused; paused guidance is suspended at any. */
  lemma ModesStart(fleet: string, c: Context, g: Guidance)
    ensures var a := Adapted(fleet, g, c);
      if g.pauseNewEntries then a.mode == Suspended
      else
        && (a.mode == Normal <==> a.pressure < 35)
        && (a.mode == Cautious <==> 35 <= a.pressure < 60)
        && (a.mode == Restricted <==> 60 <= a.pressure < 82)
        && (a.mode == Suspended <==> 82 <= a.pressure)
  {
  }

  /** What a mode binds guidance to that is looser than its caps and free of zeros. */
  ghost predicate Binds(a: Adaptation, floor: real, aggression: real, size: real, leverage: real) {
    && a.overrides.minConfidence == floor && a.overrides.aggression == aggression
    && a.overrides.positionSize == size && a.overrides.leverageCap == Some(leverage)
  }

  /** The caps of each mode, seen on guidance that is looser than all of them. */
  lemma ModesBind(fleet: string, c: Context, g: Guidance)
    requires g.minConfidence <= 0.42 && g.aggression >= 0.82 && g.positionSize >= 0.85
    requires g.leverageCap.Some? ==> g.leverageCap.value >= 20.0
    ensures var a, pepe := Adapted(fleet, g, c), fleet == "PEPE";
      match a.mode
      case Normal =>
        a.overrides.leverageCap == g.leverageCap && a.overrides.aggression == g.aggression
        && a.overrides.positionSize == g.positionSize
        && a.overrides.minConfidence == if g.minConfidence == 0.0 then 0.35 else g.minConfidence
      case Cautious => Binds(a, 0.42, 0.82, 0.85, 20.0)
      case Restricted => Binds(a, 0.5, 0.66, 0.62, if pepe then 8.0 else 10.0)
      case Suspended => Binds(a, 0.62, 0.45, 0.4, 3.0)
  {
  }

  /** Guidance already tighter than the mode keeps its own numbers. */
  lemma TighterGuidanceKept(fleet: string, c: Context, g: Guidance)
    requires g.minConfidence >= 0.62 && 0.0 != g.aggression <= 0.45 && 0.0 != g.positionSize <= 0.4
    requires g.leverageCap.Some? && g.leverageCap.value <= 3.0
    ensures var o := Adapted(fleet, g, c).overrides;
      && o.minConfidence == g.minConfidence && o.aggression == g.aggression
      && o.positionSize == g.positionSize && o.leverageCap == g.leverageCap
  {
  }

  /** A dislocated regime is blocked, and a review asked for, exactly in the two strictest modes. */
  lemma StrictModesBlockAndReview(fleet: string, c: Context, g: Guidance)
    ensures var a := Adapted(fleet, g, c);
      && (a.reviewRequired <==> a.mode in {Restricted, Suspended})
      && (forall r :: r in a.overrides.blockedRegimes <==>
           || r in g.blockedRegimes
           || (r == c.marketRegime && a.mode in {Restricted, Suspended}
               && r in {"thin_liquidity", "high_slippage", "basis_dislocation", "funding_dislocation",
                        "liquidation_risk"}))
  {
  }

  // ----- orders

  /** `d` is a context at least as risky as `c`, in the same regime. */
  ghost predicate Riskier(c: Context, d: Context) {
    && d.marketRegime == c.marketRegime
    && (c.slippageRisk == "elevated" ==> d.slippageRisk == "elevated")
    && (d.liquidityStatus == "healthy" ==> c.liquidityStatus == "healthy")
    && (d.oiNotionalStatus == "healthy" ==> c.oiNotionalStatus == "healthy")
    && (c.fundingRisk == "elevated" ==> d.fundingRisk == "elevated")
    && (c.basisRisk == "elevated" ==> d.basisRisk == "elevated")
    && (c.liquidationRisk == "critical" ==> d.liquidationRisk == "critical")
    && (c.liquidationRisk == "elevated" ==> d.liquidationRisk in {"elevated", "critical"})
    && (c.newsConflict ==> d.newsConflict)
    && (c.whaleConflict ==> d.whaleConflict)
  }

  /** Cap `b` allows no more than cap `a`. */
  ghost predicate CapTightens(a: Option<real>, b: Option<real>) {
    a.Some? ==> b.Some? && b.value <= a.value
  }

  /** `h` records a history at least as bad as `g` and guidance at least as tight. */
  ghost predicate Worse(g: Guidance, h: Guidance) {
    && g.lossRate <= h.lossRate
    && g.consecutiveLosses <= h.consecutiveLosses
    && g.confidencePenalty <= h.confidencePenalty
    && g.failureFocus <= h.failureFocus
    && (g.pauseNewEntries ==> h.pauseNewEntries)
    && g.minConfidence <= h.minConfidence
    && h.aggression <= g.aggression
    && h.positionSize <= g.positionSize
    && CapTightens(g.leverageCap, h.leverageCap)
    && g.blockedRegimes <= h.blockedRegimes
  }

  /** `b` restricts at least as much as `a` in every respect. */
  ghost predicate Tighter(a: Adaptation, b: Adaptation) {
    && a.mode.Rank() <= b.mode.Rank()
    && a.pressure <= b.pressure
    && (a.reviewRequired ==> b.reviewRequired)
    && (a.pauseNewEntries ==> b.pauseNewEntries)
    && a.overrides.minConfidence <= b.overrides.minConfidence
    && b.overrides.aggression <= a.overrides.aggression
    && b.overrides.positionSize <= a.overrides.positionSize
    && CapTightens(a.overrides.leverageCap, b.overrides.leverageCap)
    && a.overrides.blockedRegimes <= b.overrides.blockedRegimes
  }

  lemma PressureMonotone(c: Context, d: Context, g: Guidance, h: Guidance)
    requires Riskier(c, d) && Worse(g, h)
    ensures Pressure(c, g) <= Pressure(d, h)
  {
    assert Weigh(c.slippageRisk == "elevated", 22) <= Weigh(d.slippageRisk == "elevated", 22);
    assert Weigh(c.liquidityStatus != "healthy", 18) <= Weigh(d.liquidityStatus != "healthy", 18);
    assert Weigh(c.oiNotionalStatus != "healthy", 16) <= Weigh(d.oiNotionalStatus != "healthy", 16);
    assert LiquidationWeight(c.liquidationRisk) <= LiquidationWeight(d.liquidationRisk);
    assert MarketPressure(c) <= MarketPressure(d);
    assert LossPressure(g) <= LossPressure(h);
  }

  /** Of two multipliers, zero read as 1, the smaller stays the smaller: it is no zero that hides a small other one. */
  predicate MultiplierStaysTighter(looser: real, tighter: real, cap: Option<real>) {
    tighter != 0.0 || looser == 0.0 || looser >= Capped(1.0, cap)
  }

  /** Of two thresholds, zero read as 0.35, the larger stays the larger. */
  predicate ThresholdStaysTighter(looser: real, tighter: real, mode: Mode) {
    looser != 0.0 || tighter == 0.0 || tighter >= 0.35 || mode != Normal
  }

  /**
   * Main result: more risk, a worse record and tighter guidance never give a milder outcome, exactly when no zero that
   * is read as a default turns the order of a multiplier or of the confidence threshold around.
   */
  lemma AdaptationMonotoneIff(fleet: string, c: Context, d: Context, g: Guidance, h: Guidance)
    requires Riskier(c, d) && Worse(g, h)
    ensures var mode := Adapted(fleet, h, d).mode;
      Tighter(Adapted(fleet, g, c), Adapted(fleet, h, d)) <==>
        && MultiplierStaysTighter(g.aggression, h.aggression, AggressionCap(mode))
        && MultiplierStaysTighter(g.positionSize, h.positionSize, PositionCap(mode))
        && ThresholdStaysTighter(g.minConfidence, h.minConfidence, mode)
  {
    PressureMonotone(c, d, g, h);
    var m, n := Adapted(fleet, g, c).mode, Adapted(fleet, h, d).mode;
    assert m.Rank() <= n.Rank();
    CapsTighten(fleet, m, n);
    CappedTightensIff(g.aggression, h.aggression, AggressionCap(m), AggressionCap(n));
    CappedTightensIff(g.positionSize, h.positionSize, PositionCap(m), PositionCap(n));
    FloorTightensIff(g.minConfidence, h.minConfidence, m, n);
    MinCapMonotone(LeverageCap(m, fleet), LeverageCap(n, fleet), g.leverageCap, h.leverageCap);
  }

  /** In particular when the numbers that a default would replace are not zero. */
  lemma AdaptationMonotone(fleet: string, c: Context, d: Context, g: Guidance, h: Guidance)
    requires Riskier(c, d) && Worse(g, h)
    requires h.aggression != 0.0 && h.positionSize != 0.0 && g.minConfidence != 0.0
    ensures Tighter(Adapted(fleet, g, c), Adapted(fleet, h, d))
  {
    AdaptationMonotoneIff(fleet, c, d, g, h);
  }

  lemma CappedTightensIff(x: real, y: real, a: Option<real>, b: Option<real>)
    requires y <= x && CapTightens(a, b) && (a.Some? ==> a.value <= 1.0)
    ensures Capped(OrElse(y, 1.0), b) <= Capped(OrElse(x, 1.0), a) <==> MultiplierStaysTighter(x, y, b)
  {
  }

  lemma FloorTightensIff(x: real, y: real, m: Mode, n: Mode)
    requires x <= y && m.Rank() <= n.Rank()
    ensures Floored(OrElse(x, 0.35), m) <= Floored(OrElse(y, 0.35), n) <==> ThresholdStaysTighter(x, y, n)
  {
  }

  lemma MinCapMonotone(a: Option<real>, b: Option<real>, x: Option<real>, y: Option<real>)
    requires CapTightens(a, b) && CapTightens(x, y)
    ensures CapTightens(MinCap(a, x), MinCap(b, y))
  {
  }

  lemma CapsTighten(fleet: string, m: Mode, n: Mode)
    requires m.Rank() <= n.Rank()
    ensures ConfidenceFloor(m) <= ConfidenceFloor(n)
    ensures CapTightens(AggressionCap(m), AggressionCap(n))
    ensures CapTightens(PositionCap(m), PositionCap(n))
    ensures CapTightens(LeverageCap(m, fleet), LeverageCap(n, fleet))
  {
  }

  /** A concrete failure: a zero multiplier, the tightest there is, is read as 1. */
  lemma ZeroMultiplierLoosens(fleet: string, c: Context)
    requires MarketPressure(c) == 0
    ensures exists g: Guidance, h: Guidance ::
      Worse(g, h) && !Tighter(Adapted(fleet, g, c), Adapted(fleet, h, c))
  {
    var g := Guidance(0.0, 0, 0.0, {}, false, 0.4, 0.5, 0.5, None, {});
    var h := g.(aggression := 0.0);
    assert Worse(g, h);
    assert Adapted(fleet, h, c).overrides.aggression == 1.0;
  }

  /**
   * The overrides are at least as tight as the base guidance, each multiplier exactly when it is not zero.
   * Entries are paused exactly in suspended mode, so an existing pause is never lost.
   */
  lemma OverridesTightenBase(fleet: string, base: Guidance, ctx: Context)
    ensures var a := Adapted(fleet, base, ctx);
      && a.pressure <= 100
      && (a.pauseNewEntries <==> a.mode == Suspended)
      && (base.pauseNewEntries ==> a.pauseNewEntries)
      && (a.mode == Suspended <==> base.pauseNewEntries || MarketPressure(ctx) + LossPressure(base) >= 82)
      && base.minConfidence <= a.overrides.minConfidence
      && (a.overrides.aggression <= base.aggression <==> base.aggression != 0.0)
      && (a.overrides.positionSize <= base.positionSize <==> base.positionSize != 0.0)
      && CapTightens(base.leverageCap, a.overrides.leverageCap)
      && base.blockedRegimes <= a.overrides.blockedRegimes
  {
  }
}
