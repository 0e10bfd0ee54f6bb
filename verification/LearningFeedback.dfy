/** Calibration buckets and the guidance composed from them. */
module LearningFeedback {
  import opened Common
  import opened StrategyAdaptation

  datatype Outcome = Win | Loss | Flat

  /** A stored trade result; `age` is the time in seconds since its timestamp, None if that cannot be parsed. */
  datatype Trade = Trade(
    outcome: Outcome,
    leverage: real,
    failureReason: string,
    marketRegime: string,
    symbol: string,
    age: Option<int>,
    today: bool)

  datatype Cooldown = Cooldown(lossCount: nat, active: bool)

  datatype Settings = Settings(softBlock: nat, hardBlock: nat, hardPause: bool)

  /** One fleet's or strategy's calibration. */
  datatype Adjustment = Adjustment(
    lossRate: real,
    consecutiveLosses: nat,
    penalty: real,
    leverageCap: Option<real>,
    blockedRegimes: set<string>,
    pauseNewEntries: bool,
    aggression: real,
    positionSize: real,
    minConfidence: real,
    failureFocus: set<string>,
    cooldown: map<string, Cooldown>)

  const COOLDOWN_LOSSES: nat := 3
  const COOLDOWN_WINDOW: nat := 6
  const COOLDOWN_SECONDS := 21600
  const LIQUIDATION_COOLDOWN_SECONDS := 14400

  // ----- one bucket, newest trade first

  function Losses(items: seq<Trade>): nat {
    if items == [] then 0 else Losses(items[..|items| - 1]) + if items[|items| - 1].outcome == Loss then 1 else 0
  }

  /** The current losing streak: everything before it is a loss, and it cannot be longer. */
  ghost predicate IsStreak(items: seq<Trade>, n: nat) {
    && n <= |items|
    && (forall i :: 0 <= i < n ==> items[i].outcome == Loss)
    && (n < |items| ==> items[n].outcome != Loss)
  }

  method ConsecutiveLosses(items: seq<Trade>) returns (count: nat)
    ensures IsStreak(items, count)
  {
    count := 0;
    while count < |items| && items[count].outcome == Loss
      invariant count <= |items|
      invariant forall i :: 0 <= i < count ==> items[i].outcome == Loss
    {
      count := count + 1;
    }
  }

  function Newest(items: seq<Trade>, n: nat): seq<Trade> {
    if |items| > n then items[..n] else items
  }

  function HighLeverageLosses(recent: seq<Trade>): nat {
    if recent == [] then 0
    else
      HighLeverageLosses(recent[1..]) + if recent[0].outcome == Loss && recent[0].leverage >= 20.0 then 1 else 0
  }

  predicate Overconfident(recent: seq<Trade>) {
    exists t :: t in recent && t.failureReason in {"confidence_overestimated", "false_signal_high_leverage"}
  }

  predicate OverLeveraged(recent: seq<Trade>) {
    exists t :: t in recent && t.failureReason == "over_leverage"
  }

  function Penalty(lossRate: real, streak: nat, cfg: Settings, overconfident: bool, highLeverage: nat): real {
    MinR(0.4,
      (if lossRate >= 0.55 then 0.03 else 0.0)
      + (if streak >= 2 then 0.05 else 0.0)
      + (if streak >= cfg.softBlock then 0.05 else 0.0)
      + (if overconfident then 0.05 else 0.0)
      + MinR(0.15, highLeverage as real * 0.03))
  }

  function StreakCap(streak: nat, cfg: Settings, overLeveraged: bool, highLeverage: nat, fleet: string): Option<real> {
    var cap :=
      if streak >= cfg.hardBlock then Some(if cfg.hardPause then 0.0 else 3.0)
      else if streak >= cfg.softBlock then Some(3.0)
      else if overLeveraged then Some(10.0)
      else if highLeverage > 0 then Some(20.0)
      else None;
    if fleet == "PEPE" then Some(if cap.None? then 20.0 else MinR(cap.value, 20.0)) else cap
  }

  lemma PenaltyWithin(lossRate: real, streak: nat, cfg: Settings, overconfident: bool, highLeverage: nat)
    ensures 0.0 <= Penalty(lossRate, streak, cfg, overconfident, highLeverage) <= 0.33
  {
  }

  /** A pause comes from a hard-block streak and nothing else; any blocking streak leaves leverage at 3 or less. */
  lemma StreakCapFacts(streak: nat, cfg: Settings, overLeveraged: bool, highLeverage: nat, fleet: string)
    ensures var cap := StreakCap(streak, cfg, overLeveraged, highLeverage, fleet);
      && (cap == Some(0.0) <==> cfg.hardPause && streak >= cfg.hardBlock)
      && (fleet == "PEPE" ==> cap.Some? && cap.value <= 20.0)
      && (streak >= cfg.softBlock || streak >= cfg.hardBlock ==> cap.Some? && cap.value <= 3.0)
  {
  }

  function RegimeLosses(items: seq<Trade>, regime: string): nat {
    if items == [] then 0
    else
      RegimeLosses(items[1..], regime)
      + if items[0].outcome == Loss && items[0].marketRegime == regime then 1 else 0
  }

  function BlockedRegimes(items: seq<Trade>): set<string> {
    set t | t in items
      && t.marketRegime !in {"", "normal", "unknown", "hq_spot"} && RegimeLosses(items, t.marketRegime) >= 3
      :: t.marketRegime
  }

  // ----- symbol cooldowns

  function SymbolName(t: Trade): string {
    if t.symbol == "" then "UNKNOWN" else t.symbol
  }

  /** The losses booked under one symbol, newest first. */
  function SymbolLosses(items: seq<Trade>, symbol: string): seq<Trade> {
    if items == [] then []
    else
      var before := SymbolLosses(items[..|items| - 1], symbol);
      var t := items[|items| - 1];
      if t.outcome == Loss && SymbolName(t) == symbol then before + [t] else before
  }

  predicate Recent(t: Trade) {
    t.age.Some? && (t.age.value <= COOLDOWN_SECONDS || t.today)
  }

  predicate Liquidated(t: Trade) {
    && t.outcome == Loss && t.failureReason == "exchange_liquidation" && t.symbol != ""
    && t.age.Some? && t.age.value <= LIQUIDATION_COOLDOWN_SECONDS
  }

  /** When a symbol must be cooling down: repeated losses with a recent last one, or a recent liquidation. */
  ghost predicate MustCool(items: seq<Trade>, symbol: string) {
    || (|SymbolLosses(items, symbol)| >= COOLDOWN_LOSSES && Recent(SymbolLosses(items, symbol)[0]))
    || exists t :: t in items && Liquidated(t) && Upper(t.symbol) == symbol
  }

  predicate Active(cooldown: map<string, Cooldown>, symbol: string) {
    symbol in cooldown && cooldown[symbol].active
  }

  method GroupLosses(items: seq<Trade>) returns (losses: map<string, seq<Trade>>)
    ensures forall s :: (if s in losses then losses[s] else []) == SymbolLosses(items, s)
  {
    losses := map[];
    for i := 0 to |items|
      invariant forall s :: (if s in losses then losses[s] else []) == SymbolLosses(items[..i], s)
    {
      assert items[..i + 1][..i] == items[..i];
      var t := items[i];
      if t.outcome == Loss {
        var s := SymbolName(t);
        losses := losses[s := (if s in losses then losses[s] else []) + [t]];
      }
    }
    assert items[..|items|] == items;
  }

  /** Some trade among the first `n` liquidated this symbol recently. */
  ghost predicate LiquidatedBy(items: seq<Trade>, n: nat, symbol: string)
    requires n <= |items|
  {
    exists j :: 0 <= j < n && Liquidated(items[j]) && Upper(items[j].symbol) == symbol
  }

  /** The entry of a symbol after its repeated losses and the liquidations among the first `n` trades. */
  ghost function CooldownOf(items: seq<Trade>, n: nat, symbol: string): Option<Cooldown>
    requires n <= |items|
  {
    var losses := SymbolLosses(items, symbol);
    var repeated := |losses| >= COOLDOWN_LOSSES;
    var count := if repeated then |Newest(losses, COOLDOWN_WINDOW)| else 1;
    if LiquidatedBy(items, n, symbol) then Some(Cooldown(count, true))
    else if repeated then Some(Cooldown(count, Recent(losses[0])))
    else None
  }

  function Lookup(m: map<string, Cooldown>, key: string): Option<Cooldown> {
    if key in m then Some(m[key]) else None
  }

  method RepeatCooldowns(items: seq<Trade>) returns (cooldown: map<string, Cooldown>)
    ensures forall s :: Lookup(cooldown, s) == CooldownOf(items, 0, s)
  {
    var losses := GroupLosses(items);
    cooldown := map s | s in losses && |losses[s]| >= COOLDOWN_LOSSES
      :: Cooldown(|Newest(losses[s], COOLDOWN_WINDOW)|, Recent(losses[s][0]));
    forall s ensures Lookup(cooldown, s) == CooldownOf(items, 0, s) {
      assert (if s in losses then losses[s] else []) == SymbolLosses(items, s);
    }
  }

  method SymbolCooldowns(items: seq<Trade>) returns (cooldown: map<string, Cooldown>)
    ensures forall s :: Lookup(cooldown, s) == CooldownOf(items, |items|, s)
  {
    cooldown := RepeatCooldowns(items);
    for i := 0 to |items|
      invariant forall s :: Lookup(cooldown, s) == CooldownOf(items, i, s)
    {
      ghost var before := cooldown;
      if Liquidated(items[i]) {
        var s := Upper(items[i].symbol);
        var count := if s in cooldown then cooldown[s].lossCount else 0;
        cooldown := cooldown[s := Cooldown(MaxNat(count, 1), true)];
      }
      forall s ensures Lookup(cooldown, s) == CooldownOf(items, i + 1, s) {
        assert Lookup(before, s) == CooldownOf(items, i, s);
        LiquidatedNext(items, i, s);
      }
    }
  }

  lemma LiquidatedNext(items: seq<Trade>, i: nat, symbol: string)
    requires i < |items|
    ensures LiquidatedBy(items, i + 1, symbol) <==>
      LiquidatedBy(items, i, symbol) || (Liquidated(items[i]) && Upper(items[i].symbol) == symbol)
  {
  }

  /** A symbol cools down exactly after repeated losses with a recent last one, or a recent liquidation. */
  lemma CoolsExactly(items: seq<Trade>, cooldown: map<string, Cooldown>, symbol: string)
    requires Lookup(cooldown, symbol) == CooldownOf(items, |items|, symbol)
    ensures Active(cooldown, symbol) <==> MustCool(items, symbol)
  {
  }

  // ----- the bucket summary

  /** What every computed adjustment satisfies; in particular no multiplier is ever zero. */
  ghost predicate WellFormed(a: Adjustment) {
    && 0.0 <= a.penalty <= 0.33
    && 0.47 <= a.aggression <= 1.0
    && 0.37 <= a.positionSize <= 1.0
    && 0.35 <= a.minConfidence <= 0.54
    && (a.pauseNewEntries <==> a.leverageCap == Some(0.0))
  }

  ghost predicate IsLossRate(items: seq<Trade>, rate: real) {
    rate * |items| as real == Losses(items) as real
  }

  method LossRate(items: seq<Trade>) returns (rate: real)
    requires items != []
    ensures IsLossRate(items, rate)
  {
    rate := Losses(items) as real / |items| as real;
  }

  /** The configured floors and ceilings never bind: all three multipliers are linear in the penalty. */
  method Multipliers(penalty: real) returns (aggression: real, positionSize: real, minConfidence: real)
    requires 0.0 <= penalty <= 0.33
    ensures aggression == 1.0 - 1.6 * penalty
    ensures positionSize == 1.0 - 1.9 * penalty
    ensures minConfidence == 0.35 + 0.55 * penalty
  {
    aggression := MaxR(0.45, 1.0 - penalty * 1.6);
    positionSize := MaxR(0.35, 1.0 - penalty * 1.9);
    minConfidence := MinR(0.62, 0.35 + penalty * 0.55);
  }

  method SummarizeBucket(items: seq<Trade>, fleet: string, cfg: Settings, focus: set<string>)
      returns (a: Adjustment)
    requires items != []
    ensures WellFormed(a)
    ensures IsStreak(items, a.consecutiveLosses)
    ensures a.pauseNewEntries <==> cfg.hardPause && a.consecutiveLosses >= cfg.hardBlock
    ensures fleet == "PEPE" ==> a.leverageCap.Some? && a.leverageCap.value <= 20.0
    ensures a.consecutiveLosses >= cfg.softBlock || a.consecutiveLosses >= cfg.hardBlock ==>
      a.leverageCap.Some? && a.leverageCap.value <= 3.0
    ensures IsLossRate(items, a.lossRate)
    ensures a.penalty == Penalty(a.lossRate, a.consecutiveLosses, cfg, Overconfident(Newest(items, 5)),
                                 HighLeverageLosses(Newest(items, 10)))
    ensures a.aggression == 1.0 - 1.6 * a.penalty
    ensures a.positionSize == 1.0 - 1.9 * a.penalty
    ensures a.minConfidence == 0.35 + 0.55 * a.penalty
    ensures a.leverageCap == StreakCap(a.consecutiveLosses, cfg, OverLeveraged(Newest(items, 5)),
                                       HighLeverageLosses(Newest(items, 10)), fleet)
    ensures a.blockedRegimes == BlockedRegimes(items)
    ensures forall s :: Lookup(a.cooldown, s) == CooldownOf(items, |items|, s)
    ensures a.failureFocus == focus
  {
    var streak := ConsecutiveLosses(items);
    var lossRate := LossRate(items);
    var recent := Newest(items, 10);
    assert Newest(recent, 5) == Newest(items, 5);
    var high := HighLeverageLosses(recent);
    var overconfident, overLeveraged := Overconfident(Newest(recent, 5)), OverLeveraged(Newest(recent, 5));
    PenaltyWithin(lossRate, streak, cfg, overconfident, high);
    var penalty := Penalty(lossRate, streak, cfg, overconfident, high);
    StreakCapFacts(streak, cfg, overLeveraged, high, fleet);
    var cap := StreakCap(streak, cfg, overLeveraged, high, fleet);
    var aggression, positionSize, minConfidence := Multipliers(penalty);
    var cooldown := SymbolCooldowns(items);
    a := Adjustment(
      lossRate, streak, penalty, cap, BlockedRegimes(items), cap == Some(0.0),
      aggression, positionSize, minConfidence, focus, cooldown);
  }

  // ----- guidance

  datatype Guided = Guided(
    lossRate: real,
    consecutiveLosses: nat,
    penalty: real,
    leverageCap: Option<real>,
    blockedRegimes: set<string>,
    pauseNewEntries: bool,
    regimeBlocked: bool,
    aggression: real,
    positionSize: real,
    minConfidence: real,
    failureFocus: set<string>,
    cooldown: map<string, Cooldown>)

  /** A learning patch; a zero size multiplier is the absent one. */
  datatype Patch = Patch(penalty: real, leverageCap: Option<real>, positionSize: real)

  datatype Flags = Flags(boldTestnet: bool, revenueGrowth: bool, sandbox: bool)

  /** A missing bucket reads as these defaults. */
  const NO_ADJUSTMENT := Adjustment(0.0, 0, 0.0, None, {}, false, 1.0, 1.0, 0.35, {}, map[])

  predicate Hits(regime: string, blocked: set<string>) {
    regime != "" && regime in blocked
  }

  /** The strategy's entry counts where the fleet has none, or where it is active. */
  function MergedCooldown(fleet: map<string, Cooldown>, strategy: map<string, Cooldown>): map<string, Cooldown> {
    map s | s in fleet.Keys + strategy.Keys ::
      if s in strategy && (s !in fleet || strategy[s].active) then strategy[s] else fleet[s]
  }

  /** A symbol is active after the merge exactly when either bucket has it active. */
  lemma MergeLosesNoCooldown(fleet: map<string, Cooldown>, strategy: map<string, Cooldown>, symbol: string)
    ensures Active(MergedCooldown(fleet, strategy), symbol) <==> Active(fleet, symbol) || Active(strategy, symbol)
  {
  }

  method MergeCooldowns(fleet: map<string, Cooldown>, strategy: map<string, Cooldown>)
      returns (merged: map<string, Cooldown>)
    ensures merged == MergedCooldown(fleet, strategy)
  {
    merged := fleet;
    var todo := strategy.Keys;
    ghost var done := {};
    while todo != {}
      invariant done + todo == strategy.Keys && done !! todo
      invariant merged.Keys == fleet.Keys + done
      invariant forall s :: s in merged ==>
        merged[s] == (if s in done && (s !in fleet || strategy[s].active) then strategy[s] else fleet[s])
      decreases todo
    {
      var s :| s in todo;
      if s !in merged || strategy[s].active {
        merged := merged[s := strategy[s]];
      }
      todo := todo - {s};
      done := done + {s};
    }
  }

  function MaxNat(a: nat, b: nat): nat {
    if a > b then a else b
  }

  function Merged(f: Adjustment, s: Adjustment, regime: string): Guided {
    var blocked := f.blockedRegimes + s.blockedRegimes;
    Guided(
      f.lossRate,
      MaxNat(f.consecutiveLosses, s.consecutiveLosses),
      MinR(0.32, f.penalty + s.penalty),
      MinCap(f.leverageCap, s.leverageCap),
      blocked,
      f.pauseNewEntries || s.pauseNewEntries,
      Hits(regime, blocked),
      MinR(OrElse(f.aggression, 1.0), OrElse(s.aggression, 1.0)),
      MinR(OrElse(f.positionSize, 1.0), OrElse(s.positionSize, 1.0)),
      MaxR(OrElse(f.minConfidence, 0.35), OrElse(s.minConfidence, 0.35)),
      f.failureFocus + s.failureFocus,
      MergedCooldown(f.cooldown, s.cooldown))
  }

  function BaseOf(g: Guided): Guidance {
    Guidance(g.lossRate, g.consecutiveLosses, g.penalty, g.failureFocus, g.pauseNewEntries,
             g.minConfidence, g.aggression, g.positionSize, g.leverageCap, g.blockedRegimes)
  }

  function WithAdaptation(g: Guided, a: Adaptation, regime: string): Guided {
    var o := a.overrides;
    var blocked := g.blockedRegimes + o.blockedRegimes;
    var pause := g.pauseNewEntries || a.pauseNewEntries;
    g.(penalty := MinR(0.45, g.penalty + (a.pressure as real / 100.0) * 0.08),
       leverageCap := MinCap(g.leverageCap, o.leverageCap),
       blockedRegimes := blocked,
       pauseNewEntries := pause,
       regimeBlocked := Hits(regime, blocked) || pause,
       aggression := MinR(OrElse(g.aggression, 1.0), OrElse(o.aggression, 1.0)),
       positionSize := MinR(OrElse(g.positionSize, 1.0), OrElse(o.positionSize, 1.0)),
       minConfidence := MaxR(OrElse(g.minConfidence, 0.35), OrElse(o.minConfidence, 0.35)))
  }

  function WithPatch(g: Guided, p: Patch): Guided {
    g.(penalty := if p.penalty == 0.0 then g.penalty else MinR(0.45, g.penalty + p.penalty),
       leverageCap := MinCap(g.leverageCap, p.leverageCap),
       positionSize :=
         if p.positionSize == 0.0 then g.positionSize else MinR(OrElse(g.positionSize, 1.0), p.positionSize))
  }

  function WithPatches(g: Guided, patches: seq<Patch>): Guided {
    if patches == [] then g else WithPatch(WithPatches(g, patches[..|patches| - 1]), patches[|patches| - 1])
  }

  function FirstFive(patches: seq<Patch>): seq<Patch> {
    if |patches| > 5 then patches[..5] else patches
  }

  method ApplyPatches(g: Guided, patches: seq<Patch>) returns (out: Guided)
    ensures out == WithPatches(g, FirstFive(patches))
  {
    out := g;
    var applied := FirstFive(patches);
    for i := 0 to |applied|
      invariant out == WithPatches(g, applied[..i])
    {
      assert applied[..i + 1][..i] == applied[..i];
      var p := applied[i];
      if p.penalty != 0.0 { out := out.(penalty := MinR(0.45, out.penalty + p.penalty)); }
      if p.leverageCap.Some? {
        var cap := p.leverageCap.value;
        out := out.(leverageCap := Some(if out.leverageCap.Some? then MinR(out.leverageCap.value, cap) else cap));
      }
      if p.positionSize != 0.0 {
        out := out.(positionSize := MinR(OrElse(out.positionSize, 1.0), p.positionSize));
      }
    }
    assert applied[..|applied|] == applied;
  }

  /** The soft modes may reopen a pause, and give a closed or absent leverage cap the value 10 when they do. */
  function Reopened(g: Guided, flags: Flags, regime: string): Guided {
    if (flags.boldTestnet || flags.revenueGrowth) && g.pauseNewEntries then
      g.(pauseNewEntries := false,
         regimeBlocked := Hits(regime, g.blockedRegimes),
         leverageCap := if g.leverageCap.None? || g.leverageCap.value <= 0.0 then Some(10.0) else g.leverageCap)
    else g
  }

  function Sandboxed(g: Guided, flags: Flags, regime: string): Guided {
    if flags.sandbox then g.(pauseNewEntries := false, regimeBlocked := Hits(regime, g.blockedRegimes)) else g
  }

  /** Each stage of the composition, for one fleet and strategy. */
  datatype Stages = Stages(merged: Guided, adapted: Guided, patched: Guided, final: Guided)

  method GetStrategyGuidance(
      fleet: string, fleetBucket: Option<Adjustment>, strategyBucket: Option<Adjustment>,
      regime: string, ctx: Context, patches: seq<Patch>, flags: Flags)
      returns (stages: Stages)
    ensures Composed(stages, fleet, fleetBucket.GetOr(NO_ADJUSTMENT), strategyBucket.GetOr(NO_ADJUSTMENT),
                     regime, ctx, patches, flags)
  {
    var f, s := fleetBucket.GetOr(NO_ADJUSTMENT), strategyBucket.GetOr(NO_ADJUSTMENT);
    var cooldown := MergeCooldowns(f.cooldown, s.cooldown);
    var merged := Merged(f, s, regime).(cooldown := cooldown);
    var adaptation := Evaluate(fleet, BaseOf(merged), ctx);
    var adapted := WithAdaptation(merged, adaptation, regime);
    var patched := ApplyPatches(adapted, patches);
    var final := ApplySoftModes(patched, flags, regime);
    stages := Stages(merged, adapted, patched, final);
  }

  method ApplySoftModes(g: Guided, flags: Flags, regime: string) returns (out: Guided)
    ensures out == Sandboxed(Reopened(g, flags, regime), flags, regime)
  {
    out := g;
    if (flags.boldTestnet || flags.revenueGrowth) && out.pauseNewEntries {
      out := out.(pauseNewEntries := false, regimeBlocked := Hits(regime, out.blockedRegimes));
      if out.leverageCap.None? || out.leverageCap.value <= 0.0 {
        out := out.(leverageCap := Some(10.0));
      }
    }
    if flags.sandbox {
      out := out.(pauseNewEntries := false, regimeBlocked := Hits(regime, out.blockedRegimes));
    }
  }

  ghost predicate Composed(
    st: Stages, fleet: string, f: Adjustment, s: Adjustment, regime: string, ctx: Context,
    patches: seq<Patch>, flags: Flags)
  {
    && st.merged == Merged(f, s, regime)
    && st.adapted == WithAdaptation(st.merged, Adapted(fleet, BaseOf(st.merged), ctx), regime)
    && st.patched == WithPatches(st.adapted, FirstFive(patches))
    && st.final == Sandboxed(Reopened(st.patched, flags, regime), flags, regime)
  }

  // ----- composition only tightens

  /** `b` is at least as tight as `a`. */
  ghost predicate Tightens(a: Guided, b: Guided) {
    && a.penalty <= b.penalty
    && CapTightens(a.leverageCap, b.leverageCap)
    && b.aggression <= a.aggression
    && b.positionSize <= a.positionSize
    && a.minConfidence <= b.minConfidence
    && a.blockedRegimes <= b.blockedRegimes
    && (a.pauseNewEntries ==> b.pauseNewEntries)
    && b.cooldown == a.cooldown
  }

  ghost predicate TightensBucket(a: Adjustment, g: Guided) {
    && CapTightens(a.leverageCap, g.leverageCap)
    && g.aggression <= a.aggression
    && g.positionSize <= a.positionSize
    && a.minConfidence <= g.minConfidence
    && a.blockedRegimes <= g.blockedRegimes
    && (a.pauseNewEntries ==> g.pauseNewEntries)
    && (forall s :: Active(a.cooldown, s) ==> Active(g.cooldown, s))
  }

  ghost predicate Sane(a: Adjustment) {
    WellFormed(a) || a == NO_ADJUSTMENT
  }

  ghost predicate NonNegative(patches: seq<Patch>) {
    forall p :: p in patches ==> p.penalty >= 0.0
  }

  lemma {:induction false} PatchesTighten(g: Guided, patches: seq<Patch>)
    requires NonNegative(patches) && g.penalty <= 0.45 && g.positionSize != 0.0
    ensures var out := WithPatches(g, patches);
      && Tightens(g, out)
      && out.penalty <= 0.45 && out.positionSize != 0.0
      && out.pauseNewEntries == g.pauseNewEntries && out.blockedRegimes == g.blockedRegimes
      && out.regimeBlocked == g.regimeBlocked
  {
    if patches != [] { PatchesTighten(g, patches[..|patches| - 1]); }
  }

  /**
   * Main result: from computed buckets and non-negative patches, every stage up to the soft modes only tightens,
   * the penalty stays within 0.45, and no active symbol cooldown of either bucket is lost, then or later.
   */
  lemma StagesTighten(
    st: Stages, fleet: string, f: Adjustment, s: Adjustment, regime: string, ctx: Context,
    patches: seq<Patch>, flags: Flags)
    requires Composed(st, fleet, f, s, regime, ctx, patches, flags)
    requires Sane(f) && Sane(s) && NonNegative(patches)
    ensures TightensBucket(f, st.merged) && TightensBucket(s, st.merged)
    ensures Tightens(st.merged, st.adapted)
    ensures Tightens(st.adapted, st.patched)
    ensures st.merged.penalty <= 0.32 && st.patched.penalty <= 0.45 && st.final.penalty == st.patched.penalty
    ensures st.final.cooldown == st.merged.cooldown
  {
    assert st.merged.aggression > 0.0 && st.merged.positionSize > 0.0;
    forall sym { MergeLosesNoCooldown(f.cooldown, s.cooldown, sym); }
    var a := Adapted(fleet, BaseOf(st.merged), ctx);
    AdaptedSign(fleet, BaseOf(st.merged), ctx);
    assert Tightens(st.merged, st.adapted);
    PatchesTighten(st.adapted, FirstFive(patches));
  }

  lemma AdaptedSign(fleet: string, base: Guidance, ctx: Context)
    requires base.aggression > 0.0 && base.positionSize > 0.0
    ensures var o := Adapted(fleet, base, ctx).overrides;
      0.0 < o.aggression <= base.aggression && 0.0 < o.positionSize <= base.positionSize
  {
  }

  /** On every exit path the regime counts as blocked exactly when it is listed or entries are paused. */
  lemma RegimeBlockedExactly(
    st: Stages, fleet: string, f: Adjustment, s: Adjustment, regime: string, ctx: Context,
    patches: seq<Patch>, flags: Flags)
    requires Composed(st, fleet, f, s, regime, ctx, patches, flags)
    ensures st.final.regimeBlocked <==> Hits(regime, st.final.blockedRegimes) || st.final.pauseNewEntries
    ensures st.final.blockedRegimes == st.adapted.blockedRegimes
    ensures st.final.pauseNewEntries ==> st.adapted.pauseNewEntries
    ensures st.final.leverageCap != st.patched.leverageCap ==>
      && st.adapted.pauseNewEntries && (flags.boldTestnet || flags.revenueGrowth)
      && st.final.leverageCap == Some(10.0)
  {
    PatchesKeepBlocks(st.adapted, FirstFive(patches));
  }

  lemma {:induction false} PatchesKeepBlocks(g: Guided, patches: seq<Patch>)
    ensures var out := WithPatches(g, patches);
      && out.pauseNewEntries == g.pauseNewEntries && out.blockedRegimes == g.blockedRegimes
      && out.regimeBlocked == g.regimeBlocked
  {
    if patches != [] { PatchesKeepBlocks(g, patches[..|patches| - 1]); }
  }

  // ----- what each stage does exactly

  /** Any of the modes that lift a generic pause. */
  predicate Softened(flags: Flags) {
    flags.boldTestnet || flags.revenueGrowth || flags.sandbox
  }

  /**
   * The soft modes reopen every pause and nothing else: a pause is left exactly when no mode is on. Only the bold and
   * revenue modes touch the leverage cap, only with a pause, and only one that is absent or allows nothing.
   */
  lemma SoftModesReopenExactly(
    st: Stages, fleet: string, f: Adjustment, s: Adjustment, regime: string, ctx: Context,
    patches: seq<Patch>, flags: Flags)
    requires Composed(st, fleet, f, s, regime, ctx, patches, flags)
    ensures st.final.pauseNewEntries <==> st.patched.pauseNewEntries && !Softened(flags)
    ensures (flags.boldTestnet || flags.revenueGrowth) && st.patched.pauseNewEntries ==>
      && (st.final.leverageCap == Some(10.0) <==>
           st.patched.leverageCap.None? || st.patched.leverageCap.value <= 0.0 || st.patched.leverageCap.value == 10.0)
      && (st.final.leverageCap != Some(10.0) ==> st.final.leverageCap == st.patched.leverageCap)
    ensures !(flags.boldTestnet || flags.revenueGrowth) || !st.patched.pauseNewEntries ==>
      st.final.leverageCap == st.patched.leverageCap
    ensures st.final == st.patched.(pauseNewEntries := st.final.pauseNewEntries,
                                    regimeBlocked := st.final.regimeBlocked, leverageCap := st.final.leverageCap)
  {
  }

  /** End to end: under a soft mode that reopens, a bucket paused by its streak leaves entries open at leverage 10. */
  lemma StreakPauseReopensAtTen(
    st: Stages, fleet: string, f: Adjustment, s: Adjustment, regime: string, ctx: Context,
    patches: seq<Patch>, flags: Flags)
    requires Composed(st, fleet, f, s, regime, ctx, patches, flags)
    requires (WellFormed(f) && f.pauseNewEntries) || (WellFormed(s) && s.pauseNewEntries)
    requires flags.boldTestnet || flags.revenueGrowth
    ensures !st.final.pauseNewEntries && st.final.leverageCap == Some(10.0)
    ensures st.final.regimeBlocked <==> Hits(regime, st.final.blockedRegimes)
  {
    assert st.merged.leverageCap.Some? && st.merged.leverageCap.value <= 0.0;
    PatchesOnlyLowerCap(st.adapted, FirstFive(patches));
    PatchesKeepBlocks(st.adapted, FirstFive(patches));
  }

  lemma {:induction false} PatchesOnlyLowerCap(g: Guided, patches: seq<Patch>)
    ensures CapTightens(g.leverageCap, WithPatches(g, patches).leverageCap)
  {
    if patches != [] { PatchesOnlyLowerCap(g, patches[..|patches| - 1]); }
  }

  /** Cap `c` is the tighter one of `a` and `b`. */
  ghost predicate IsTighter(c: Option<real>, a: Option<real>, b: Option<real>) {
    (c == a || c == b) && CapTightens(a, c) && CapTightens(b, c)
  }

  /** The merge takes of each figure of the two buckets the tighter one, and adds up penalties to 0.32 at most. */
  lemma MergeTakesTighter(
    st: Stages, fleet: string, f: Adjustment, s: Adjustment, regime: string, ctx: Context,
    patches: seq<Patch>, flags: Flags)
    requires Composed(st, fleet, f, s, regime, ctx, patches, flags) && Sane(f) && Sane(s)
    ensures var m := st.merged;
      && m.penalty == (if f.penalty + s.penalty <= 0.32 then f.penalty + s.penalty else 0.32)
      && IsTighter(m.leverageCap, f.leverageCap, s.leverageCap)
      && m.blockedRegimes == f.blockedRegimes + s.blockedRegimes && m.failureFocus == f.failureFocus + s.failureFocus
      && (m.pauseNewEntries <==> f.pauseNewEntries || s.pauseNewEntries)
      && (m.regimeBlocked <==> regime != "" && (regime in f.blockedRegimes || regime in s.blockedRegimes))
      && m.aggression in {f.aggression, s.aggression} && m.aggression <= f.aggression && m.aggression <= s.aggression
      && m.positionSize in {f.positionSize, s.positionSize}
      && m.positionSize <= f.positionSize && m.positionSize <= s.positionSize
      && m.minConfidence in {f.minConfidence, s.minConfidence}
      && m.minConfidence >= f.minConfidence && m.minConfidence >= s.minConfidence
      && m.consecutiveLosses in {f.consecutiveLosses, s.consecutiveLosses}
      && m.consecutiveLosses >= f.consecutiveLosses && m.consecutiveLosses >= s.consecutiveLosses
      && m.lossRate == f.lossRate
      && (forall x :: x in m.cooldown <==> x in f.cooldown || x in s.cooldown)
      && (forall x :: x in f.cooldown && (x !in s.cooldown || !s.cooldown[x].active) ==> m.cooldown[x] == f.cooldown[x])
      && (forall x :: x in s.cooldown && (x !in f.cooldown || s.cooldown[x].active) ==> m.cooldown[x] == s.cooldown[x])
  {
  }

  /**
   * The adaptation of computed guidance takes effect in full: guidance then holds its overrides, its pause, and a
   * penalty higher by eight hundredths of its pressure.
   */
  lemma AdaptationTakesEffect(
    st: Stages, fleet: string, f: Adjustment, s: Adjustment, regime: string, ctx: Context,
    patches: seq<Patch>, flags: Flags)
    requires Composed(st, fleet, f, s, regime, ctx, patches, flags) && Sane(f) && Sane(s)
    ensures var a, g := Adapted(fleet, BaseOf(st.merged), ctx), st.adapted;
      var raised := st.merged.penalty + 0.08 * (a.pressure as real / 100.0);
      && g.penalty == (if raised <= 0.45 then raised else 0.45)
      && g.leverageCap == a.overrides.leverageCap && g.blockedRegimes == a.overrides.blockedRegimes
      && g.aggression == a.overrides.aggression && g.positionSize == a.overrides.positionSize
      && g.minConfidence == a.overrides.minConfidence
      && g.pauseNewEntries == a.pauseNewEntries
      && (g.regimeBlocked <==> Hits(regime, g.blockedRegimes) || g.pauseNewEntries)
      && g.cooldown == st.merged.cooldown && g.consecutiveLosses == st.merged.consecutiveLosses
  {
    AdaptedSign(fleet, BaseOf(st.merged), ctx);
    OverridesTightenBase(fleet, BaseOf(st.merged), ctx);
  }

  /** The penalties of the patches added up. */
  function PenaltySum(patches: seq<Patch>): real {
    if patches == [] then 0.0 else PenaltySum(patches[..|patches| - 1]) + patches[|patches| - 1].penalty
  }

  /** Applied patches take effect in full: each one's cap and size bind, their penalties add up, and no more happens. */
  lemma {:induction false} PatchesTakeEffect(g: Guided, patches: seq<Patch>)
    requires NonNegative(patches) && g.penalty <= 0.45 && g.positionSize > 0.0
    ensures var out, sum := WithPatches(g, patches), g.penalty + PenaltySum(patches);
      && out.penalty == (if sum <= 0.45 then sum else 0.45) && PenaltySum(patches) >= 0.0
      && (forall p :: p in patches ==> CapTightens(p.leverageCap, out.leverageCap))
      && (out.leverageCap == g.leverageCap || exists p :: p in patches && out.leverageCap == p.leverageCap)
      && (forall p :: p in patches && p.positionSize != 0.0 ==> out.positionSize <= p.positionSize)
      && (out.positionSize == g.positionSize || exists p :: p in patches && out.positionSize == p.positionSize)
      && out.positionSize != 0.0
      && out == g.(penalty := out.penalty, leverageCap := out.leverageCap, positionSize := out.positionSize)
  {
    if patches != [] {
      var init, last := patches[..|patches| - 1], patches[|patches| - 1];
      assert patches == init + [last];
      PatchesTakeEffect(g, init);
    }
  }

  /** From the sixth on patches are ignored. */
  lemma SixthPatchIgnored(g: Guided, applied: seq<Patch>, more: seq<Patch>)
    requires |applied| == 5
    ensures WithPatches(g, FirstFive(applied + more)) == WithPatches(g, applied)
  {
    assert (applied + more)[..5] == applied;
    if more == [] { assert applied + more == applied; }
  }

  // ----- what each signal of a bucket weighs

  /** Each signal raises the penalty by its own weight; high leverage counts up to five losses, and 0.4 is never met. */
  lemma PenaltyWeights(lossRate: real, streak: nat, cfg: Settings, overconfident: bool, highLeverage: nat)
    ensures 0.0 <= Penalty(lossRate, streak, cfg, overconfident, highLeverage) < 0.4
    ensures forall low: real, high: real :: low < 0.55 <= high ==>
      Penalty(high, streak, cfg, overconfident, highLeverage)
        == Penalty(low, streak, cfg, overconfident, highLeverage) + 0.03
    ensures Penalty(lossRate, streak, cfg, true, highLeverage)
         == Penalty(lossRate, streak, cfg, false, highLeverage) + 0.05
    ensures Penalty(lossRate, streak, cfg, overconfident, highLeverage + 1)
         == Penalty(lossRate, streak, cfg, overconfident, highLeverage) + if highLeverage < 5 then 0.03 else 0.0
    ensures streak < 2 && streak < cfg.softBlock && lossRate < 0.55 ==> Penalty(lossRate, streak, cfg, false, 0) == 0.0
    ensures forall n: nat :: streak < 2 <= n && (streak < cfg.softBlock <==> n < cfg.softBlock) ==>
      Penalty(lossRate, n, cfg, overconfident, highLeverage)
        == Penalty(lossRate, streak, cfg, overconfident, highLeverage) + 0.05
    ensures forall n: nat :: streak < cfg.softBlock <= n && (streak < 2 <==> n < 2) ==>
      Penalty(lossRate, n, cfg, overconfident, highLeverage)
        == Penalty(lossRate, streak, cfg, overconfident, highLeverage) + 0.05
  {
  }

  /** The ladder of leverage caps, the first rung that applies counting; PEPE never has more than 20. */
  lemma CapLadder(streak: nat, cfg: Settings, overLeveraged: bool, highLeverage: nat, fleet: string)
    requires fleet != "PEPE"
    ensures var cap, pepe := StreakCap(streak, cfg, overLeveraged, highLeverage, fleet),
                             StreakCap(streak, cfg, overLeveraged, highLeverage, "PEPE");
      && (streak >= cfg.hardBlock ==> cap == if cfg.hardPause then Some(0.0) else Some(3.0))
      && (cfg.softBlock <= streak < cfg.hardBlock ==> cap == Some(3.0))
      && (streak < cfg.softBlock && streak < cfg.hardBlock ==>
           && (overLeveraged ==> cap == Some(10.0))
           && (!overLeveraged ==> if highLeverage > 0 then cap == Some(20.0) else cap == None))
      && IsTighter(pepe, cap, Some(20.0))
  {
  }

  /** What the counters count: one more for each trade of their kind. */
  lemma CountersStep(t: Trade, others: seq<Trade>, regime: string)
    ensures Losses([]) == HighLeverageLosses([]) == RegimeLosses([], regime) == 0
    ensures Losses(others + [t]) == Losses(others) + if t.outcome == Loss then 1 else 0
    ensures HighLeverageLosses([t] + others)
         == HighLeverageLosses(others) + if t.outcome == Loss && t.leverage >= 20.0 then 1 else 0
    ensures RegimeLosses([t] + others, regime)
         == RegimeLosses(others, regime) + if t.outcome == Loss && t.marketRegime == regime then 1 else 0
  {
    assert (others + [t])[..|others|] == others && ([t] + others)[1..] == others;
  }

  lemma {:induction false} LosesInRegime(items: seq<Trade>, regime: string)
    requires RegimeLosses(items, regime) > 0
    ensures exists t :: t in items && t.marketRegime == regime
  {
    if !(items[0].outcome == Loss && items[0].marketRegime == regime) {
      LosesInRegime(items[1..], regime);
      assert items == [items[0]] + items[1..];
    }
  }

  /** A regime is blocked exactly from its third loss on, unless it is one of the names for nothing special. */
  lemma BlockedFromThirdLoss(items: seq<Trade>, regime: string)
    ensures regime in BlockedRegimes(items) <==>
      regime !in {"", "normal", "unknown", "hq_spot"} && RegimeLosses(items, regime) >= 3
  {
    if RegimeLosses(items, regime) >= 3 { LosesInRegime(items, regime); }
  }

  /** The failure reasons that count as overconfidence and as too much leverage, wherever they stand. */
  lemma ReasonsRead(before: seq<Trade>, t: Trade, after: seq<Trade>)
    ensures t.failureReason in {"confidence_overestimated", "false_signal_high_leverage"} ==>
      Overconfident(before + [t] + after)
    ensures t.failureReason == "over_leverage" ==> OverLeveraged(before + [t] + after)
    ensures Overconfident([t]) <==> t.failureReason in {"confidence_overestimated", "false_signal_high_leverage"}
    ensures OverLeveraged([t]) <==> t.failureReason == "over_leverage"
  {
    assert (before + [t] + after)[|before|] == t;
    assert [t][0] == t;
  }

  /** A loss is recent for six hours or its day, and a liquidation cools its symbol for four hours. */
  lemma AgesRead(t: Trade)
    ensures Recent(t) <==> t.age.Some? && (t.age.value <= 6 * 3600 || t.today)
    ensures Liquidated(t) <==>
      && t.outcome == Loss && t.failureReason == "exchange_liquidation" && t.symbol != ""
      && t.age.Some? && t.age.value <= 4 * 3600
  {
  }

  /** The i-th trade is the newest loss of the symbol; a trade without one counts for UNKNOWN. */
  ghost predicate NewestLoss(items: seq<Trade>, i: nat, symbol: string) {
    i < |items| && IsLossOf(items[i], symbol) && forall j :: 0 <= j < i ==> !IsLossOf(items[j], symbol)
  }

  predicate IsLossOf(t: Trade, symbol: string) {
    t.outcome == Loss && (if t.symbol == "" then "UNKNOWN" else t.symbol) == symbol
  }

  /** A symbol's losses are its losing trades, the newest one in front. */
  lemma {:induction false} SymbolLossesAre(items: seq<Trade>, symbol: string)
    ensures forall t :: t in SymbolLosses(items, symbol) <==> t in items && IsLossOf(t, symbol)
    ensures SymbolLosses(items, symbol) != [] ==>
      exists i: nat :: NewestLoss(items, i, symbol) && items[i] == SymbolLosses(items, symbol)[0]
  {
    if items != [] {
      var init, n := items[..|items| - 1], |items| - 1;
      SymbolLossesAre(init, symbol);
      assert items == init + [items[n]];
      if SymbolLosses(init, symbol) != [] {
        var i: nat :| NewestLoss(init, i, symbol) && init[i] == SymbolLosses(init, symbol)[0];
        assert NewestLoss(items, i, symbol);
      } else if IsLossOf(items[n], symbol) {
        assert NewestLoss(items, n, symbol);
      }
    }
  }

  /** A cooldown counts at most the six newest losses, and at least one. */
  lemma CooldownCounts(items: seq<Trade>, symbol: string)
    ensures var entry, n := CooldownOf(items, |items|, symbol), |SymbolLosses(items, symbol)|;
      && (entry.None? ==> n < 3)
      && (entry.Some? && n >= 3 ==> entry.value.lossCount == if n < 6 then n else 6)
      && (entry.Some? && n < 3 ==> entry.value.lossCount == 1 && entry.value.active)
  {
  }

  // ----- the order of patches does not matter

  lemma PatchesCommute(g: Guided, p: Patch, q: Patch)
    requires g.penalty <= 0.45 && p.penalty >= 0.0 && q.penalty >= 0.0 && g.positionSize != 0.0
    ensures WithPatch(WithPatch(g, p), q) == WithPatch(WithPatch(g, q), p)
  {
  }

  /** A patch applied in the middle could as well be applied last. */
  lemma {:induction false} PatchLast(g: Guided, patches: seq<Patch>, i: nat)
    requires i < |patches| && NonNegative(patches) && g.penalty <= 0.45 && g.positionSize != 0.0
    ensures WithPatches(g, patches) == WithPatch(WithPatches(g, patches[..i] + patches[i + 1..]), patches[i])
  {
    var n := |patches| - 1;
    if i == n {
      assert patches[..i] + patches[i + 1..] == patches[..n];
    } else {
      var init := patches[..n];
      PatchLast(g, init, i);
      var others := init[..i] + init[i + 1..];
      assert patches[..i] + patches[i + 1..] == others + [patches[n]];
      assert (others + [patches[n]])[..|others|] == others;
      PatchesTighten(g, others);
      PatchesCommute(WithPatches(g, others), patches[i], patches[n]);
    }
  }

  /** Main result: at most five non-negative patches give the same guidance in any order. */
  lemma {:induction false} PatchOrderIrrelevant(g: Guided, a: seq<Patch>, b: seq<Patch>)
    requires multiset(a) == multiset(b) && |a| <= 5
    requires NonNegative(a) && g.penalty <= 0.45 && g.positionSize != 0.0
    ensures WithPatches(g, FirstFive(a)) == WithPatches(g, FirstFive(b))
  {
    assert |multiset(a)| == |a| && |multiset(b)| == |b|;
    SameMultiset(g, a, b);
  }

  lemma {:induction false} SameMultiset(g: Guided, a: seq<Patch>, b: seq<Patch>)
    requires multiset(a) == multiset(b)
    requires NonNegative(a) && g.penalty <= 0.45 && g.positionSize != 0.0
    ensures WithPatches(g, a) == WithPatches(g, b)
    decreases |a|
  {
    assert |multiset(a)| == |a| && |multiset(b)| == |b|;
    if a != [] {
      var i := Matching(a, b);
      NonNegativeToo(a, b);
      PatchLast(g, b, i);
      SameMultiset(g, a[..|a| - 1], b[..i] + b[i + 1..]);
    }
  }

  /** The last patch of one list has a match in the other, and removing both leaves the same patches. */
  lemma Matching(a: seq<Patch>, b: seq<Patch>) returns (i: nat)
    requires multiset(a) == multiset(b) && a != []
    ensures i < |b| && b[i] == a[|a| - 1]
    ensures multiset(a[..|a| - 1]) == multiset(b[..i] + b[i + 1..])
  {
    var last := a[|a| - 1];
    assert last in multiset(a);
    assert last in b;
    i :| 0 <= i < |b| && b[i] == last;
    Without(a, |a| - 1);
    Without(b, i);
    assert a[..|a| - 1] + a[|a|..] == a[..|a| - 1];
  }

  lemma Without(s: seq<Patch>, i: nat)
    requires i < |s|
    ensures multiset(s[..i] + s[i + 1..]) == multiset(s) - multiset{s[i]}
  {
    assert s == s[..i] + [s[i]] + s[i + 1..];
  }

  lemma NonNegativeToo(a: seq<Patch>, b: seq<Patch>)
    requires multiset(a) == multiset(b) && NonNegative(a)
    ensures NonNegative(b)
  {
    forall p | p in b ensures p.penalty >= 0.0 {
      assert p in multiset(b);
      assert p in a;
    }
  }
}
