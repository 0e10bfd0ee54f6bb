/** The execution governor: the last word on a validated proposal. */
module ExecutionGovernor {
  import opened Common
  import opened DynamicBlocklist

  datatype Proposal = Proposal(
    fleet: string, symbol: string, strategyKey: string,
    microEntry: bool,              // a micro-validation entry
    microSizing: bool,             // a micro-validation entry or session
    matrixScore: Option<real>)

  datatype Validation = Validation(approved: bool, reason: string, rejectLayer: string)

  datatype Learning = Learning(pauseNewEntries: bool, regimeBlocked: bool)

  datatype Environment = Environment(
    sandbox: bool, forceLive: bool, regimeLabel: string, fleetAllowed: map<string, bool>)

  /** Why the governor refuses; each names one reason text, one layer and one why-not tag of the original. */
  datatype Refusal =
    | LearningPause | LearningRegime | SymbolBlocked | HighRiskMacro | ChopBlocksPepe | ChopBlocksRadar
    | MatrixBelowMin | FleetRestricted | ShadowMode
  {
    function Reason(): string {
      match this
      case LearningPause => "learning_pause_new_entries"
      case LearningRegime => "learning_regime_blocked"
      case SymbolBlocked => "dynamic_blocklist"
      case HighRiskMacro => "regime_high_risk_macro"
      case ChopBlocksPepe => "regime_chop_blocks_pepe"
      case ChopBlocksRadar => "regime_chop_blocks_radar_directional"
      case MatrixBelowMin => "confidence_matrix_below_min"
      case FleetRestricted => "portfolio_governor_block"
      case ShadowMode => "shadow_mode_blocks_live_execution"
    }

    function Layer(): string {
      match this
      case LearningPause => "learning_guard"
      case LearningRegime => "learning_guard"
      case SymbolBlocked => "post_mortem_guard"
      case HighRiskMacro => "regime_classifier"
      case ChopBlocksPepe => "regime_classifier"
      case ChopBlocksRadar => "regime_classifier"
      case MatrixBelowMin => "confidence_matrix"
      case FleetRestricted => "portfolio_governor"
      case ShadowMode => "shadow_mode"
    }
  }

  /** `whyNot` empty stands for keeping the validation's own list. */
  datatype Decision = Decision(
    approved: bool, refusal: Option<Refusal>, whyNot: seq<Refusal>, shadowOnly: bool,
    reason: string, rejectLayer: string)

  /** What each refusal but the shadow mode's depends on, asked in this order. */
  const ORDER: seq<Refusal> :=
    [LearningPause, LearningRegime, SymbolBlocked, HighRiskMacro, ChopBlocksPepe, ChopBlocksRadar,
     MatrixBelowMin, FleetRestricted]

  predicate Applies(g: Refusal, p: Proposal, learning: Learning, env: Environment, symbolBlocked: bool) {
    var fleet, regime := Upper(p.fleet), Upper(env.regimeLabel);
    var relaxed := env.sandbox || p.microEntry;
    match g
    case LearningPause => learning.pauseNewEntries && !relaxed
    case LearningRegime => learning.regimeBlocked && !relaxed
    case SymbolBlocked => symbolBlocked
    case HighRiskMacro => regime == "HIGH_RISK_MACRO" && p.strategyKey != "market_neutral_funding" && !p.microSizing
    case ChopBlocksPepe => regime == "CHOP_RNG" && fleet == "PEPE"
    case ChopBlocksRadar =>
      && regime == "CHOP_RNG" && fleet == "RADAR"
      && (p.strategyKey == "radar_market_scan_strategy" || p.strategyKey == "ai_led_trade_proposer")
    case MatrixBelowMin => p.matrixScore.Some? && p.matrixScore.value < 60.0
    case FleetRestricted => fleet in env.fleetAllowed && !env.fleetAllowed[fleet]
    case ShadowMode => false
  }

  /** The earliest refusal of the order, from position `n` on, that applies. */
  function First(n: nat, p: Proposal, learning: Learning, env: Environment, symbolBlocked: bool): (g: Option<Refusal>)
    requires n <= |ORDER|
    ensures g.None? <==> forall i :: n <= i < |ORDER| ==> !Applies(ORDER[i], p, learning, env, symbolBlocked)
    ensures g.Some? ==> Applies(g.value, p, learning, env, symbolBlocked)
    decreases |ORDER| - n
  {
    if n == |ORDER| then None
    else if Applies(ORDER[n], p, learning, env, symbolBlocked) then Some(ORDER[n])
    else First(n + 1, p, learning, env, symbolBlocked)
  }

  /** The running verdict of the cascade. */
  datatype Ruling = Ruling(approved: bool, refusal: Option<Refusal>, whyNot: seq<Refusal>) {
    function Refuse(g: Refusal): Ruling {
      Ruling(false, Some(g), whyNot + [g])
    }
  }

  function Settled(v: Validation, first: Option<Refusal>): Ruling {
    if !v.approved || first.None? then Ruling(v.approved, None, []) else Ruling(false, first, [first.value])
  }

  /** After the first `n` guards: either one has spoken, or the rest of the order still decides. */
  ghost predicate Progress(
    n: nat, v: Validation, r: Ruling, p: Proposal, learning: Learning, env: Environment, symbolBlocked: bool)
    requires n <= |ORDER|
  {
    var first := First(0, p, learning, env, symbolBlocked);
    if r.approved then v.approved && r == Ruling(true, None, []) && first == First(n, p, learning, env, symbolBlocked)
    else r == Settled(v, first) && (v.approved ==> first.Some?)
  }

  lemma Asked(n: nat, v: Validation, r: Ruling, r': Ruling, p: Proposal, learning: Learning, env: Environment, b: bool)
    requires n < |ORDER| && Progress(n, v, r, p, learning, env, b)
    requires r' == if r.approved && Applies(ORDER[n], p, learning, env, b) then r.Refuse(ORDER[n]) else r
    ensures Progress(n + 1, v, r', p, learning, env, b)
  {
  }

  ghost predicate Approves(
    v: Validation, p: Proposal, learning: Learning, env: Environment, symbolBlocked: bool, shadow: bool)
  {
    v.approved && !shadow && forall i :: 0 <= i < |ORDER| ==> !Applies(ORDER[i], p, learning, env, symbolBlocked)
  }

  /** What a decision owes its caller: the verdict, the one reason for a refusal, and whose reason it is. */
  ghost predicate Decides(
    d: Decision, v: Validation, p: Proposal, learning: Learning, env: Environment, symbolBlocked: bool, shadow: bool)
  {
    var first := First(0, p, learning, env, symbolBlocked);
    && (d.approved <==> Approves(v, p, learning, env, symbolBlocked, shadow))
    && d.shadowOnly == shadow
    && d.refusal == (if !v.approved then None
                     else if first.Some? then first
                     else if shadow then Some(ShadowMode) else None)
    && d.whyNot == (if d.refusal.Some? then [d.refusal.value] else [])
    && d.reason == (if d.refusal.Some? then d.refusal.value.Reason() else v.reason)
    && d.rejectLayer == (if d.refusal.Some? then d.refusal.value.Layer() else v.rejectLayer)
  }

  class Governor {
    const shadowMode: bool
    const autonomyLevel: int

    constructor (shadowMode: bool, autonomyLevel: int)
      ensures this.shadowMode == shadowMode
      ensures 0 <= this.autonomyLevel <= 3 && (1 <= autonomyLevel <= 3 ==> this.autonomyLevel == autonomyLevel)
      ensures this.autonomyLevel < 2 <==> autonomyLevel < 2
    {
      this.shadowMode := shadowMode;
      var level := if autonomyLevel == 0 then 1 else autonomyLevel;
      this.autonomyLevel := if level < 0 then 0 else if level > 3 then 3 else level;
    }

    predicate ShadowOnly(p: Proposal, env: Environment) {
      shadowMode && autonomyLevel < 2 && !(env.sandbox && env.forceLive) && !p.microSizing
    }

    /** The learning guards and the blocklist. */
    method AskLearning(
        p: Proposal, v: Validation, learning: Learning, env: Environment, blocklist: Blocklist?, now: int)
      returns (r: Ruling)
      requires blocklist != null ==> blocklist.Valid() && blocklist.clock <= now
      modifies blocklist
      ensures blocklist != null ==>
        blocklist.Valid() && blocklist.calls == old(blocklist.calls) && blocklist.clock <= now
      ensures Progress(3, v, r, p, learning, env,
                       blocklist != null && BlockedAt(blocklist.calls, Upper(p.symbol), now))
    {
      var relaxed := env.sandbox || p.microEntry;
      ghost var b := blocklist != null && BlockedAt(blocklist.calls, Upper(p.symbol), now);
      UpperIdempotent(p.symbol);
      r := Ruling(v.approved, None, []);
      ghost var before := r;
      if r.approved && learning.pauseNewEntries && !relaxed { r := r.Refuse(LearningPause); }
      Asked(0, v, before, r, p, learning, env, b);
      before := r;
      if r.approved && learning.regimeBlocked && !relaxed { r := r.Refuse(LearningRegime); }
      Asked(1, v, before, r, p, learning, env, b);
      before := r;
      if r.approved && blocklist != null {
        var blocked := blocklist.IsSymbolBlocked(Upper(p.symbol), now);
        if blocked { r := r.Refuse(SymbolBlocked); }
      }
      Asked(2, v, before, r, p, learning, env, b);
    }

    /** The regime classifier's guards. */
    method AskRegime(so: Ruling, p: Proposal, v: Validation, env: Environment, ghost learning: Learning, ghost b: bool)
      returns (r: Ruling)
      requires Progress(3, v, so, p, learning, env, b)
      ensures Progress(6, v, r, p, learning, env, b)
    {
      var fleet, regime := Upper(p.fleet), Upper(env.regimeLabel);
      r := so;
      if r.approved && regime == "HIGH_RISK_MACRO" && p.strategyKey != "market_neutral_funding" && !p.microSizing {
        r := r.Refuse(HighRiskMacro);
      }
      Asked(3, v, so, r, p, learning, env, b);
      ghost var before := r;
      if r.approved && regime == "CHOP_RNG" && fleet == "PEPE" { r := r.Refuse(ChopBlocksPepe); }
      Asked(4, v, before, r, p, learning, env, b);
      before := r;
      if r.approved && regime == "CHOP_RNG" && fleet == "RADAR"
        && (p.strategyKey == "radar_market_scan_strategy" || p.strategyKey == "ai_led_trade_proposer") {
        r := r.Refuse(ChopBlocksRadar);
      }
      Asked(5, v, before, r, p, learning, env, b);
    }

    /** The confidence matrix and the portfolio governor, after which the first refusal is settled. */
    method AskPortfolio(
        so: Ruling, p: Proposal, v: Validation, env: Environment, ghost learning: Learning, ghost b: bool)
      returns (r: Ruling)
      requires Progress(6, v, so, p, learning, env, b)
      ensures r == Settled(v, First(0, p, learning, env, b))
    {
      var fleet := Upper(p.fleet);
      r := so;
      if r.approved && p.matrixScore.Some? && p.matrixScore.value < 60.0 { r := r.Refuse(MatrixBelowMin); }
      Asked(6, v, so, r, p, learning, env, b);
      ghost var before := r;
      if r.approved && fleet in env.fleetAllowed && !env.fleetAllowed[fleet] { r := r.Refuse(FleetRestricted); }
      Asked(7, v, before, r, p, learning, env, b);
    }

    method Evaluate(p: Proposal, v: Validation, learning: Learning, env: Environment, blocklist: Blocklist?, now: int)
      returns (d: Decision)
      requires blocklist != null ==> blocklist.Valid() && blocklist.clock <= now
      modifies blocklist
      ensures blocklist != null ==>
        blocklist.Valid() && blocklist.calls == old(blocklist.calls) && blocklist.clock <= now
      ensures Decides(d, v, p, learning, env,
                      blocklist != null && BlockedAt(blocklist.calls, Upper(p.symbol), now), ShadowOnly(p, env))
    {
      ghost var b := blocklist != null && BlockedAt(blocklist.calls, Upper(p.symbol), now);
      var r := AskLearning(p, v, learning, env, blocklist, now);
      r := AskRegime(r, p, v, env, learning, b);
      r := AskPortfolio(r, p, v, env, learning, b);
      var shadow := ShadowOnly(p, env);
      if shadow && r.approved {
        r := r.(whyNot := r.whyNot + [ShadowMode]);
        if r.refusal.None? { r := r.(refusal := Some(ShadowMode)); }
      }
      d := Decision(
        r.approved && !shadow, r.refusal, r.whyNot, shadow,
        if r.refusal.Some? then r.refusal.value.Reason() else v.reason,
        if r.refusal.Some? then r.refusal.value.Layer() else v.rejectLayer);
    }
  }

  /** What each guard asks, in order: a proposal that validation approved is refused by the first guard that objects. */
  lemma GuardsInOrder(
    d: Decision, v: Validation, p: Proposal, learning: Learning, env: Environment, blocked: bool, shadow: bool)
    requires Decides(d, v, p, learning, env, blocked, shadow) && v.approved
    ensures var guarded, fleet, regime := !env.sandbox && !p.microEntry, Upper(p.fleet), Upper(env.regimeLabel);
      d.refusal ==
        if guarded && learning.pauseNewEntries then Some(LearningPause)
        else if guarded && learning.regimeBlocked then Some(LearningRegime)
        else if blocked then Some(SymbolBlocked)
        else if regime == "HIGH_RISK_MACRO" && p.strategyKey != "market_neutral_funding" && !p.microSizing then
          Some(HighRiskMacro)
        else if regime == "CHOP_RNG" && fleet == "PEPE" then Some(ChopBlocksPepe)
        else if regime == "CHOP_RNG" && fleet == "RADAR"
          && p.strategyKey in {"radar_market_scan_strategy", "ai_led_trade_proposer"} then Some(ChopBlocksRadar)
        else if p.matrixScore.Some? && p.matrixScore.value < 60.0 then Some(MatrixBelowMin)
        else if fleet in env.fleetAllowed && !env.fleetAllowed[fleet] then Some(FleetRestricted)
        else if shadow then Some(ShadowMode) else None
    ensures d.approved <==> d.refusal.None?
  {
    FirstSpeaks(p, learning, env, blocked);
  }

  /** The first refusal, spelled out. */
  lemma FirstSpeaks(p: Proposal, learning: Learning, env: Environment, blocked: bool)
    ensures var first := First(0, p, learning, env, blocked);
      && (first.Some? ==> exists i :: IsFirst(i, p, learning, env, blocked) && first == Some(ORDER[i]))
      && (first.None? ==> forall i :: 0 <= i < |ORDER| ==> !Applies(ORDER[i], p, learning, env, blocked))
  {
    FirstFrom(0, p, learning, env, blocked);
  }

  ghost predicate IsFirst(i: int, p: Proposal, learning: Learning, env: Environment, blocked: bool) {
    && 0 <= i < |ORDER| && Applies(ORDER[i], p, learning, env, blocked)
    && forall j :: 0 <= j < i ==> !Applies(ORDER[j], p, learning, env, blocked)
  }

  lemma {:induction false} FirstFrom(n: nat, p: Proposal, learning: Learning, env: Environment, blocked: bool)
    requires n <= |ORDER| && forall j :: 0 <= j < n ==> !Applies(ORDER[j], p, learning, env, blocked)
    ensures var first := First(n, p, learning, env, blocked);
      first.Some? ==> exists i :: IsFirst(i, p, learning, env, blocked) && first == Some(ORDER[i])
    decreases |ORDER| - n
  {
    if n < |ORDER| {
      if Applies(ORDER[n], p, learning, env, blocked) {
        assert IsFirst(n, p, learning, env, blocked);
      } else {
        FirstFrom(n + 1, p, learning, env, blocked);
      }
    }
  }

  /** The reason and the layer a refused decision names. */
  lemma RefusalTexts(
    d: Decision, v: Validation, p: Proposal, learning: Learning, env: Environment, blocked: bool, shadow: bool)
    requires Decides(d, v, p, learning, env, blocked, shadow)
    ensures match d.refusal
      case None => d.reason == v.reason && d.rejectLayer == v.rejectLayer && d.whyNot == []
      case Some(LearningPause) => d.reason == "learning_pause_new_entries" && d.rejectLayer == "learning_guard"
      case Some(LearningRegime) => d.reason == "learning_regime_blocked" && d.rejectLayer == "learning_guard"
      case Some(SymbolBlocked) => d.reason == "dynamic_blocklist" && d.rejectLayer == "post_mortem_guard"
      case Some(HighRiskMacro) => d.reason == "regime_high_risk_macro" && d.rejectLayer == "regime_classifier"
      case Some(ChopBlocksPepe) => d.reason == "regime_chop_blocks_pepe" && d.rejectLayer == "regime_classifier"
      case Some(ChopBlocksRadar) =>
        d.reason == "regime_chop_blocks_radar_directional" && d.rejectLayer == "regime_classifier"
      case Some(MatrixBelowMin) => d.reason == "confidence_matrix_below_min" && d.rejectLayer == "confidence_matrix"
      case Some(FleetRestricted) => d.reason == "portfolio_governor_block" && d.rejectLayer == "portfolio_governor"
      case Some(ShadowMode) => d.reason == "shadow_mode_blocks_live_execution" && d.rejectLayer == "shadow_mode"
    ensures d.refusal.Some? ==> d.whyNot == [d.refusal.value]
  {
  }

  /** Shadow mode holds below autonomy 2, but not for micro sizing nor for a sandbox forced live. */
  lemma ShadowHolds(g: Governor, p: Proposal, env: Environment)
    ensures !g.shadowMode || g.autonomyLevel >= 2 || p.microSizing || (env.sandbox && env.forceLive)
      <==> !g.ShadowOnly(p, env)
  {
  }

  /** A rejected validation stays rejected, and a blocked symbol or a learning pause is never waved through. */
  lemma NeverApproves(
    d: Decision, v: Validation, p: Proposal, learning: Learning, env: Environment, calls: seq<BlockCall>, now: int,
    shadow: bool)
    requires Decides(d, v, p, learning, env, BlockedAt(calls, Upper(p.symbol), now), shadow) && d.approved
    ensures v.approved && !shadow
    ensures forall i :: 0 <= i < |calls| && calls[i].symbol == Upper(p.symbol) ==> calls[i].Until() <= now
    ensures env.sandbox || p.microEntry || !(learning.pauseNewEntries || learning.regimeBlocked)
  {
    assert ORDER[0] == LearningPause && ORDER[1] == LearningRegime && ORDER[2] == SymbolBlocked;
  }
}
