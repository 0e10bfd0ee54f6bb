/** From losing trades through the guidance to the governor's last word. */
module GuidedGovernance {
  import opened Common
  import StrategyAdaptation
  import LearningFeedback
  import ExecutionGovernor

  /** The governor decides under the final guidance of the composition. */
  ghost predicate DecidedUnder(
    d: ExecutionGovernor.Decision, st: LearningFeedback.Stages,
    v: ExecutionGovernor.Validation, p: ExecutionGovernor.Proposal, env: ExecutionGovernor.Environment,
    symbolBlocked: bool, shadow: bool)
  {
    ExecutionGovernor.Decides(d, v, p,
      ExecutionGovernor.Learning(st.final.pauseNewEntries, st.final.regimeBlocked), env, symbolBlocked, shadow)
  }

  /**
   * Main result: a pause in either bucket survives the merge, the adaptation and any patches, and outside the
   * soft modes and the sandbox the governor then approves nothing but micro entries.
   */
  lemma PausedBucketStopsEntries(
    st: LearningFeedback.Stages, fleet: string, f: LearningFeedback.Adjustment, s: LearningFeedback.Adjustment,
    regime: string, ctx: StrategyAdaptation.Context, patches: seq<LearningFeedback.Patch>,
    flags: LearningFeedback.Flags,
    d: ExecutionGovernor.Decision, v: ExecutionGovernor.Validation, p: ExecutionGovernor.Proposal,
    env: ExecutionGovernor.Environment, symbolBlocked: bool, shadow: bool)
    requires LearningFeedback.Composed(st, fleet, f, s, regime, ctx, patches, flags)
    requires f.pauseNewEntries || s.pauseNewEntries
    requires !flags.boldTestnet && !flags.revenueGrowth && !flags.sandbox
    requires DecidedUnder(d, st, v, p, env, symbolBlocked, shadow)
    ensures d.approved ==> env.sandbox || p.microEntry
  {
    LearningFeedback.PatchesKeepBlocks(st.adapted, LearningFeedback.FirstFive(patches));
    assert ExecutionGovernor.ORDER[0] == ExecutionGovernor.LearningPause;
  }

  /**
   * The soft modes may reopen a pause but not a regime: under every combination of flags, a regime either bucket
   * blocks is still refused by the governor.
   */
  lemma BlockedRegimeSurvivesSoftModes(
    st: LearningFeedback.Stages, fleet: string, f: LearningFeedback.Adjustment, s: LearningFeedback.Adjustment,
    regime: string, ctx: StrategyAdaptation.Context, patches: seq<LearningFeedback.Patch>,
    flags: LearningFeedback.Flags,
    d: ExecutionGovernor.Decision, v: ExecutionGovernor.Validation, p: ExecutionGovernor.Proposal,
    env: ExecutionGovernor.Environment, symbolBlocked: bool, shadow: bool)
    requires LearningFeedback.Composed(st, fleet, f, s, regime, ctx, patches, flags)
    requires LearningFeedback.Hits(regime, f.blockedRegimes) || LearningFeedback.Hits(regime, s.blockedRegimes)
    requires DecidedUnder(d, st, v, p, env, symbolBlocked, shadow)
    ensures d.approved ==> env.sandbox || p.microEntry
  {
    LearningFeedback.RegimeBlockedExactly(st, fleet, f, s, regime, ctx, patches, flags);
    assert st.final.regimeBlocked;
    assert ExecutionGovernor.ORDER[1] == ExecutionGovernor.LearningRegime;
  }
}
