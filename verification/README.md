# Trading runtime: a verified model of its decision core

This project models the self-contained algorithms and state machines of the trading runtime and proves what they
guarantee over all inputs and all runs:

- **Market arithmetic.** EMA, RSI, trend and cross, the technical exit score with its mirror symmetry
  (`TechnicalContext`); the order-book walk and its slippage estimate (`OrderBook`).
- **Audit.** The hash-chained log as the text of a file, with restarts and tamper evidence (`AuditChain`, over the line
  splitting of `TextLines`); the recursive masking of metadata (`AuditMasking`).
- **Learning guard.** Pressure, mode and overrides (`StrategyAdaptation`); calibration buckets, guidance merge, patches
  and soft modes (`LearningFeedback`).
- **Timed state machines checked against their history.** `SignalMemory`, `DynamicBlocklist`, `DailyPnl`,
  `LiquidationTracker`, and the buffered `TraceWriter` with every interleaving of its threads.
- **Admission and exits.** `ExecutionGovernor`, `CorrelationRisk`, `PositionPolicy`, `Sizing`, `HardExit`.
- **Across components.** `GuidedGovernance`: from calibration buckets through the guidance to the governor.
- **Reporting.** `PerformanceReport`: linear drawdown and bucketing.

`Common` holds optional values, real minimum and maximum, the `value or default` idiom, upper-casing and a few steps of
real arithmetic; `OrderedDict` is an insertion-ordered dictionary.

Conventions. Numbers are exact reals, and pressure is in hundredths. `round()` is modelled only in the percentage on
margin of the hard exits. Elsewhere figures are unrounded, also where the code branches on rounded ones: the RSI, price
change and volume ratio that the exit score reads (so the mirror results are about unrounded figures), and the penalties,
loss rates and multipliers that one learning stage hands to the next. Clock readings are parameters that never go back. Code that updates
fields is a class, code that loops is a method with invariants, and each method is tied to a function of its inputs or
of the old state about which the lemmas are proved. Configuration values that environment variables can change are
parameters or, where a constant appears, the shipped defaults.

## What the proofs found

- The audit log is written as JSON text that keeps U+0085, U+2028 and U+2029, and read back with `str.splitlines`, which
  cuts there. One record with such a character makes verification raise from then on, and a restart reloads an older
  hash (`LineSeparatorBreaksLog`). A run of appends and restarts leaves an intact log exactly when no appended text
  holds one of the three (`RunsVerify`, `CutIffSeparator`), and the remembered hash stands for everything appended
  exactly when no restart follows such a record (`RememberedHashFixesHistory`).
- A zero is read as a default. An RSI of exactly 0 reads as 50, which breaks the mirror of every market that only falls
  (`LongScoreMirrorsShort` gives the exact condition, `FallingMarketBreaksMirror` the markets). A zero multiplier reads
  as 1 and a zero threshold as 0.35, which can loosen an adaptation; `AdaptationMonotoneIff` says exactly when it does,
  and `OverridesTightenBase` when overrides are looser than their base. Computed calibration never produces a zero
  multiplier (`SummarizeBucket`), so guidance composed from it only tightens.
- The cycle's directive says not to repeat the direction that just lost
  (`backend/autonomy/pure_ai_orchestrator.py:70`), but losses are listed newest first and later entries overwrite
  earlier ones, so the filter remembers the oldest listed side (`RepeatOfLatestLossRefusedIff`).
- A cycle hands over only the first eight exits, soft ones in front. A stop is handed over exactly when fewer than eight
  symbols are named ahead of it (`StopHandedOverIff`); eight soft exits on other symbols, which need not have a
  position, drop every stop (`SoftExitsDropStop`, `EightSoftExitsDropStop`), and a cycle whose exits name at most eight
  symbols keeps every one (`EightSymbolsKeepStops`).
- An indicator that turns against a position can lower its exit score: two intervals that disagree put it at 0.45 at
  least, and a turn that makes them agree takes this floor away (`AgreementLowersScore`). `AdverseNeverLowersIff` says
  exactly when, and `AdverseNeverLowers` that it takes a change of trend.
- The worst slippage can fall with a larger probe when a quote from another call lies beyond the book's best price
  (`QuoteAboveTouchReversesOrder`); `WorstSlippageMonotoneIff` says exactly when it does not, and
  `WorstSlippageMonotone` gives a condition on the best prices that holds for all probes.
- The stale sweep does not look at its own rows, so two old positions on one symbol give two rows
  (`SweepDistinctIff`). No symbol with a hard or soft exit is affected.
- Batch and row-by-row trace writing differ on empty traces, which the batch writer drops (`WritersAgreeIff`).
- Verification of the audit log never reads the `previous_hash` field (`PreviousHashFieldUnread`); logs the logger
  writes do carry the right value (`ChainIntact`).
- Sizing an asked leverage below 2 can overshoot the target notional and is not stable under re-sizing. Both results
  come with exact conditions on the inputs, which the shipped caps always meet (`ShippedCapsFit`).
- The PEPE margin cap holds at admission. The first BTC order of a tick can lower it below margins admitted before
  (`LaterBtcOrderLowersCap`); it holds at the end exactly when the largest BTC order covers these
  (`PepeCappedAtEndIff`), and in any case within 0.3 of the larger of 100 and the largest BTC margin
  (`PepeMarginAtEnd`).
- Regime statistics are kept by the text `strategy:regime`, so a colon in either name mixes two regimes up
  (`BlocksByPairIff`).
- A percentage stop is compared with a figure rounded to two decimals, half to even. A stop of 16.125 misses a loss of
  exactly 16.125 percent (`HalfHundredthIsMissed`); `RoundedStaysBelowIff` and `ExactStopIsStoppedIff` say which stops
  are safe, among them every stop in whole hundredths.
- Masking does not look at text inside a list or tuple. A text that looks like a secret survives exactly there, outside
  forbidden keys, or standing alone (`SecretSurvivesIff`).

## Model

| member | source | states |
|---|---|---|
| TechnicalContext.EmaSeries | backend/market/technical_context_service.py:42-50 | the series holds at each position the recursively defined exponential average, for any period and any values |
| TechnicalContext.EmaWithinRange | backend/market/technical_context_service.py:42-50 | for any period no position of the average series leaves the range of the values up to it |
| TechnicalContext.RelativeStrength | backend/market/technical_context_service.py:53-67 | the loop over gains and losses returns the share of rises in all movement of the last `period` deltas, 50 without movement or data |
| TechnicalContext.RsiZeroMeansOnlyFalls | backend/market/technical_context_service.py:53-67 | RSI lies in 0..100 and is 0 exactly when its window holds falls and no rise |
| TechnicalContext.RsiMirror | backend/market/technical_context_service.py:53-67 | reflecting every close sends RSI to 100 minus itself |
| TechnicalContext.EmaMirror | backend/market/technical_context_service.py:42-50 | reflecting every close reflects every average |
| TechnicalContext.SummarizeInterval | backend/market/technical_context_service.py:155-196 | an interval's summary consists of the reference indicators; fewer than five candles give none |
| TechnicalContext.SummaryMirror | backend/market/technical_context_service.py:86-103 | the reflected market has the opposite trend and cross, 100 minus the RSI, the opposite sign of change and the same volume ratio |
| TechnicalContext.TechnicalExitScore | backend/market/technical_context_service.py:239-274 | the accumulated score is the bounded sum of evidence and lies in 0..1; the weights and directions of the evidence are the laws listed below |
| TechnicalContext.LongScoreMirrorsShort | backend/market/technical_context_service.py:239-274 | the LONG score equals the SHORT score of the reflected market, except exactly when RSI is 0 and the 0.45 floor does not hide the lost 0.2 |
| TechnicalContext.ShortScoreMirrorsLong | backend/market/technical_context_service.py:239-274 | the same for SHORT against the reflected LONG |
| TechnicalContext.UnsidedScoreMirrors | backend/market/technical_context_service.py:266-274 | without a side the score is the same in the reflected market, with no exception |
| TechnicalContext.FallingMarketBreaksMirror | backend/market/technical_context_service.py:239-274 | for every primary market of more than 14 candles that only falls, and any fast interval, the LONG score is below the SHORT score of the reflected market |
| TechnicalContext.FallingAverages | backend/market/technical_context_service.py:42-50 | behind falling prices the slower average stays above the faster one, and both above the price |
| TechnicalContext.AdverseNeverLowersIff | backend/market/technical_context_service.py:239-274 | for LONG and SHORT, a trend, cross, RSI or fast price change that moves against the position, on no less volume, does not lower the score, exactly unless it ends a disagreement of the two intervals without the indicators confirming each other |
| TechnicalContext.AdverseNeverLowers | backend/market/technical_context_service.py:239-274 | in particular it never does while both trends stay |
| TechnicalContext.AgreementLowersScore | backend/market/technical_context_service.py:272-273 | a concrete bearish trend that lowers a LONG score from 0.45 to 0.35 by agreeing with the fast interval |
| TechnicalContext.SurgeAddsWeight | backend/market/technical_context_service.py:155-265 | on candles: volume of at least 1.25 times the mean of its window while the last close is on the losing side of the close up to ten candles back adds exactly 0.2 over the same primary with any fast interval of the same trend without that |
| TechnicalContext.LongWeights | backend/market/technical_context_service.py:248-256 | each signal against a LONG adds its weight to the score of agreeing intervals, signals for it and an RSI of 0 add nothing |
| TechnicalContext.ShortWeights | backend/market/technical_context_service.py:257-265 | the same for SHORT |
| TechnicalContext.UnsidedWeights | backend/market/technical_context_service.py:266-270 | without a side a trend and a fresh cross, either way, are all that counts |
| TechnicalContext.DisagreementFloors | backend/market/technical_context_service.py:272-274 | disagreement lifts a score below 0.55 to at least 0.45 and leaves others alone; an interval that is not ready disagrees with every trend |
| TechnicalContext.OrderOfAverages | backend/market/technical_context_service.py:86-103 | trend and cross of a summary by the order of the last close and the 20- and 50-period averages |
| TechnicalContext.CrossReportsChange | backend/market/technical_context_service.py:94-103 | over growing candles a fresh cross is reported exactly at the candle at which the faster average changes sides |
| OrderBook.EstimateSlippageBps | backend/market/market_context_service.py:164-186 | the loop with its early exits computes the slippage of the recursive walk, 0 for an empty book, target or reference |
| OrderBook.SpendsTargetOrDepth | backend/market/market_context_service.py:170-182 | notional spent is the smaller of the target and the total depth of valid levels |
| OrderBook.AverageWithinConsumed | backend/market/market_context_service.py:183-186 | the average fill lies between the lowest and highest price consumed, and something is acquired exactly when there is depth |
| OrderBook.AverageWorsens | backend/market/market_context_service.py:170-185 | with levels listed best first, a larger target never has a better average (cross-multiplied) |
| OrderBook.SlippageMonotone | backend/market/market_context_service.py:164-186 | the estimate never falls with the target on ascending asks, never rises on descending bids |
| OrderBook.SlippageSign | backend/market/market_context_service.py:183-186 | against a reference at or inside the best price the estimate is never in the taker's favour |
| OrderBook.WorstSlippageMonotoneIff | backend/market/market_context_service.py:214-216 | at the call sites, with the references they read, the worst of both sides does not fall from one probe to a larger one, exactly when what the smaller gains on either side is no more than the larger reports |
| OrderBook.WorstSlippageMonotone | backend/market/market_context_service.py:214-216 | for all probes it never falls when neither side's best price is in the taker's favour by more than the other side's is against it |
| OrderBook.QuoteAboveTouchReversesOrder | backend/market/market_context_service.py:214-216 | a concrete book and quote where the larger probe reports less |
| OrderBook.TouchQuotesFirst | backend/market/market_context_service.py:214-215 | with both touch quotes the worst slippage does not depend on mark or mid; for an absent one the mark stands in, and without a mark the mid |
| OrderBook.EachSideItsQuote | backend/market/market_context_service.py:214-215 | asks are measured against the ask and bids against the bid |
| OrderBook.WithinTouchIsFree | backend/market/market_context_service.py:164-216 | a probe that fits the first level of both sides, quoted at their prices, reports 0 |
| OrderBook.OnePercentIsHundred | backend/market/market_context_service.py:183-186 | filled one percent above a positive quoted ask, a probe reports exactly 100 |
| OrderBook.SixthLevelIgnored | backend/market/market_context_service.py:214-215 | levels from the sixth on change nothing |
| AuditChain.VerifyIntegrity | backend/audit/audit_logger.py:63-78 | the loop over the split lines of the file's text returns the verdict of the chain definition: intact, broken, or an unparsable line before any break |
| AuditChain.LoadPreviousHash | backend/audit/audit_logger.py:80-91 | the loop over the split lines returns the hash of the last parsable record, skipping blank and malformed lines |
| AuditChain.SeparatorUnambiguous | backend/audit/audit_logger.py:109-110 | the text before the separator and the payload are determined by the hashed text |
| AuditChain.SameEndSameRecords | backend/audit/audit_logger.py:63-78 | two logs that verify and end in one hash hold equal records, unless verifying them hashed two different texts to one digest |
| AuditChain.AppendKeepsIntact | backend/audit/audit_logger.py:93-103 | appending with a remembered hash to a file with ended lines keeps an intact log intact exactly when that hash is the log's last one and the record's text holds no line boundary; a stale hash reads as broken |
| AuditChain.PreviousHashFieldUnread | backend/audit/audit_logger.py:67-77 | a log whose previous_hash field claims anything can still verify |
| AuditChain.GarbageNeverVerifies | backend/audit/audit_logger.py:70 | a log with an unparsable line never verifies, whatever is appended |
| AuditChain.RunsVerify | backend/audit/audit_logger.py:80-103 | after any run of appends and restarts verification answers intact, and the file reads back as the chain of the appended bodies, exactly when no appended text holds a line boundary; otherwise it raises |
| AuditChain.ChainIntact | backend/audit/audit_logger.py:93-103 | the chain of any bodies verifies, holds exactly them, and each of its records names the hash before it |
| AuditChain.AppendedLines | backend/audit/audit_logger.py:100-101 | an appended record is read back as one line, or as pieces without a hash when its text holds a line boundary |
| AuditChain.AppendReads | backend/audit/audit_logger.py:63-103 | after one append to any file with ended lines: an uncut record is one more line and its hash the last one; a cut record makes an intact file raise, and a restart finds the hash from before, or none when a piece reads as an object |
| AuditChain.CutIffSeparator | backend/audit/audit_logger.py:101 | of all line boundaries only U+0085, U+2028 and U+2029 can occur in JSON text and cut a record |
| AuditChain.LineSeparatorBreaksLog | backend/audit/audit_logger.py:67-101 | one append with a line separator makes verification raise, and a restart remembers the hash from before it |
| AuditChain.RememberedHashFixesHistory | backend/audit/audit_logger.py:63-103 | any file that verifies and ends in the remembered hash holds exactly the bodies that hash stands for, in order; they are everything appended exactly when no restart followed a record that reading cuts |
| AuditChain.KeptIffClean | backend/audit/audit_logger.py:80-103 | the remembered hash stands for everything appended exactly when before every restart the latest record was not cut |
| AuditChain.AuditLogger.constructor | backend/audit/audit_logger.py:13-21 | a new logger remembers the last hash of its file |
| AuditChain.AuditLogger.WriteRecord | backend/audit/audit_logger.py:93-103 | one stamped record is appended as a line of text and remembered; an intact log stays intact exactly when that text is not cut, and then the memory is the file's last hash |
| AuditMasking.MaskedTextShape | backend/audit/audit_logger.py:140-148 | up to eight characters are masked entirely, of longer text the first and last four stay around the token; a masked text masks to itself and never looks like a secret |
| AuditMasking.SanitizeCleans | backend/audit/audit_logger.py:112-132 | after sanitizing, at every depth, what a mapping holds under a forbidden key is masked text and text it holds directly does not look like a secret |
| AuditMasking.UnchangedIffClean | backend/audit/audit_logger.py:112-132 | sanitizing leaves a tree alone exactly when it is clean |
| AuditMasking.SecretSurvivesIff | backend/audit/audit_logger.py:112-138 | a text that looks like a secret is left exactly where it stands alone or inside a list or tuple, below no forbidden key |
| AuditMasking.SanitizeIdempotent | backend/audit/audit_logger.py:112-148 | sanitizing twice is sanitizing once, on every tree |
| AuditMasking.SecretMeans | backend/audit/audit_logger.py:134-138 | text without outer white space reads as a secret exactly from 16 characters on, without a space and with a digit and a letter |
| AuditMasking.EntryBecomes | backend/audit/audit_logger.py:124-132 | what becomes of one entry, by its key and the kind of its value |
| AuditMasking.ItemByItem | backend/audit/audit_logger.py:118-121 | lists are sanitized item by item, and tuples become lists |
| StrategyAdaptation.Evaluate | backend/learning/strategy_adaptation_engine.py:37-176 | the step-by-step evaluation equals the definition by pressure, mode and caps |
| StrategyAdaptation.PressureMonotone | backend/learning/strategy_adaptation_engine.py:55-110 | a riskier context and a worse record never lower the pressure |
| StrategyAdaptation.AdaptationMonotoneIff | backend/learning/strategy_adaptation_engine.py:37-176 | riskier context, worse record and tighter guidance never give a milder mode, floor, cap, multiplier, block or pause, exactly when no zero multiplier hides a smaller other one and no zero threshold a smaller one in normal mode |
| StrategyAdaptation.AdaptationMonotone | backend/learning/strategy_adaptation_engine.py:37-176 | in particular when the numbers read with a default are not zero |
| StrategyAdaptation.ZeroMultiplierLoosens | backend/learning/strategy_adaptation_engine.py:119-123 | concrete guidance whose tighter zero multiplier yields a looser outcome |
| StrategyAdaptation.OverridesTightenBase | backend/learning/strategy_adaptation_engine.py:111-157 | overrides are at least as tight as the base, each multiplier exactly when not zero; entries are paused exactly in suspended mode |
| StrategyAdaptation.SlippageWeight | backend/learning/strategy_adaptation_engine.py:55-57 | elevated slippage raises the pressure by 22 hundredths, up to 100 |
| StrategyAdaptation.LiquidityWeight | backend/learning/strategy_adaptation_engine.py:58-60 | liquidity that is not healthy raises it by 18 |
| StrategyAdaptation.OpenInterestWeight | backend/learning/strategy_adaptation_engine.py:61-63 | open interest that is not healthy raises it by 16 |
| StrategyAdaptation.FundingWeight | backend/learning/strategy_adaptation_engine.py:64-66 | elevated funding risk raises it by 12 |
| StrategyAdaptation.BasisWeight | backend/learning/strategy_adaptation_engine.py:67-69 | elevated basis risk raises it by 12 |
| StrategyAdaptation.LiquidationWeights | backend/learning/strategy_adaptation_engine.py:70-75 | elevated liquidation risk raises it by 22, critical risk by 35 in its place |
| StrategyAdaptation.NewsWeight | backend/learning/strategy_adaptation_engine.py:76-78 | a news conflict raises it by 18 |
| StrategyAdaptation.WhaleWeight | backend/learning/strategy_adaptation_engine.py:79-81 | a whale conflict raises it by 18 |
| StrategyAdaptation.RecordWeights | backend/learning/strategy_adaptation_engine.py:88-99 | a loss rate from 0.6 on raises it by 15, a confidence penalty from 0.12 on by 14 |
| StrategyAdaptation.StreakWeights | backend/learning/strategy_adaptation_engine.py:91-96 | a streak from three losses on raises it by 18, from five on by 35 in its place |
| StrategyAdaptation.FocusWeights | backend/learning/strategy_adaptation_engine.py:100-108 | bad regimes and low liquidity in focus raise it by 12 each, overreach in either or both forms by 15 once |
| StrategyAdaptation.CalmHasNoPressure | backend/learning/strategy_adaptation_engine.py:55-108 | nothing else raises it |
| StrategyAdaptation.ModesStart | backend/learning/strategy_adaptation_engine.py:110-117 | unpaused guidance is cautious from 35, restricted from 60 and suspended from 82 on; paused guidance is suspended |
| StrategyAdaptation.ModesBind | backend/learning/strategy_adaptation_engine.py:119-153 | the floor and the caps that each mode puts on guidance looser than all of them |
| StrategyAdaptation.TighterGuidanceKept | backend/learning/strategy_adaptation_engine.py:130-150 | guidance tighter than every mode keeps its own numbers |
| StrategyAdaptation.StrictModesBlockAndReview | backend/learning/strategy_adaptation_engine.py:127-157 | a dislocated regime joins the blocked ones, and a review is asked for, exactly in restricted and suspended mode |
| LearningFeedback.ConsecutiveLosses | backend/learning/feedback_loop.py:162-169 | the loop returns the length of the maximal leading run of losses |
| LearningFeedback.SymbolCooldowns | backend/learning/feedback_loop.py:247-286 | the loops give each symbol the entry its repeated losses and recent liquidations call for, counts included |
| LearningFeedback.CoolsExactly | backend/learning/feedback_loop.py:253-286 | a symbol cools down exactly after three losses with a recent latest one, or a recent liquidation |
| LearningFeedback.SummarizeBucket | backend/learning/feedback_loop.py:171-304 | the bucket's streak, loss rate, cap, blocked regimes and cooldowns are what the trades say; floors and ceilings never bind; entries pause exactly on a hard-block streak |
| LearningFeedback.MergeCooldowns | backend/learning/feedback_loop.py:389-393 | the loop merges the two tables, the strategy's entry counting where the fleet has none or it is active |
| LearningFeedback.MergeLosesNoCooldown | backend/learning/feedback_loop.py:389-393 | a symbol is active after the merge exactly when it was active in either bucket |
| LearningFeedback.ApplyPatches | backend/learning/feedback_loop.py:446-466 | the loop folds the first five patches |
| LearningFeedback.GetStrategyGuidance | backend/learning/feedback_loop.py:343-512 | guidance is the merge, then the adaptation, then the patches, then the soft modes, each stage pinned by its law below |
| LearningFeedback.StagesTighten | backend/learning/feedback_loop.py:350-466 | from computed buckets and non-negative patches every stage before the soft modes only tightens, the penalty stays within 0.45 and never falls, and no active cooldown is lost |
| LearningFeedback.RegimeBlockedExactly | backend/learning/feedback_loop.py:436-512 | on every exit path the regime is blocked exactly when listed or paused; the soft modes change a cap only to 10 and only when reopening |
| LearningFeedback.PatchOrderIrrelevant | backend/learning/feedback_loop.py:447-466 | at most five non-negative patches give the same guidance in any order |
| LearningFeedback.SoftModesReopenExactly | backend/learning/feedback_loop.py:483-512 | a pause is left exactly when no mode is on; bold and revenue mode set the cap of a paused strategy to 10 exactly when it is absent or not positive, or was 10, and keep it otherwise; sandbox alone keeps the cap, and nothing else changes |
| LearningFeedback.StreakPauseReopensAtTen | backend/learning/feedback_loop.py:220-494 | end to end: a bucket paused by its loss streak is reopened with cap 10 under bold or revenue mode, its blocked regimes staying blocked |
| LearningFeedback.MergeTakesTighter | backend/learning/feedback_loop.py:350-417 | the merged guidance takes the tighter figure of the two buckets each time, adds penalties up to 0.32, unites blocked regimes, and keeps the fleet's loss rate |
| LearningFeedback.AdaptationTakesEffect | backend/learning/feedback_loop.py:418-444 | after the adaptation guidance holds its overrides and its pause, and a penalty higher by 0.08 of its pressure, up to 0.45 |
| LearningFeedback.PatchesTakeEffect | backend/learning/feedback_loop.py:446-466 | the penalties of applied patches add up, to 0.45 at most; the smallest cap and size among them and the guidance bind; nothing else changes |
| LearningFeedback.SixthPatchIgnored | backend/learning/feedback_loop.py:447 | from the sixth on patches change nothing |
| LearningFeedback.PenaltyWeights | backend/learning/feedback_loop.py:207-218 | each signal of a bucket raises its penalty by its own weight, high leverage up to five times |
| LearningFeedback.CountersStep | backend/learning/feedback_loop.py:192-205 | what one more trade adds to the losses, the high-leverage losses and the losses of a regime |
| LearningFeedback.BlockedFromThirdLoss | backend/learning/feedback_loop.py:232-236 | a regime is blocked exactly from its third loss on, the neutral names excepted |
| LearningFeedback.SymbolLossesAre | backend/learning/feedback_loop.py:247-255 | the losses grouped under a symbol are its losing trades, UNKNOWN without one, the newest in front |
| LearningFeedback.CooldownCounts | backend/learning/feedback_loop.py:254-286 | a cooldown needs three losses or a liquidation, and counts at most the six newest losses and at least one |
| SignalMemory.DirectionKeyInjective | backend/decision/signal_memory_engine.py:51 | two directions never share a cooldown key |
| SignalMemory.PausesEndTogether | backend/decision/signal_memory_engine.py:114-120 | half an hour after the latest outcome nothing of the history blocks any more |
| SignalMemory.RecordedRepresents | backend/decision/signal_memory_engine.py:95-120 | recording keeps the compact state equal to the history: trailing non-win streaks, exact regime counts, last 120 losses, and cooldowns at every later clock reading |
| SignalMemory.RunRepresents | backend/decision/signal_memory_engine.py:95-120 | after any run under a clock that never goes back, the state answers every later reading as the full history does |
| SignalMemory.BlocksByPairIff | backend/decision/signal_memory_engine.py:52-97 | on every history blocking answers for the named strategy and regime alone, exactly when neither name holds a colon |
| SignalMemory.SignalMemoryEngine.RecordTradeOutcome | backend/decision/signal_memory_engine.py:95-120 | the updates in place give the recorded state, and the outcome joins the history it represents |
| SignalMemory.SignalMemoryEngine.Inspect | backend/decision/signal_memory_engine.py:47-90 | blocks exactly within 30 minutes of an outcome that left a streak of three or a failing regime; otherwise the factor is in 0.76..1 by the number of similar remembered losses |
| SignalMemory.SignalMemoryEngine.ImportState | backend/decision/signal_memory_engine.py:14-37 | importing an exported state restores it and what it represents |
| SignalMemory.StreakIsTrailing | backend/decision/signal_memory_engine.py:98-102 | a streak is the longest run of outcomes without a win at the end of its direction's outcomes |
| SignalMemory.ThreeStrikesBlock | backend/decision/signal_memory_engine.py:114-115 | three outcomes in a row without a win block their direction for 1800 seconds after the third |
| SignalMemory.WinResets | backend/decision/signal_memory_engine.py:98-102 | a win ends the streak, and with up to two losses after it changes nothing of what is blocked |
| SignalMemory.OneMoreCounted | backend/decision/signal_memory_engine.py:99-112 | what one more outcome adds to the statistics of its regime key and to the remembered losses |
| SignalMemory.FailingMeans | backend/decision/signal_memory_engine.py:117-120 | a regime fails exactly from five outcomes on with a win rate below 0.4 |
| SignalMemory.PenaltyScale | backend/decision/signal_memory_engine.py:68-88 | the factor is 1, 0.92, 0.84 and from three similar losses on 0.76; a similar loss agrees in fleet, side, setup, regime and volatility |
| SignalMemory.QueuesKeepNewest | backend/decision/signal_memory_engine.py:7-8 | the bounded queues keep the newest 120 losses and 500 signals in order |
| DynamicBlocklist.Blocklist.BlockSymbol | backend/learning/dynamic_blocklist.py:16-22 | the call joins the history; an empty symbol is ignored |
| DynamicBlocklist.Blocklist.IsSymbolBlocked | backend/learning/dynamic_blocklist.py:24-33 | true exactly when some past call's window, at least a minute long, extends past the clock |
| DynamicBlocklist.Blocklist.BlockedSymbols | backend/learning/dynamic_blocklist.py:69-76 | lists exactly those symbols |
| DynamicBlocklist.Blocklist.Prune | backend/learning/dynamic_blocklist.py:31-32 | dropping run-out entries is unobservable |
| DynamicBlocklist.BlocksForMinutes | backend/learning/dynamic_blocklist.py:16-33 | one call blocks its symbol for its minutes, at least one, and no other symbol |
| ExecutionGovernor.Governor.Evaluate | backend/governance/execution_governor.py:27-140 | approved exactly when validation approved, no guard applies and shadow mode lets it through; otherwise the first applicable guard gives the reason, the layer and the why-not |
| ExecutionGovernor.NeverApproves | backend/governance/execution_governor.py:42-68 | nothing validation rejected, no symbol under a block call and, outside sandbox and micro entries, nothing paused is ever approved |
| ExecutionGovernor.GuardsInOrder | backend/governance/execution_governor.py:42-124 | every guard of the cascade spelled out on the inputs, in order, each speaking only when no earlier one objects |
| GuidedGovernance.PausedBucketStopsEntries | backend/governance/execution_governor.py:47-51 | a pause in either bucket survives merge, adaptation and patches, and outside soft modes and sandbox the governor approves only micro entries |
| GuidedGovernance.BlockedRegimeSurvivesSoftModes | backend/learning/feedback_loop.py:483-512 | under every combination of flags a regime either bucket blocks is still refused by the governor |
| DailyPnl.DailyPnlTracker.Update | backend/analytics/daily_pnl_tracker.py:56-109 | every field after a reading, from any state; from an empty start positive readings are measured from the day's base, the peak is the day's highest reading, other readings change nothing |
| DailyPnl.RunTelescopes | backend/analytics/daily_pnl_tracker.py:56-109 | over any run of the tracker the figures its days end with and the current one sum to last minus first positive equity with reinvesting, and miss exactly the overnight gaps without it |
| DailyPnl.DailyPnlTelescopes | backend/analytics/daily_pnl_tracker.py:59-82 | the same for the figures defined on a list of readings |
| DailyPnl.RunTracks | backend/analytics/daily_pnl_tracker.py:56-82 | after any run of readings from an empty state, base, peak and last equity are those of its positive readings |
| DailyPnl.NewDayStart | backend/analytics/daily_pnl_tracker.py:59-71 | from any state a reinvested new day starts from the last equity, else the last start, else the remembered close, else the reading; otherwise from the reading |
| DailyPnl.RunRemembersClose | backend/analytics/daily_pnl_tracker.py:61-64 | after any run the remembered close is the last positive equity before the current day, or none |
| CorrelationRisk.AdmittedIff | backend/decision/correlation_risk_engine.py:12-54 | an order is admitted exactly when every single-order condition against the tick and the open positions holds |
| CorrelationRisk.TickVerdicts | backend/decision/correlation_risk_engine.py:20-38 | a refusal by other orders of the tick names a rule that is broken, the earlier ones of them being kept |
| CorrelationRisk.YieldVerdict | backend/decision/correlation_risk_engine.py:35-52 | a deprioritized order has an ETH or SOL long beside it, and an exposure refusal is above 1020 |
| CorrelationRisk.ExposureAdds | backend/decision/correlation_risk_engine.py:40-51 | exposure adds up over orders, each BTC or ETH order of the side counting margin times leverage |
| CorrelationRisk.TickKeepsInvariant | backend/decision/correlation_risk_engine.py:20-54 | every tick keeps the BTC and ETH exposure cap per side, the PEPE cap at admission, the SOL/PEPE quality order and the PEPE yield |
| CorrelationRisk.PepeMarginAtEnd | backend/decision/correlation_risk_engine.py:20-24 | at the end of a tick PEPE margins are within 0.3 of the larger of 100 and the largest BTC margin |
| CorrelationRisk.PepeCappedAtEndIff | backend/decision/correlation_risk_engine.py:20-24 | at the end of a tick every PEPE margin is within 0.3 of the BTC reference exactly when there is no BTC order or the largest one covers the PEPE margins admitted before any BTC order |
| CorrelationRisk.AdmissionKeepsPepeCappedIff | backend/decision/correlation_risk_engine.py:20-24 | an admitted order breaks that cap exactly when it is the first BTC order and too small for the PEPE margins before it |
| CorrelationRisk.LaterBtcOrderLowersCap | backend/decision/correlation_risk_engine.py:21-24 | a concrete tick whose admitted PEPE margin ends above 0.3 of the largest BTC margin |
| HardExit.RoundedStaysBelowIff | backend/autonomy/pure_ai_hard_exit.py:29-34 | rounding to two decimals never lifts a figure over a threshold, exactly when the threshold is less than half a hundredth, or half of one on top of an even one, above whole hundredths |
| HardExit.CollectHardExits | backend/autonomy/pure_ai_hard_exit.py:37-111 | the loop collects exactly the rows the positions call for, in order |
| HardExit.MergeExitActions | backend/autonomy/pure_ai_hard_exit.py:146-163 | the two loops lay the hard exits over the soft ones in an insertion-ordered dictionary |
| HardExit.MergeHoldsWinners | backend/autonomy/pure_ai_hard_exit.py:151-163 | the merge holds one action per symbol, namely the winner of its soft and hard exits |
| HardExit.WinnerRanksHighest | backend/autonomy/pure_ai_hard_exit.py:135-163 | the winner ranks at least as high as every hard exit for the symbol and its last soft exit |
| HardExit.ExactStopIsStoppedIff | backend/autonomy/pure_ai_hard_exit.py:71-73 | every exact loss at or past the stop is stopped on the rounded figure, exactly when rounding takes the percentage threshold down or the absolute stop already covers it |
| HardExit.StopNeverDisplaced | backend/autonomy/pure_ai_hard_exit.py:57-83 | whatever the soft exits, a stopped position's symbol has one collected action, a full close |
| HardExit.StopPlace | backend/autonomy/pure_ai_hard_exit.py:146-163 | that action stands in the collected list behind exactly the symbols named ahead of it |
| HardExit.AheadBySource | backend/autonomy/pure_ai_hard_exit.py:151-163 | these are the soft exits' symbols before it, or all soft symbols and the hard ones before it when no soft exit names it |
| HardExit.StopHandedOverIff | backend/autonomy/pure_ai_orchestrator.py:78-93 | the cycle hands over one full close for a stopped position's symbol, exactly when fewer than eight symbols are named ahead of it |
| HardExit.EightSymbolsKeepStops | backend/autonomy/pure_ai_orchestrator.py:78-93 | a cycle whose soft and hard exits name at most eight symbols hands every stop over |
| HardExit.SoftExitsDropStop | backend/autonomy/pure_ai_orchestrator.py:78-93 | soft exits on eight other symbols keep any stop from being handed over |
| HardExit.EightSoftExitsDropStop | backend/autonomy/pure_ai_orchestrator.py:83 | a concrete position at its stop and eight soft exits that drop it, for every configuration |
| HardExit.ProfitsTaken | backend/autonomy/pure_ai_hard_exit.py:85-110 | for an open, young position short of its stop and alone on its symbol, the collected actions hold one full close at or past the full threshold, one partial profit with the configured fraction at or past the partial one only, and none below both |
| HardExit.LargerProfitTakesMore | backend/autonomy/pure_ai_hard_exit.py:85-110 | short of the stop a larger profit on the same margin never takes a smaller fraction, for thresholds in order and a fraction within 0..1 |
| HardExit.LoneExit | backend/autonomy/pure_ai_hard_exit.py:57-163 | the merge and the sweep leave a lone, young position exactly the row it calls for |
| HardExit.LoneStaleSwept | backend/autonomy/pure_ai_orchestrator.py:329-353 | a lone old position that no row handles is swept by full closes only |
| HardExit.EmergencyIsStop | backend/autonomy/pure_ai_hard_exit.py:57-72 | with stops that are not negative every emergency is also a stop |
| HardExit.UrgencyRanks | backend/autonomy/pure_ai_hard_exit.py:135-143 | urgency ranks first, then a hard exit, then a full close |
| HardExit.SweepStale | backend/autonomy/pure_ai_orchestrator.py:329-353 | the loop sweeps the stale positions no action handles |
| HardExit.SweepCoversStale | backend/autonomy/pure_ai_orchestrator.py:332-340 | the sweep names exactly the symbols of unhandled stale positions |
| HardExit.SweepDistinctIff | backend/autonomy/pure_ai_orchestrator.py:334-352 | the sweep names each symbol once exactly when no two unhandled stale positions share one |
| HardExit.CollectExits | backend/autonomy/pure_ai_orchestrator.py:300-321 | the collected actions are the merge followed by the sweep, none without positions or with exits off |
| HardExit.RunCycleExits | backend/autonomy/pure_ai_orchestrator.py:78-93 | the first eight collected actions are handed over, with the number collected |
| PositionPolicy.FilterEntriesByLearning | backend/autonomy/pure_ai_position_policy.py:68-99 | keeps exactly the named rows that are pyramid adds or avoid blocked symbols, sides to avoid and the remembered losing side |
| PositionPolicy.RepeatOfLatestLossRefusedIff | backend/autonomy/pure_ai_position_policy.py:73-80 | the direction of the latest loss is refused exactly when the oldest listed loss was on the same side |
| PositionPolicy.RepeatedDirectionPasses | backend/autonomy/pure_ai_position_policy.py:96-98 | a concrete new entry in the direction that just lost passes |
| PositionPolicy.LearningKeepsExactly | backend/autonomy/pure_ai_position_policy.py:68-99 | row by row on the inputs: what the learning filter keeps, adds, blocked symbols, sides to avoid and the side of the oldest listed loss |
| PositionPolicy.LastListedIsOldest | backend/autonomy/pure_ai_position_policy.py:73-80 | the remembered side of a symbol is that of its last listed, hence oldest, loss |
| PositionPolicy.FilterPyramidCandidates | backend/autonomy/pure_ai_position_policy.py:182-212 | keeps new rows, and adds on confirmed positions after the cooldown |
| PositionPolicy.PyramidKeepsExactly | backend/autonomy/pure_ai_position_policy.py:199-211 | row by row: adds need confirmation and a full cooldown since the last add, counted from 0 without one |
| PositionPolicy.ApplyEntryThrottle | backend/autonomy/pure_ai_position_policy.py:102-142 | the two loops take the first rows on unseen symbols, new ones first |
| PositionPolicy.ThrottleFacts | backend/autonomy/pure_ai_position_policy.py:120-142 | distinct named symbols out of the input, exactly min(limit, distinct new symbols) new rows, at most the limit of adds |
| PositionPolicy.ThrottleIdempotent | backend/autonomy/pure_ai_position_policy.py:102-142 | throttling twice is throttling once |
| PositionPolicy.CollectEntries | backend/autonomy/pure_ai_orchestrator.py:128-150 | the chain is the pyramid filter, the learning filter, the veto and the throttle |
| PositionPolicy.EntriesAreSafe | backend/autonomy/pure_ai_orchestrator.py:128-150 | the chain's output draws on its proposals, has the throttled shape, and holds nothing vetoed, no avoided new entry and no unconfirmed or early add |
| PositionPolicy.HandedEntriesAreSafe | backend/autonomy/pure_ai_orchestrator.py:78-82 | the first eight entries, which are handed over, keep the throttled shape with min(8, kept) new rows and every safety |
| Sizing.ApplyAggressiveSizing | backend/autonomy/pure_ai_orchestrator.py:356-401 | the reassignments compute the leverage and the margin of the definition |
| Sizing.SizingWithinLimits | backend/autonomy/pure_ai_orchestrator.py:382-396 | leverage lies in 2..min(cap, 100); margin is the minimum, or above it and within every pool and absolute cap |
| Sizing.NotionalWithinTargetIff | backend/autonomy/pure_ai_orchestrator.py:391-396 | notional is within target plus leverage, or that of the minimum margin, exactly when the raw leverage is at least 2 or the margin asked for, the margin cap or the target at the raw leverage is within the room at leverage 2 |
| Sizing.NotionalWithinTwiceTarget | backend/autonomy/pure_ai_orchestrator.py:391-396 | for any leverage the same bound holds with twice the target |
| Sizing.ResizeIsNoOpIff | backend/autonomy/pure_ai_orchestrator.py:362-401 | sizing again is a no-op exactly when the raw leverage is at least 2 or re-read, or one of these three is within that room |
| Sizing.ThirdSizingIsNoOp | backend/autonomy/pure_ai_orchestrator.py:362-401 | from the second sizing on nothing changes |
| Sizing.ShippedCapsFit | config/pure_ai_trading_config.py:29-35 | under the default configuration both results hold for every proposal |
| Sizing.UnitLeverageOvershoots | backend/autonomy/pure_ai_orchestrator.py:391-396 | a concrete proposal that overshoots and shrinks when sized again |
| Sizing.AskedLeverageKept | backend/autonomy/pure_ai_orchestrator.py:367-395 | a positive asked leverage is kept within 2 and both caps, the flexible one before the plain one |
| Sizing.DefaultLeverage | backend/autonomy/pure_ai_orchestrator.py:368-369 | without one it is the default times the confidence, read as at least 0.85, and at least 10 |
| Sizing.DynamicLeverage | backend/autonomy/pure_ai_orchestrator.py:371-374 | dynamic sizing goes from the low leverage to the high one and never falls with confidence |
| Sizing.AskedMarginGiven | backend/autonomy/pure_ai_orchestrator.py:375-393 | a margin asked for within all limits is given: plain, else flexible, else the share of the pool |
| Sizing.CapIsSmallest | backend/autonomy/pure_ai_orchestrator.py:382-389 | the margin cap is the smallest of the fixed cap, the share of the pool and the share of the radar budget |
| Sizing.TargetReachedExactly | backend/autonomy/pure_ai_orchestrator.py:391-393 | a margin limited by the target meets it exactly, but for one extra unit |
| LiquidationTracker.ClosurePnl | backend/learning/liquidation_tracker.py:104-107 | the P&L taken for a closure is always negative, and the last known one when that was negative |
| LiquidationTracker.ClosureEstimate | backend/learning/liquidation_tracker.py:104-107 | without a known loss the figure is the worse of 0.5 and 15 percent of the margin, 1 without margin |
| LiquidationTracker.LastRowWins | backend/learning/liquidation_tracker.py:90-96 | the last open row of a symbol is its current position |
| LiquidationTracker.SyntheticMeans | backend/learning/liquidation_tracker.py:131 | synthetic ids are exactly the close marks |
| LiquidationTracker.Tracker.RecordExchangeLoss | backend/learning/liquidation_tracker.py:125-157 | a named symbol is watched and marked and its loss recorded, unless it is marked and the id synthetic |
| LiquidationTracker.Tracker.IngestLiveTrades | backend/learning/liquidation_tracker.py:39-48 | the loop books every row with a new id and a loss that counts |
| LiquidationTracker.Tracker.IngestIncomeEvents | backend/learning/liquidation_tracker.py:50-87 | the same for income rows, sharing the processed ids |
| LiquidationTracker.Tracker.IngestPositionClosures | backend/learning/liquidation_tracker.py:89-123 | open positions are watched, vanished ones booked, and the current ones remembered |
| LiquidationTracker.Tracker.Reconcile | backend/learning/liquidation_tracker.py:34-37 | one round in the order trades, income, closures; it keeps validity |
| LiquidationTracker.FirstLossRecorded | backend/learning/liquidation_tracker.py:39-48 | the first losing trade of every new id is recorded |
| LiquidationTracker.FirstIncomeLossRecorded | backend/learning/liquidation_tracker.py:61-87 | the same for income rows |
| LiquidationTracker.RoundRecordsFirstLosses | backend/learning/liquidation_tracker.py:34-87 | a whole round records the first losing trade of every id new to it, and the first losing income row of every id that neither earlier rounds nor its losing trades processed |
| LiquidationTracker.OnlyLossesRecorded | backend/learning/liquidation_tracker.py:39-87 | and nothing else: every new record comes from a named row that lost more than 0.01 |
| LiquidationTracker.ClosuresBooked | backend/learning/liquidation_tracker.py:98-121 | exactly the vanished, unmarked symbols are recorded, and every vanished symbol ends up marked |
| LiquidationTracker.RoundKeeps | backend/learning/liquidation_tracker.py:34-157 | a round keeps every invariant and leaves each vanished symbol with a recorded, negative loss |
| LiquidationTracker.RunKeeps | backend/learning/liquidation_tracker.py:34-157 | in every run each id is recorded at most once, each symbol has at most one closure and none after an earlier record, and every record is watched, marked and negative |
| TraceWriter.WritersAgreeIff | backend/services/runtime_store.py:951-966 | batch and row-by-row writing agree exactly on batches without an empty trace |
| TraceWriter.BatchedTraceWriter.Enqueue | backend/decision/batched_decision_trace_writer.py:37-41 | the record joins the account and the buffer stays within its bound |
| TraceWriter.BatchedTraceWriter.FlushLocked | backend/decision/batched_decision_trace_writer.py:47-59 | the buffer moves to the store in order and its size is returned |
| TraceWriter.NothingLostInAnyInterleaving | backend/decision/batched_decision_trace_writer.py:31-66 | in every interleaving, whenever the lock is free, the store followed by the buffer is what was enqueued in lock order, within the bound |
| TraceWriter.FlushThrough | backend/decision/batched_decision_trace_writer.py:43-59 | the lock holder's steps of a flush add up to what the method does: the whole buffer moves to the store |
| TraceWriter.EnqueueThrough | backend/decision/batched_decision_trace_writer.py:37-41 | the steps of an enqueue add up to the method too: the record joins the buffer, which moves to the store from the bound on |
| TraceWriter.RolesKept | backend/decision/batched_decision_trace_writer.py:61-66 | in every run the flush loop only flushes and halts only under the stop flag, and no thread is lost |
| TraceWriter.StopFlushes | backend/decision/batched_decision_trace_writer.py:31-35 | in every run with the stop flag up it was raised by a caller on its way into a flush |
| TraceWriter.AtMostOneInside | backend/decision/batched_decision_trace_writer.py:37-45 | no two threads are inside the critical section together |
| PerformanceReport.MaxDrawdown | backend/analytics/performance_report.py:39-45 | the one-pass loop returns the largest fall from an earlier to a later point of cumulative P&L |
| PerformanceReport.WinsKeepDrawdown | backend/analytics/performance_report.py:42-45 | a later result that is not a loss leaves the drawdown as it was |
| PerformanceReport.BucketBy | backend/analytics/performance_report.py:47-55 | each bucket holds exactly its key's trades, and the buckets add up to all of them |
| PerformanceReport.BuildPerformanceReport | backend/analytics/performance_report.py:29-95 | fleet and strategy buckets split the same trades, wins and P&L that the headline figures count |
| PerformanceReport.OneMoreTrade | backend/analytics/performance_report.py:29-55 | what one more trade adds to the whole and to the tally of its key, zero results counting as trades but not as wins |

## Left out

- Floating point and `round()`, except the two-decimal percentage on margin: exact reals stand in for them.
- SHA-256 and JSON (`AuditWitness.SoundCodecExists` shows that these assumptions can hold together): `Sound` takes a hexadecimal digest, a lossless canonical text, JSON text that escapes control characters and reads back, and pieces of a cut record that do not read as a record with a hash.
- Records that cannot be serialized or encoded: writing them raises before the file changes.
- A log file whose last line is not ended: appends are stated for files that are empty or end in a line boundary.
- A `hash` field that is present but not text: the log model has it as text or absent.
- Alphabetical order of `blocked_symbols`: `BlockedSymbols` returns a set.
- ATR, swing distances and the display fields of a summary: the exit score does not read them.
- The interval cache of `analyze` and the choice of the primary interval.
- Ranking of failure reasons by `most_common`: `SummarizeBucket` takes the focus set as given.
- Grouping of trades into buckets by fleet and strategy, and the calibration cache: buckets are inputs of the guidance.
- Symbol lessons and blacklisted symbols of learning patches: unions over all patches.
- Meeting-note text matching in the correlation engine: an arbitrary extra rejection.
- Missing margin, leverage or quality of a tick order: orders carry all three.
- The LLM evaluator, the market-signal proposers, the proposal-source filter and the pyramid collector: their rows are arbitrary inputs of `CollectEntries`.
- Whether a trend confirms a position: an arbitrary predicate of the symbol.
- What the executor does with an exit it is handed: matching it to a position, pricing and filling.
- Position age and the wording of exit reasons; rows that are not mappings.
- A failing trace store and a restarted flush thread: writes succeed and the loop runs once.
- Sides other than BUY and SELL in the signal memory, and several clock readings inside one call.
- Persistence of the daily tracker: `DailyPnlTracker.Load` starts from arbitrary saved values, for which only the effect of non-positive readings is claimed.
- Fee estimates, profit factor, cost analysis and walk-forward parts of the performance report.
- Feature penalties of the blocklist, status snapshots, dashboards, HTTP and exchange clients.
