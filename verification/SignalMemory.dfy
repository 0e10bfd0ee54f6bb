/** The signal memory: streaks, regime statistics and cooldowns, checked against the full history of outcomes. */
module SignalMemory {
  import opened Common

  datatype Side = Buy | Sell

  /** One recorded trade outcome with the clock reading (in seconds) of its recording. */
  datatype Outcome = Outcome(
    time: int, fleet: string, side: Side, strategy: string, regime: string, setup: string,
    highVolatility: bool, won: bool)

  datatype Pattern = Pattern(fleet: string, side: Side, setup: string, regime: string, highVolatility: bool)

  datatype Stats = Stats(wins: nat, losses: nat)

  /** The exported state. */
  datatype Memory = Memory(
    signalLog: seq<string>,
    lossPatterns: seq<Pattern>,
    directionFailures: map<(string, Side), nat>,
    directionPauses: map<string, int>,
    regimeStats: map<string, Stats>,
    regimePauses: map<string, int>)

  datatype Inspection =
    | DirectionCooldown
    | RegimePaused
    | Passed(penaltyFactor: real, similarLoss: bool)

  const PAUSE_SECONDS := 1800
  const SIGNAL_LIMIT: nat := 500
  const LOSS_LIMIT: nat := 120

  function SideName(s: Side): string {
    match s case Buy => "BUY" case Sell => "SELL"
  }

  function DirectionKey(fleet: string, side: Side): string {
    fleet + ":" + SideName(side)
  }

  function RegimeKey(strategy: string, regime: string): string {
    strategy + ":" + regime
  }

  /** The side name fixes where the fleet name ends, so no two directions share a cooldown. */
  lemma DirectionKeyInjective(f1: string, s1: Side, f2: string, s2: Side)
    requires DirectionKey(f1, s1) == DirectionKey(f2, s2)
    ensures f1 == f2 && s1 == s2
  {
    var k, n := DirectionKey(f1, s1), |DirectionKey(f1, s1)|;
    assert k[n - 1] == if s1 == Buy then 'Y' else 'L';
    assert k[n - 1] == if s2 == Buy then 'Y' else 'L';
    assert f1 == k[..|f1|] && f2 == k[..|f2|];
  }

  /** What a bounded queue keeps. */
  function LastN<T>(s: seq<T>, n: nat): seq<T> {
    if |s| > n then s[|s| - n..] else s
  }

  // ----- the history's own answers

  predicate OfDirection(o: Outcome, fleet: string, side: Side) {
    o.fleet == fleet && o.side == side
  }

  predicate OfRegime(o: Outcome, key: string) {
    RegimeKey(o.strategy, o.regime) == key
  }

  /** Length of the trailing run of outcomes of one direction that are not wins. */
  function Streak(h: seq<Outcome>, fleet: string, side: Side): nat {
    if h == [] then 0
    else
      var before, o := h[..|h| - 1], h[|h| - 1];
      if !OfDirection(o, fleet, side) then Streak(before, fleet, side)
      else if o.won then 0 else Streak(before, fleet, side) + 1
  }

  function Tally(h: seq<Outcome>, key: string): Stats {
    if h == [] then Stats(0, 0)
    else
      var before, o := Tally(h[..|h| - 1], key), h[|h| - 1];
      if !OfRegime(o, key) then before
      else if o.won then before.(wins := before.wins + 1) else before.(losses := before.losses + 1)
  }

  function LossHistory(h: seq<Outcome>): seq<Pattern> {
    if h == [] then []
    else
      var before, o := LossHistory(h[..|h| - 1]), h[|h| - 1];
      if o.won then before else before + [Pattern(o.fleet, o.side, o.setup, o.regime, o.highVolatility)]
  }

  /** Fewer than four wins in ten (the ratio is below 0.4), over at least five outcomes. */
  predicate Failing(s: Stats) {
    var total := s.wins + s.losses;
    total >= 5 && 10 * s.wins < 4 * total
  }

  /** The i-th outcome left its direction with three or more outcomes in a row that were not wins. */
  ghost predicate StruckOut(h: seq<Outcome>, i: nat, fleet: string, side: Side)
    requires i < |h|
  {
    OfDirection(h[i], fleet, side) && Streak(h[..i + 1], fleet, side) >= 3
  }

  /** The i-th outcome left its regime failing. */
  ghost predicate RegimeFailed(h: seq<Outcome>, i: nat, key: string)
    requires i < |h|
  {
    OfRegime(h[i], key) && Failing(Tally(h[..i + 1], key))
  }

  /** Within the half hour after an outcome that struck its direction out. */
  ghost predicate DirectionBlocked(h: seq<Outcome>, fleet: string, side: Side, now: int) {
    exists i: nat :: i < |h| && Cooling(h, i, fleet, side, now)
  }

  ghost predicate Cooling(h: seq<Outcome>, i: nat, fleet: string, side: Side, now: int)
    requires i < |h|
  {
    StruckOut(h, i, fleet, side) && now < h[i].time + PAUSE_SECONDS
  }

  /** Within the half hour after an outcome that left its regime failing. */
  ghost predicate RegimeBlocked(h: seq<Outcome>, key: string, now: int) {
    exists i: nat :: i < |h| && Resting(h, i, key, now)
  }

  ghost predicate Resting(h: seq<Outcome>, i: nat, key: string, now: int)
    requires i < |h|
  {
    RegimeFailed(h, i, key) && now < h[i].time + PAUSE_SECONDS
  }

  /** The clock never goes back. */
  ghost predicate Ordered(h: seq<Outcome>) {
    forall i, j :: 0 <= i < j < |h| ==> h[i].time <= h[j].time
  }

  // ----- how the state represents the history

  function Lookup<K, V>(m: map<K, V>, key: K, default: V): V {
    if key in m then m[key] else default
  }

  /** A stored pause end answers every later clock reading as the history does. */
  ghost predicate PauseAgrees(pauses: map<string, int>, key: string, now: int, blocked: bool) {
    (key in pauses && now < pauses[key]) <==> blocked
  }

  ghost predicate Represents(m: Memory, h: seq<Outcome>, clock: int) {
    && Ordered(h) && (h != [] ==> h[|h| - 1].time <= clock)
    && m.lossPatterns == LastN(LossHistory(h), LOSS_LIMIT)
    && (forall f: string, s: Side :: Lookup(m.directionFailures, (f, s), 0) == Streak(h, f, s))
    && (forall k: string :: Lookup(m.regimeStats, k, Stats(0, 0)) == Tally(h, k))
    && (forall f: string, s: Side, now: int :: now >= clock ==>
          PauseAgrees(m.directionPauses, DirectionKey(f, s), now, DirectionBlocked(h, f, s, now)))
    && (forall k: string, now: int :: now >= clock ==>
          PauseAgrees(m.regimePauses, k, now, RegimeBlocked(h, k, now)))
  }

  /** Later outcomes do not change what an earlier one did. */
  lemma EarlierUnchanged(h: seq<Outcome>, o: Outcome, i: nat, fleet: string, side: Side, key: string, now: int)
    requires i < |h|
    ensures Cooling(h + [o], i, fleet, side, now) <==> Cooling(h, i, fleet, side, now)
    ensures Resting(h + [o], i, key, now) <==> Resting(h, i, key, now)
  {
    assert (h + [o])[..i + 1] == h[..i + 1];
  }

  lemma DirectionBlockedNext(h: seq<Outcome>, o: Outcome, fleet: string, side: Side, now: int)
    ensures DirectionBlocked(h + [o], fleet, side, now) <==>
      || DirectionBlocked(h, fleet, side, now)
      || (OfDirection(o, fleet, side) && Streak(h + [o], fleet, side) >= 3 && now < o.time + PAUSE_SECONDS)
  {
    var g := h + [o];
    assert g[..|h| + 1] == g;
    forall i: nat | i < |h| ensures Cooling(g, i, fleet, side, now) <==> Cooling(h, i, fleet, side, now) {
      EarlierUnchanged(h, o, i, fleet, side, "", now);
    }
    assert Cooling(g, |h|, fleet, side, now) <==>
      OfDirection(o, fleet, side) && Streak(g, fleet, side) >= 3 && now < o.time + PAUSE_SECONDS;
  }

  lemma RegimeBlockedNext(h: seq<Outcome>, o: Outcome, key: string, now: int)
    ensures RegimeBlocked(h + [o], key, now) <==>
      || RegimeBlocked(h, key, now)
      || (OfRegime(o, key) && Failing(Tally(h + [o], key)) && now < o.time + PAUSE_SECONDS)
  {
    var g := h + [o];
    assert g[..|h| + 1] == g;
    forall i: nat | i < |h| ensures Resting(g, i, key, now) <==> Resting(h, i, key, now) {
      EarlierUnchanged(h, o, i, "", Buy, key, now);
    }
    assert Resting(g, |h|, key, now) <==>
      OfRegime(o, key) && Failing(Tally(g, key)) && now < o.time + PAUSE_SECONDS;
  }

  /** No earlier outcome can still block after the pause of the latest one has run out. */
  lemma PausesEndTogether(h: seq<Outcome>, fleet: string, side: Side, key: string, now: int)
    requires Ordered(h) && h != [] && now >= h[|h| - 1].time + 1800
    ensures !DirectionBlocked(h, fleet, side, now) && !RegimeBlocked(h, key, now)
  {
    forall i: nat | i < |h| ensures h[i].time <= h[|h| - 1].time {
    }
  }

  // ----- one recorded outcome, on values

  function PatternOf(o: Outcome): Pattern {
    Pattern(o.fleet, o.side, o.setup, o.regime, o.highVolatility)
  }

  function Recorded(m: Memory, o: Outcome): Memory {
    var d, k := (o.fleet, o.side), RegimeKey(o.strategy, o.regime);
    var failures := if o.won then 0 else Lookup(m.directionFailures, d, 0) + 1;
    var was := Lookup(m.regimeStats, k, Stats(0, 0));
    var stats := if o.won then was.(wins := was.wins + 1) else was.(losses := was.losses + 1);
    var until := o.time + PAUSE_SECONDS;
    m.(directionFailures := m.directionFailures[d := failures],
       regimeStats := m.regimeStats[k := stats],
       lossPatterns := if o.won then m.lossPatterns else LastN(m.lossPatterns + [PatternOf(o)], LOSS_LIMIT),
       directionPauses :=
         if failures >= 3 then m.directionPauses[DirectionKey(o.fleet, o.side) := until] else m.directionPauses,
       regimePauses := if Failing(stats) then m.regimePauses[k := until] else m.regimePauses)
  }

  /** Appending to a full queue drops the oldest entry, as dropping it from the whole history does. */
  lemma LossesRecorded(kept: seq<Pattern>, h: seq<Outcome>, o: Outcome)
    requires kept == LastN(LossHistory(h), LOSS_LIMIT)
    ensures LastN(LossHistory(h + [o]), LOSS_LIMIT) == if o.won then kept else LastN(kept + [PatternOf(o)], LOSS_LIMIT)
  {
    assert (h + [o])[..|h|] == h;
  }

  lemma FailuresRecorded(m: Memory, h: seq<Outcome>, clock: int, o: Outcome, f: string, s: Side)
    requires Represents(m, h, clock)
    ensures Lookup(Recorded(m, o).directionFailures, (f, s), 0) == Streak(h + [o], f, s)
  {
    assert (h + [o])[..|h|] == h;
    assert Lookup(m.directionFailures, (f, s), 0) == Streak(h, f, s);
  }

  lemma StatsRecorded(m: Memory, h: seq<Outcome>, clock: int, o: Outcome, k: string)
    requires Represents(m, h, clock)
    ensures Lookup(Recorded(m, o).regimeStats, k, Stats(0, 0)) == Tally(h + [o], k)
  {
    assert (h + [o])[..|h|] == h;
    assert Lookup(m.regimeStats, k, Stats(0, 0)) == Tally(h, k);
  }

  /** Which pauses recording writes, in terms of the history after it. */
  lemma PausesWritten(m: Memory, h: seq<Outcome>, clock: int, o: Outcome)
    requires Represents(m, h, clock)
    ensures var g, m', own := h + [o], Recorded(m, o), RegimeKey(o.strategy, o.regime);
      && m'.directionPauses == (if Streak(g, o.fleet, o.side) >= 3
           then m.directionPauses[DirectionKey(o.fleet, o.side) := o.time + PAUSE_SECONDS] else m.directionPauses)
      && m'.regimePauses == (if Failing(Tally(g, own))
           then m.regimePauses[own := o.time + PAUSE_SECONDS] else m.regimePauses)
  {
    assert (h + [o])[..|h|] == h;
    assert Lookup(m.directionFailures, (o.fleet, o.side), 0) == Streak(h, o.fleet, o.side);
    var own := RegimeKey(o.strategy, o.regime);
    assert Lookup(m.regimeStats, own, Stats(0, 0)) == Tally(h, own);
  }

  lemma RecordedRepresents(m: Memory, h: seq<Outcome>, clock: int, o: Outcome)
    requires Represents(m, h, clock) && clock <= o.time
    ensures Represents(Recorded(m, o), h + [o], o.time)
  {
    var g, m' := h + [o], Recorded(m, o);
    LossesRecorded(m.lossPatterns, h, o);
    forall f: string, s: Side ensures Lookup(m'.directionFailures, (f, s), 0) == Streak(g, f, s) {
      FailuresRecorded(m, h, clock, o, f, s);
    }
    forall k: string ensures Lookup(m'.regimeStats, k, Stats(0, 0)) == Tally(g, k) {
      StatsRecorded(m, h, clock, o, k);
    }
    forall f: string, s: Side, now: int | now >= o.time
      ensures PauseAgrees(m'.directionPauses, DirectionKey(f, s), now, DirectionBlocked(g, f, s, now))
    {
      DirectionPausesRecorded(m, h, clock, o, f, s, now);
    }
    forall k: string, now: int | now >= o.time
      ensures PauseAgrees(m'.regimePauses, k, now, RegimeBlocked(g, k, now))
    {
      RegimePausesRecorded(m, h, clock, o, k, now);
    }
  }

  lemma DirectionPausesRecorded(
    m: Memory, h: seq<Outcome>, clock: int, o: Outcome, f: string, s: Side, now: int)
    requires Represents(m, h, clock) && clock <= o.time <= now
    ensures PauseAgrees(Recorded(m, o).directionPauses, DirectionKey(f, s), now, DirectionBlocked(h + [o], f, s, now))
  {
    PausesWritten(m, h, clock, o);
    assert PauseAgrees(m.directionPauses, DirectionKey(f, s), now, DirectionBlocked(h, f, s, now));
    DirectionPauseRecorded(m.directionPauses, h, o, f, s, now);
  }

  lemma RegimePausesRecorded(m: Memory, h: seq<Outcome>, clock: int, o: Outcome, k: string, now: int)
    requires Represents(m, h, clock) && clock <= o.time <= now
    ensures PauseAgrees(Recorded(m, o).regimePauses, k, now, RegimeBlocked(h + [o], k, now))
  {
    PausesWritten(m, h, clock, o);
    assert PauseAgrees(m.regimePauses, k, now, RegimeBlocked(h, k, now));
    RegimePauseRecorded(m.regimePauses, h, o, k, now);
  }

  lemma DirectionPauseRecorded(pauses: map<string, int>, h: seq<Outcome>, o: Outcome, f: string, s: Side, now: int)
    requires Ordered(h + [o]) && o.time <= now
    requires PauseAgrees(pauses, DirectionKey(f, s), now, DirectionBlocked(h, f, s, now))
    ensures var g := h + [o];
      var pauses' := if Streak(g, o.fleet, o.side) >= 3
        then pauses[DirectionKey(o.fleet, o.side) := o.time + PAUSE_SECONDS] else pauses;
      PauseAgrees(pauses', DirectionKey(f, s), now, DirectionBlocked(g, f, s, now))
  {
    DirectionBlockedNext(h, o, f, s, now);
    if DirectionKey(f, s) == DirectionKey(o.fleet, o.side) {
      DirectionKeyInjective(f, s, o.fleet, o.side);
      if now >= o.time + PAUSE_SECONDS { PausesEndTogether(h + [o], f, s, "", now); }
    }
  }

  lemma RegimePauseRecorded(pauses: map<string, int>, h: seq<Outcome>, o: Outcome, k: string, now: int)
    requires Ordered(h + [o]) && o.time <= now
    requires PauseAgrees(pauses, k, now, RegimeBlocked(h, k, now))
    ensures var g := h + [o];
      var own := RegimeKey(o.strategy, o.regime);
      var pauses' := if Failing(Tally(g, own)) then pauses[own := o.time + PAUSE_SECONDS] else pauses;
      PauseAgrees(pauses', k, now, RegimeBlocked(g, k, now))
  {
    RegimeBlockedNext(h, o, k, now);
    if k == RegimeKey(o.strategy, o.regime) && now >= o.time + PAUSE_SECONDS {
      PausesEndTogether(h + [o], "", Buy, k, now);
    }
  }

  const NOTHING := Memory([], [], map[], map[], map[], map[])

  /** The state after a whole run of outcomes. */
  function Remembered(h: seq<Outcome>): Memory {
    if h == [] then NOTHING else Recorded(Remembered(h[..|h| - 1]), h[|h| - 1])
  }

  /** Main result: after any run under a clock that never goes back, the state answers as the history does. */
  lemma {:induction false} RunRepresents(h: seq<Outcome>, clock: int)
    requires Ordered(h) && (h != [] ==> h[|h| - 1].time == clock)
    ensures Represents(Remembered(h), h, clock)
  {
    if h != [] {
      var init, o := h[..|h| - 1], h[|h| - 1];
      assert h == init + [o];
      RunRepresents(init, ClockBefore(init, o));
      RecordedRepresents(Remembered(init), init, ClockBefore(init, o), o);
      LastRemembered(init, o);
    }
  }

  /** The clock reading of the latest earlier outcome. */
  function ClockBefore(h: seq<Outcome>, o: Outcome): int {
    if h == [] then o.time else h[|h| - 1].time
  }

  lemma LastRemembered(h: seq<Outcome>, o: Outcome)
    ensures Remembered(h + [o]) == Recorded(Remembered(h), o)
  {
    assert (h + [o])[..|h|] == h;
  }

  // ----- what the history's answers mean

  /** The outcomes of one direction, in order. */
  function DirectionOnly(h: seq<Outcome>, fleet: string, side: Side): seq<Outcome> {
    if h == [] then []
    else
      var before, o := DirectionOnly(h[..|h| - 1], fleet, side), h[|h| - 1];
      if o.fleet == fleet && o.side == side then before + [o] else before
  }

  /** A streak is the longest run of outcomes without a win at the end of its direction's outcomes. */
  lemma {:induction false} StreakIsTrailing(h: seq<Outcome>, fleet: string, side: Side)
    ensures var d, n := DirectionOnly(h, fleet, side), Streak(h, fleet, side);
      && n <= |d|
      && (forall i :: |d| - n <= i < |d| ==> !d[i].won)
      && (n < |d| ==> d[|d| - n - 1].won)
  {
    if h != [] { StreakIsTrailing(h[..|h| - 1], fleet, side); }
  }

  /** What one more outcome changes of a regime's statistics and of the losses. */
  lemma OneMoreCounted(h: seq<Outcome>, o: Outcome, key: string)
    ensures var own, was, now := RegimeKey(o.strategy, o.regime), Tally(h, key), Tally(h + [o], key);
      && (key == own && o.won ==> now == Stats(was.wins + 1, was.losses))
      && (key == own && !o.won ==> now == Stats(was.wins, was.losses + 1))
      && (key != own ==> now == was)
    ensures LossHistory(h + [o]) == LossHistory(h) +
      if o.won then [] else [Pattern(o.fleet, o.side, o.setup, o.regime, o.highVolatility)]
    ensures Tally([], key) == Stats(0, 0) && LossHistory([]) == []
  {
    assert (h + [o])[..|h|] == h;
  }

  /** The bounded queues keep the newest 120 losses and 500 signals, in order. */
  lemma QueuesKeepNewest<T>(s: seq<T>)
    ensures |LastN(s, LOSS_LIMIT)| == (if |s| < 120 then |s| else 120)
    ensures |LastN(s, SIGNAL_LIMIT)| == (if |s| < 500 then |s| else 500)
    ensures forall n: nat :: LastN(s, n) == s[|s| - |LastN(s, n)|..]
  {
  }

  /** Failing is winning less than two in five of at least five outcomes. */
  lemma FailingMeans(s: Stats)
    ensures Failing(s) <==>
      s.wins + s.losses >= 5 && s.wins as real / (s.wins + s.losses) as real < 0.4
  {
    var total := s.wins + s.losses;
    if total >= 5 {
      RatioBelow(s.wins as real, total as real, 0.4);
      assert 10 * s.wins < 4 * total <==> s.wins as real < 0.4 * total as real;
    }
  }

  lemma RatioBelow(x: real, n: real, bound: real)
    requires n > 0.0
    ensures x / n < bound <==> x < bound * n
  {
    var rate := x / n;
    assert rate * n == x;
    if rate < bound { ScaleStrict(rate, bound, n); } else { Scale(bound, rate, n); }
  }

  /** Three outcomes of a direction in a row without a win block it for 1800 seconds after the third. */
  lemma ThreeStrikesBlock(h: seq<Outcome>, a: Outcome, b: Outcome, c: Outcome, now: int)
    requires a.fleet == b.fleet == c.fleet && a.side == b.side == c.side && !a.won && !b.won && !c.won
    requires now < c.time + 1800
    ensures DirectionBlocked(h + [a] + [b] + [c], c.fleet, c.side, now)
  {
    var one, two := h + [a], h + [a] + [b];
    StreakNext(h, a, c.fleet, c.side);
    StreakNext(one, b, c.fleet, c.side);
    StreakNext(two, c, c.fleet, c.side);
    DirectionBlockedNext(two, c, c.fleet, c.side, now);
  }

  lemma StreakNext(h: seq<Outcome>, o: Outcome, fleet: string, side: Side)
    ensures Streak(h + [o], fleet, side) ==
      if o.fleet != fleet || o.side != side then Streak(h, fleet, side)
      else if o.won then 0 else Streak(h, fleet, side) + 1
  {
    assert (h + [o])[..|h|] == h;
  }

  /** A win ends the streak of its direction and blocks nothing, and neither does a first or second loss after it. */
  lemma WinResets(h: seq<Outcome>, win: Outcome, a: Outcome, b: Outcome, now: int)
    requires a.fleet == b.fleet == win.fleet && a.side == b.side == win.side && win.won
    ensures Streak(h + [win], win.fleet, win.side) == 0
    ensures DirectionBlocked(h + [win] + [a] + [b], win.fleet, win.side, now)
      <==> DirectionBlocked(h, win.fleet, win.side, now)
  {
    var one, two := h + [win], h + [win] + [a];
    StreakNext(h, win, win.fleet, win.side);
    StreakNext(one, a, win.fleet, win.side);
    StreakNext(two, b, win.fleet, win.side);
    DirectionBlockedNext(h, win, win.fleet, win.side, now);
    DirectionBlockedNext(one, a, win.fleet, win.side, now);
    DirectionBlockedNext(two, b, win.fleet, win.side, now);
  }

  /** The penalty factor by the number of similar losses, and how that is counted. */
  lemma PenaltyScale(
    ps: seq<Pattern>, p: Pattern, fleet: string, side: Side, setup: string, regime: string, high: bool)
    ensures PenaltyFactor(0) == 1.0 && PenaltyFactor(1) == 0.92 && PenaltyFactor(2) == 0.84
    ensures forall n: nat :: n >= 3 ==> PenaltyFactor(n) == 0.76
    ensures CountSimilar([], fleet, side, setup, regime, high) == 0
    ensures CountSimilar(ps + [p], fleet, side, setup, regime, high)
         == CountSimilar(ps, fleet, side, setup, regime, high)
      + if p.fleet == fleet && p.side == side && p.setup == setup && p.regime == regime && p.highVolatility == high
        then 1 else 0
  {
    assert (ps + [p])[..|ps|] == ps;
  }

  // ----- regimes by name

  predicate OfPair(o: Outcome, strategy: string, regime: string) {
    o.strategy == strategy && o.regime == regime
  }

  /** What `Tally` would count if a regime were told by its two names and not by the key they make. */
  function PairTally(h: seq<Outcome>, strategy: string, regime: string): Stats {
    if h == [] then Stats(0, 0)
    else
      var before, o := PairTally(h[..|h| - 1], strategy, regime), h[|h| - 1];
      if !OfPair(o, strategy, regime) then before
      else if o.won then before.(wins := before.wins + 1) else before.(losses := before.losses + 1)
  }

  /** Within the half hour after an outcome that left the named regime of the named strategy failing. */
  ghost predicate PairBlocked(h: seq<Outcome>, strategy: string, regime: string, now: int) {
    exists i: nat :: i < |h| && PairResting(h, i, strategy, regime, now)
  }

  ghost predicate PairResting(h: seq<Outcome>, i: nat, strategy: string, regime: string, now: int)
    requires i < |h|
  {
    && OfPair(h[i], strategy, regime) && Failing(PairTally(h[..i + 1], strategy, regime))
    && now < h[i].time + PAUSE_SECONDS
  }

  predicate KeyUnambiguous(strategy: string, regime: string) {
    ':' !in strategy && ':' !in regime
  }

  /** The key holds one colon, so the names before and after it are those of the pair. */
  lemma UnambiguousKey(strategy: string, regime: string, s: string, r: string)
    requires KeyUnambiguous(strategy, regime) && RegimeKey(s, r) == RegimeKey(strategy, regime)
    ensures s == strategy && r == regime
  {
    var key := RegimeKey(s, r);
    assert key[|s|] == ':' && key[|strategy|] == ':';
    assert forall i :: 0 <= i < |strategy| ==> key[i] == strategy[i];
    assert forall i :: |strategy| < i < |key| ==> key[i] == regime[i - |strategy| - 1];
    assert s == key[..|s|] && strategy == key[..|s|] && r == key[|s| + 1..] && regime == key[|s| + 1..];
  }

  /** Any other colon is a second place to cut the key. */
  lemma AmbiguousKey(strategy: string, regime: string) returns (s: string, r: string)
    requires !KeyUnambiguous(strategy, regime)
    ensures RegimeKey(s, r) == RegimeKey(strategy, regime) && s != strategy
  {
    if ':' in strategy {
      var i :| 0 <= i < |strategy| && strategy[i] == ':';
      s, r := strategy[..i], strategy[i + 1..] + ":" + regime;
      assert strategy == s + ":" + strategy[i + 1..];
    } else {
      var i :| 0 <= i < |regime| && regime[i] == ':';
      s, r := strategy + ":" + regime[..i], regime[i + 1..];
      assert regime == regime[..i] + ":" + r;
    }
  }

  lemma {:induction false} TallyByPair(h: seq<Outcome>, strategy: string, regime: string)
    requires KeyUnambiguous(strategy, regime)
    ensures Tally(h, RegimeKey(strategy, regime)) == PairTally(h, strategy, regime)
  {
    if h != [] {
      var o := h[|h| - 1];
      TallyByPair(h[..|h| - 1], strategy, regime);
      if OfRegime(o, RegimeKey(strategy, regime)) { UnambiguousKey(strategy, regime, o.strategy, o.regime); }
    }
  }

  lemma BlockedByPair(h: seq<Outcome>, strategy: string, regime: string, now: int)
    requires KeyUnambiguous(strategy, regime)
    ensures RegimeBlocked(h, RegimeKey(strategy, regime), now) <==> PairBlocked(h, strategy, regime, now)
  {
    forall i: nat | i < |h|
      ensures Resting(h, i, RegimeKey(strategy, regime), now) <==> PairResting(h, i, strategy, regime, now)
    {
      TallyByPair(h[..i + 1], strategy, regime);
      if OfRegime(h[i], RegimeKey(strategy, regime)) {
        UnambiguousKey(strategy, regime, h[i].strategy, h[i].regime);
      }
    }
  }

  /** A run of losses of one regime. */
  function Losses(strategy: string, regime: string, n: nat): seq<Outcome> {
    if n == 0 then [] else Losses(strategy, regime, n - 1) + [Outcome(0, "", Buy, strategy, regime, "", false, false)]
  }

  lemma {:induction false} LossesTallied(strategy: string, regime: string, n: nat)
    ensures var h := Losses(strategy, regime, n);
      && |h| == n && Tally(h, RegimeKey(strategy, regime)) == Stats(0, n)
      && forall i :: 0 <= i < n ==> h[i] == Outcome(0, "", Buy, strategy, regime, "", false, false)
  {
    if n > 0 {
      var before := Losses(strategy, regime, n - 1);
      LossesTallied(strategy, regime, n - 1);
      assert Losses(strategy, regime, n)[..n - 1] == before;
    }
  }

  /**
   * Blocking answers for the named pair alone, on every history, exactly when neither name holds a colon: with one, the
   * losses of another pair count for this one.
   */
  lemma BlocksByPairIff(strategy: string, regime: string)
    ensures (forall h: seq<Outcome>, now: int ::
              Ordered(h) ==> (RegimeBlocked(h, RegimeKey(strategy, regime), now) <==>
                              PairBlocked(h, strategy, regime, now)))
      <==> KeyUnambiguous(strategy, regime)
  {
    if KeyUnambiguous(strategy, regime) {
      forall h: seq<Outcome>, now: int
        ensures RegimeBlocked(h, RegimeKey(strategy, regime), now) <==> PairBlocked(h, strategy, regime, now)
      {
        BlockedByPair(h, strategy, regime, now);
      }
    } else {
      var s, r := AmbiguousKey(strategy, regime);
      var h := Losses(s, r, 5);
      LossesTallied(s, r, 5);
      assert h[..4 + 1] == h;
      assert Resting(h, 4, RegimeKey(strategy, regime), 0);
      assert !PairBlocked(h, strategy, regime, 0);
    }
  }

  // ----- the penalty

  predicate Similar(p: Pattern, fleet: string, side: Side, setup: string, regime: string, highVolatility: bool) {
    p == Pattern(fleet, side, setup, regime, highVolatility)
  }

  function CountSimilar(
    ps: seq<Pattern>, fleet: string, side: Side, setup: string, regime: string, highVolatility: bool): nat
  {
    if ps == [] then 0
    else
      CountSimilar(ps[..|ps| - 1], fleet, side, setup, regime, highVolatility)
      + if Similar(ps[|ps| - 1], fleet, side, setup, regime, highVolatility) then 1 else 0
  }

  /** 8 hundredths off per similar remembered loss, 24 at most. */
  function PenaltyFactor(similar: nat): real {
    if similar >= 3 then 0.76 else 1.0 - 0.08 * similar as real
  }

  // ----- the engine

  class SignalMemoryEngine {
    var signalLog: seq<string>
    var lossPatterns: seq<Pattern>
    var directionFailures: map<(string, Side), nat>
    var directionPauses: map<string, int>
    var regimeStats: map<string, Stats>
    var regimePauses: map<string, int>
    ghost var history: seq<Outcome>
    ghost var clock: int

    function ExportState(): Memory
      reads this
    {
      Memory(signalLog, lossPatterns, directionFailures, directionPauses, regimeStats, regimePauses)
    }

    ghost predicate Valid()
      reads this
    {
      Represents(ExportState(), history, clock) && |signalLog| <= SIGNAL_LIMIT
    }

    constructor (ghost start: int)
      ensures Valid() && history == [] && clock == start
    {
      signalLog, lossPatterns := [], [];
      directionFailures, directionPauses, regimeStats, regimePauses := map[], map[], map[], map[];
      history, clock := [], start;
    }

    /** Restores an exported state; the queues re-apply their bounds. */
    method ImportState(payload: Memory, ghost past: seq<Outcome>, ghost now: int)
      modifies this
      ensures ExportState() == payload.(signalLog := LastN(payload.signalLog, SIGNAL_LIMIT),
                                        lossPatterns := LastN(payload.lossPatterns, LOSS_LIMIT))
      ensures history == past && clock == now
      ensures Represents(payload, past, now) ==> Valid()
      ensures Represents(payload, past, now) && |payload.signalLog| <= SIGNAL_LIMIT ==> ExportState() == payload
    {
      signalLog := LastN(payload.signalLog, SIGNAL_LIMIT);
      lossPatterns := LastN(payload.lossPatterns, LOSS_LIMIT);
      directionFailures, directionPauses := payload.directionFailures, payload.directionPauses;
      regimeStats, regimePauses := payload.regimeStats, payload.regimePauses;
      history, clock := past, now;
    }

    method RecordSignal(payload: string)
      requires Valid()
      modifies this`signalLog
      ensures Valid()
      ensures signalLog == LastN(old(signalLog) + [payload], SIGNAL_LIMIT)
    {
      signalLog := LastN(signalLog + [payload], SIGNAL_LIMIT);
    }

    /** The counters and the loss queue of one outcome. */
    method CountOutcome(o: Outcome)
      modifies this`directionFailures, this`regimeStats, this`lossPatterns
      ensures var after := Recorded(old(ExportState()), o);
        && directionFailures == after.directionFailures && regimeStats == after.regimeStats
        && lossPatterns == after.lossPatterns
    {
      var d, k := (o.fleet, o.side), RegimeKey(o.strategy, o.regime);
      var was := Lookup(regimeStats, k, Stats(0, 0));
      if o.won {
        directionFailures := directionFailures[d := 0];
        regimeStats := regimeStats[k := was.(wins := was.wins + 1)];
      } else {
        directionFailures := directionFailures[d := Lookup(directionFailures, d, 0) + 1];
        regimeStats := regimeStats[k := was.(losses := was.losses + 1)];
        lossPatterns := LastN(lossPatterns + [PatternOf(o)], LOSS_LIMIT);
      }
    }

    /** The cooldowns one outcome starts, read off the updated counters. */
    method WritePauses(o: Outcome, ghost before: Memory)
      requires directionFailures == Recorded(before, o).directionFailures
      requires regimeStats == Recorded(before, o).regimeStats
      requires directionPauses == before.directionPauses && regimePauses == before.regimePauses
      modifies this`directionPauses, this`regimePauses
      ensures directionPauses == Recorded(before, o).directionPauses
      ensures regimePauses == Recorded(before, o).regimePauses
    {
      if directionFailures[(o.fleet, o.side)] >= 3 {
        directionPauses := directionPauses[DirectionKey(o.fleet, o.side) := o.time + PAUSE_SECONDS];
      }
      if Failing(regimeStats[RegimeKey(o.strategy, o.regime)]) {
        regimePauses := regimePauses[RegimeKey(o.strategy, o.regime) := o.time + PAUSE_SECONDS];
      }
    }

    method UpdateMemory(o: Outcome)
      modifies this`directionFailures, this`regimeStats, this`lossPatterns, this`directionPauses, this`regimePauses
      ensures ExportState() == Recorded(old(ExportState()), o)
    {
      ghost var before := ExportState();
      CountOutcome(o);
      WritePauses(o, before);
    }

    method RecordTradeOutcome(o: Outcome)
      requires Valid() && clock <= o.time
      modifies this
      ensures Valid() && history == old(history) + [o] && clock == o.time
      ensures ExportState() == Recorded(old(ExportState()), o)
    {
      RecordedRepresents(ExportState(), history, clock, o);
      UpdateMemory(o);
      history, clock := history + [o], o.time;
    }

    method Inspect(fleet: string, side: Side, strategy: string, regime: string, setup: string,
                   highVolatility: bool, now: int)
      returns (r: Inspection)
      requires Valid() && clock <= now
      ensures r.DirectionCooldown? <==> DirectionBlocked(history, fleet, side, now)
      ensures r.RegimePaused? <==>
        !DirectionBlocked(history, fleet, side, now) && RegimeBlocked(history, RegimeKey(strategy, regime), now)
      ensures r.Passed? ==>
        var remembered := LastN(LossHistory(history), LOSS_LIMIT);
        var similar := CountSimilar(remembered, fleet, side, setup, regime, highVolatility);
        0.76 <= r.penaltyFactor <= 1.0 && r.penaltyFactor == PenaltyFactor(similar) && (r.similarLoss <==> similar > 0)
    {
      var d, k := DirectionKey(fleet, side), RegimeKey(strategy, regime);
      assert PauseAgrees(directionPauses, d, now, DirectionBlocked(history, fleet, side, now));
      assert PauseAgrees(regimePauses, k, now, RegimeBlocked(history, k, now));
      if d in directionPauses && now < directionPauses[d] { return DirectionCooldown; }
      if k in regimePauses && now < regimePauses[k] { return RegimePaused; }
      var similar: nat := 0;
      for i := 0 to |lossPatterns|
        invariant similar == CountSimilar(lossPatterns[..i], fleet, side, setup, regime, highVolatility)
      {
        assert lossPatterns[..i + 1][..i] == lossPatterns[..i];
        if Similar(lossPatterns[i], fleet, side, setup, regime, highVolatility) { similar := similar + 1; }
      }
      assert lossPatterns[..|lossPatterns|] == lossPatterns;
      var factor := 1.0;
      if similar > 0 { factor := factor - MinR(0.08 * similar as real, 0.24); }
      r := Passed(MaxR(0.4, factor), similar > 0);
    }
  }
}
