/** The drawdown loop and the two bucketings of the performance report. */
module PerformanceReport {
  import opened Common
  import opened OrderedDict

  datatype Trade = Trade(pnl: real, fleet: string, strategyKey: string)

  datatype Bucket = Bucket(trades: nat, wins: nat, pnl: real)

  datatype Report =
    | NoTradeResults
    | Report(winRate: real, totalPnl: real, maxDrawdown: real, byFleet: Dict<Bucket>, byStrategy: Dict<Bucket>)

  // ----- drawdown

  /** Cumulative P&L after the oldest `k` results of a newest-first list. */
  function Equity(pnls: seq<real>, k: nat): real
    requires k <= |pnls|
  {
    if k == 0 then 0.0 else Equity(pnls, k - 1) + pnls[|pnls| - k]
  }

  /** No earlier-to-later fall within the first `k` points exceeds `d`. */
  ghost predicate FallsWithin(pnls: seq<real>, k: nat, d: real)
    requires k <= |pnls|
  {
    forall i: nat, j: nat :: i <= j <= k ==> Equity(pnls, i) - Equity(pnls, j) <= d
  }

  ghost predicate IsFall(pnls: seq<real>, i: nat, j: nat, d: real) {
    i <= j <= |pnls| && d == Equity(pnls, i) - Equity(pnls, j)
  }

  /** The quadratic definition: the largest fall of cumulative P&L from an earlier point to a later one. */
  ghost predicate IsMaxDrawdown(pnls: seq<real>, d: real) {
    (exists i: nat, j: nat :: IsFall(pnls, i, j, d)) && FallsWithin(pnls, |pnls|, d)
  }

  /** `peak` is the highest of the first `k` points, reached at point `top`. */
  ghost predicate IsPeak(pnls: seq<real>, k: nat, top: nat, peak: real)
    requires k <= |pnls|
  {
    top <= k && peak == Equity(pnls, top) && forall i: nat :: i <= k ==> Equity(pnls, i) <= peak
  }

  method MaxDrawdown(pnls: seq<real>) returns (maxDrawdown: real)
    ensures IsMaxDrawdown(pnls, maxDrawdown)
  {
    var equity, peak := 0.0, 0.0;
    maxDrawdown := 0.0;
    ghost var top: nat, i: nat, j: nat := 0, 0, 0;
    for k := 0 to |pnls|
      invariant equity == Equity(pnls, k)
      invariant IsPeak(pnls, k, top, peak)
      invariant IsFall(pnls, i, j, maxDrawdown)
      invariant FallsWithin(pnls, k, maxDrawdown)
    {
      equity := equity + pnls[|pnls| - 1 - k];
      ghost var before := maxDrawdown;
      top := PeakStep(pnls, k, top, peak);
      peak := MaxR(peak, equity);
      if peak - equity > maxDrawdown {
        i, j := top, k + 1;
      }
      maxDrawdown := MaxR(maxDrawdown, peak - equity);
      FallsStep(pnls, k, before, maxDrawdown, top, peak);
    }
  }

  lemma PeakStep(pnls: seq<real>, k: nat, top: nat, peak: real) returns (top': nat)
    requires k < |pnls| && IsPeak(pnls, k, top, peak)
    ensures IsPeak(pnls, k + 1, top', MaxR(peak, Equity(pnls, k + 1)))
  {
    top' := if Equity(pnls, k + 1) > peak then k + 1 else top;
  }

  lemma FallsStep(pnls: seq<real>, k: nat, before: real, after: real, top: nat, peak: real)
    requires k < |pnls| && FallsWithin(pnls, k, before) && before <= after
    requires IsPeak(pnls, k + 1, top, peak) && peak - Equity(pnls, k + 1) <= after
    ensures FallsWithin(pnls, k + 1, after)
  {
    forall i: nat, j: nat | i <= j <= k + 1 ensures Equity(pnls, i) - Equity(pnls, j) <= after {
      if j == k + 1 {
        assert Equity(pnls, i) <= peak;
      } else {
        assert Equity(pnls, i) - Equity(pnls, j) <= before;
      }
    }
  }

  /** Later results that never lose leave the maximum drawdown where it was. */
  lemma {:induction false} WinsKeepDrawdown(pnls: seq<real>, p: real, d: real)
    requires IsMaxDrawdown(pnls, d) && p >= 0.0
    ensures IsMaxDrawdown([p] + pnls, d)
  {
    var longer := [p] + pnls;
    forall k: nat | k <= |pnls| ensures Equity(longer, k) == Equity(pnls, k) {
      OlderPrefix(pnls, p, k);
    }
    var i: nat, j: nat :| IsFall(pnls, i, j, d);
    assert IsFall(longer, i, j, d);
    forall i: nat, j: nat | i <= j <= |longer| ensures Equity(longer, i) - Equity(longer, j) <= d {
      if j == |longer| {
        assert Equity(longer, j) == Equity(longer, j - 1) + p;
        assert Equity(pnls, |pnls|) - Equity(pnls, |pnls|) <= d;
        if i < j { assert Equity(pnls, i) - Equity(pnls, j - 1) <= d; }
      } else {
        assert Equity(pnls, i) - Equity(pnls, j) <= d;
      }
    }
  }

  lemma {:induction false} OlderPrefix(pnls: seq<real>, p: real, k: nat)
    requires k <= |pnls|
    ensures Equity([p] + pnls, k) == Equity(pnls, k)
  {
    if k > 0 { OlderPrefix(pnls, p, k - 1); }
  }

  // ----- buckets

  function FleetKey(t: Trade): string {
    Upper(if t.fleet == "" then "UNKNOWN" else t.fleet)
  }

  function StrategyKey(t: Trade): string {
    if t.strategyKey == "" then "unknown" else t.strategyKey
  }

  function Add(b: Bucket, t: Trade): Bucket {
    Bucket(b.trades + 1, b.wins + (if t.pnl > 0.0 then 1 else 0), b.pnl + t.pnl)
  }

  const EMPTY := Bucket(0, 0, 0.0)

  /** Reference definition: everything recorded for one key, by a single pass over the trades. */
  function Tally(trades: seq<Trade>, key: Trade -> string, k: string): Bucket {
    if trades == [] then EMPTY
    else
      var before := Tally(trades[..|trades| - 1], key, k);
      var last := trades[|trades| - 1];
      if key(last) == k then Add(before, last) else before
  }

  function Everything(trades: seq<Trade>): Bucket {
    if trades == [] then EMPTY else Add(Everything(trades[..|trades| - 1]), trades[|trades| - 1])
  }

  function Sum(d: Dict<Bucket>): Bucket {
    if d == [] then EMPTY
    else
      var rest := Sum(d[1..]);
      Bucket(d[0].1.trades + rest.trades, d[0].1.wins + rest.wins, d[0].1.pnl + rest.pnl)
  }

  /** What one more trade adds to the whole and to each key's tally: itself, a win if it gained, and its P&L. */
  lemma OneMoreTrade(trades: seq<Trade>, t: Trade, key: Trade -> string, k: string)
    ensures var all, more := Everything(trades), Everything(trades + [t]);
      more == Bucket(all.trades + 1, if t.pnl > 0.0 then all.wins + 1 else all.wins, all.pnl + t.pnl)
    ensures var own, more := Tally(trades, key, k), Tally(trades + [t], key, k);
      more == if key(t) != k then own
              else Bucket(own.trades + 1, if t.pnl > 0.0 then own.wins + 1 else own.wins, own.pnl + t.pnl)
    ensures Everything([]) == Tally([], key, k) == Bucket(0, 0, 0.0)
  {
    assert (trades + [t])[..|trades|] == trades;
  }

  /** Trades without a name go to UNKNOWN and unknown; fleets are told apart in upper case. */
  lemma KeysRead(t: Trade)
    ensures FleetKey(t) == (if t.fleet == "" then "UNKNOWN" else Upper(t.fleet))
    ensures StrategyKey(t) == (if t.strategyKey == "" then "unknown" else t.strategyKey)
  {
    assert Upper("UNKNOWN") == "UNKNOWN";
  }

  method BucketBy(trades: seq<Trade>, key: Trade -> string) returns (d: Dict<Bucket>)
    ensures Partitions(d, trades, key)
  {
    d := [];
    for n := 0 to |trades|
      invariant Unique(d)
      invariant forall k: string ::
        Get(d, k) == var b := Tally(trades[..n], key, k); if b.trades == 0 then None else Some(b)
      invariant Sum(d) == Everything(trades[..n])
    {
      var t := trades[n];
      var updated := Add(Get(d, key(t)).GetOr(EMPTY), t);
      assert trades[..n + 1][..n] == trades[..n];
      PutUnique(d, key(t), updated);
      SumPut(d, key(t), t);
      forall k: string
        ensures Get(Put(d, key(t), updated), k)
             == var b := Tally(trades[..n + 1], key, k); if b.trades == 0 then None else Some(b)
      {
        GetPut(d, key(t), updated, k);
        EmptyTally(trades[..n], key, k);
      }
      d := Put(d, key(t), updated);
    }
    assert trades[..|trades|] == trades;
  }

  lemma {:induction false} EmptyTally(trades: seq<Trade>, key: Trade -> string, k: string)
    ensures Tally(trades, key, k).trades == 0 ==> Tally(trades, key, k) == EMPTY
  {
    if trades != [] { EmptyTally(trades[..|trades| - 1], key, k); }
  }

  lemma {:induction false} SumPut(d: Dict<Bucket>, k: string, t: Trade)
    ensures Sum(Put(d, k, Add(Get(d, k).GetOr(EMPTY), t))) == Add(Sum(d), t)
  {
    var value := Add(Get(d, k).GetOr(EMPTY), t);
    if d == [] {
      assert Put(d, k, value)[1..] == [];
    } else if d[0].0 == k {
      assert Put(d, k, value)[1..] == d[1..];
    } else {
      assert Put(d, k, value)[1..] == Put(d[1..], k, value);
      SumPut(d[1..], k, t);
    }
  }

  lemma {:induction false} EverythingCounts(trades: seq<Trade>)
    ensures Everything(trades).trades == |trades|
    ensures Everything(trades).wins <= |trades|
  {
    if trades != [] { EverythingCounts(trades[..|trades| - 1]); }
  }

  function Pnls(trades: seq<Trade>): seq<real> {
    seq(|trades|, i requires 0 <= i < |trades| => trades[i].pnl)
  }

  method CountWins(trades: seq<Trade>) returns (wins: nat, total: real)
    ensures wins == Everything(trades).wins && total == Everything(trades).pnl
  {
    wins, total := 0, 0.0;
    for n := 0 to |trades|
      invariant wins == Everything(trades[..n]).wins && total == Everything(trades[..n]).pnl
    {
      assert trades[..n + 1][..n] == trades[..n];
      if trades[n].pnl > 0.0 { wins := wins + 1; }
      total := total + trades[n].pnl;
    }
    assert trades[..|trades|] == trades;
  }

  /** Every key's bucket holds exactly that key's trades, and the buckets add up to all of them. */
  ghost predicate Partitions(d: Dict<Bucket>, trades: seq<Trade>, key: Trade -> string) {
    && Unique(d)
    && (forall k: string :: Get(d, k) == var b := Tally(trades, key, k); if b.trades == 0 then None else Some(b))
    && Sum(d) == Everything(trades)
  }

  /** Both bucketings split the same trades, wins and P&L that the headline figures count. */
  ghost predicate Consistent(trades: seq<Trade>, r: Report)
    requires r.Report?
  {
    && Partitions(r.byFleet, trades, FleetKey) && Partitions(r.byStrategy, trades, StrategyKey)
    && Sum(r.byFleet).trades == |trades|
    && Sum(r.byFleet).pnl == r.totalPnl
    && IsRate(r.winRate, Sum(r.byFleet).wins, |trades|)
    && IsMaxDrawdown(Pnls(trades), r.maxDrawdown)
  }

  method BuildPerformanceReport(trades: seq<Trade>) returns (r: Report)
    ensures r.NoTradeResults? <==> trades == []
    ensures r.Report? ==> Consistent(trades, r)
  {
    if trades == [] { return NoTradeResults; }
    var wins, total := CountWins(trades);
    EverythingCounts(trades);
    var winRate := WinRate(wins, |trades|);
    var drawdown := MaxDrawdown(Pnls(trades));
    var byFleet := BucketBy(trades, FleetKey);
    var byStrategy := BucketBy(trades, StrategyKey);
    r := Report(winRate, total, drawdown, byFleet, byStrategy);
  }

  ghost predicate IsRate(rate: real, wins: nat, n: nat) {
    0.0 <= rate <= 1.0 && rate * n as real == wins as real
  }

  method WinRate(wins: nat, n: nat) returns (rate: real)
    requires 0 < n && wins <= n
    ensures IsRate(rate, wins, n)
  {
    rate := wins as real / n as real;
  }
}
