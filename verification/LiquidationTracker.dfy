/** Detection of exchange-side losses and position closures, each recorded at most once. */
module LiquidationTracker {
  import opened Common
  import opened OrderedDict

  datatype LiveTrade = LiveTrade(id: string, symbol: string, pnl: real)

  datatype Income = Income(id: string, symbol: string, amount: real)

  datatype Position = Position(symbol: string, quantity: real, signedQuantity: real, pnl: real, margin: real)

  /** Where a recorded loss came from. */
  datatype Source = FromTrade(id: string) | FromIncome(id: string) | FromClosure

  /** One call of the learning callback, with its unrounded P&L. */
  datatype Record = Record(source: Source, symbol: string, pnl: real)

  function CloseKey(symbol: string): string {
    "closed:" + symbol
  }

  lemma CloseKeyInjective(a: string, b: string)
    requires CloseKey(a) == CloseKey(b)
    ensures a == b
  {
    assert CloseKey(a)[7..] == a && CloseKey(b)[7..] == b;
  }

  predicate LooksSynthetic(id: string) {
    "closed:" <= id
  }

  /** Synthetic ids are the close marks. */
  lemma SyntheticMeans(id: string)
    ensures LooksSynthetic(id) <==> exists symbol :: id == CloseKey(symbol)
  {
    if LooksSynthetic(id) { assert id == CloseKey(id[7..]); }
  }

  predicate IsOpen(p: Position) {
    p.symbol != "" && AbsR(OrElse(p.quantity, p.signedQuantity)) > 0.000000000001
  }

  /** The open positions by symbol, in order of first appearance, the last row of a symbol winning. */
  function Current(live: seq<Position>): Dict<Position> {
    if live == [] then []
    else
      var before, p := Current(live[..|live| - 1]), live[|live| - 1];
      if IsOpen(p) then Put(before, Upper(p.symbol), p) else before
  }

  function Keys(d: Dict<Position>): set<string> {
    set e | e in d :: e.0
  }

  /** What a vanished position is taken to have lost: its last negative P&L, or an estimate. */
  function ClosurePnl(p: Position): (pnl: real)
    ensures pnl < 0.0
    ensures p.pnl < 0.0 ==> pnl == p.pnl
  {
    if p.pnl >= 0.0 then (if p.margin > 0.0 then -MaxR(0.5, p.margin * 0.15) else -1.0) else p.pnl
  }

  /** A closure without a known loss is put at 15 percent of the margin, at least half a unit; without margin at one. */
  lemma ClosureEstimate(p: Position)
    ensures p.pnl >= 0.0 && p.margin > 0.0 ==> ClosurePnl(p) <= -0.5 && ClosurePnl(p) <= -0.15 * p.margin
    ensures p.pnl >= 0.0 && p.margin > 0.0 ==> ClosurePnl(p) == -0.5 || ClosurePnl(p) == -0.15 * p.margin
    ensures p.pnl >= 0.0 && p.margin <= 0.0 ==> ClosurePnl(p) == -1.0
  {
  }

  /** A row is an open position when it is named and its quantity, or else its signed quantity, is not negligible. */
  lemma OpenMeans(p: Position)
    ensures p.symbol == "" ==> !IsOpen(p)
    ensures p.symbol != "" && p.quantity != 0.0 ==>
      (IsOpen(p) <==> p.quantity > 0.000000000001 || p.quantity < -0.000000000001)
    ensures p.symbol != "" && p.quantity == 0.0 ==>
      (IsOpen(p) <==> p.signedQuantity > 0.000000000001 || p.signedQuantity < -0.000000000001)
  {
  }

  /** The last open row of a symbol is its current position. */
  lemma {:induction false} LastRowWins(live: seq<Position>, i: nat)
    requires i < |live| && IsOpen(live[i])
    requires forall j :: i < j < |live| && IsOpen(live[j]) ==> Upper(live[j].symbol) != Upper(live[i].symbol)
    ensures Get(Current(live), Upper(live[i].symbol)) == Some(live[i])
  {
    var init, last := live[..|live| - 1], live[|live| - 1];
    if i < |init| { LastRowWins(init, i); }
    if IsOpen(last) { GetPut(Current(init), Upper(last.symbol), last, Upper(live[i].symbol)); }
  }

  // ----- one round, on values

  /** What the tracker remembers and has recorded. */
  datatype Ledger = Ledger(ids: set<string>, marks: set<string>, watched: set<string>, recorded: seq<Record>)

  /** Record a loss: watch and mark its symbol; a synthetic id on a marked symbol is dropped. */
  function Booked(l: Ledger, symbol: string, tradeId: string, source: Source, pnl: real): Ledger {
    if symbol == "" then l
    else
      var s := Upper(symbol);
      var watching := l.(watched := l.watched + {s});
      if CloseKey(s) in l.marks && LooksSynthetic(tradeId) then watching
      else watching.(marks := l.marks + {CloseKey(s)}, recorded := l.recorded + [Record(source, s, pnl)])
  }

  /** Take in one row: unnamed, processed and insignificant ones are skipped. */
  function Ingested(l: Ledger, id: string, symbol: string, tradeId: string, source: Source, pnl: real): Ledger {
    if id == "" || id in l.ids || pnl >= -0.01 then l
    else Booked(l.(ids := l.ids + {id}), symbol, tradeId, source, pnl)
  }

  function WithTrades(l: Ledger, trades: seq<LiveTrade>): Ledger {
    if trades == [] then l
    else
      var t := trades[|trades| - 1];
      Ingested(WithTrades(l, trades[..|trades| - 1]), t.id, t.symbol, t.id, FromTrade(t.id), t.pnl)
  }

  function WithIncome(l: Ledger, rows: seq<Income>): Ledger {
    if rows == [] then l
    else
      var r := rows[|rows| - 1];
      Ingested(WithIncome(l, rows[..|rows| - 1]), r.id, r.symbol, "income_" + r.id, FromIncome(r.id), r.amount)
  }

  /** Every remembered position that is gone and whose symbol is unmarked is booked as closed. */
  function WithClosures(l: Ledger, last: Dict<Position>, current: Dict<Position>): Ledger {
    if last == [] then l
    else
      var before, e := WithClosures(l, last[..|last| - 1], current), last[|last| - 1];
      if Get(current, e.0).Some? || CloseKey(e.0) in before.marks then before
      else Booked(before, e.0, CloseKey(e.0), FromClosure, ClosurePnl(e.1))
  }

  datatype Inputs = Inputs(live: seq<Position>, trades: seq<LiveTrade>, income: Option<seq<Income>>)

  datatype State = State(ledger: Ledger, last: Dict<Position>)

  /** The ledger of a round once trades and income are in. */
  function AfterRows(l: Ledger, r: Inputs): Ledger {
    var traded := WithTrades(l, r.trades);
    if r.income.Some? then WithIncome(traded, r.income.value) else traded
  }

  function Reconciled(s: State, r: Inputs): State {
    var rows, current := AfterRows(s.ledger, r), Current(r.live);
    State(WithClosures(rows.(watched := rows.watched + Keys(current)), s.last, current), current)
  }

  const FRESH := State(Ledger({}, {}, {}, []), [])

  function Run(rounds: seq<Inputs>): State {
    if rounds == [] then FRESH else Reconciled(Run(rounds[..|rounds| - 1]), rounds[|rounds| - 1])
  }

  // ----- what every run keeps

  predicate HasId(r: Record) { !r.source.FromClosure? }

  function IdOf(r: Record): string
    requires HasId(r)
  {
    r.source.id
  }

  /** No trade or income id is recorded twice, and a closure is recorded only for a symbol without earlier record. */
  ghost predicate AtMostOnce(log: seq<Record>) {
    && (forall i, j :: 0 <= i < j < |log| && HasId(log[i]) && HasId(log[j]) ==> IdOf(log[i]) != IdOf(log[j]))
    && (forall i, j :: 0 <= i < j < |log| && log[j].source.FromClosure? ==> log[i].symbol != log[j].symbol)
  }

  /** Every recorded symbol is named and watched, every recorded P&L is negative. */
  ghost predicate Watched(log: seq<Record>, watched: set<string>) {
    forall r :: r in log ==> r.symbol != "" && r.symbol in watched && r.pnl < 0.0
  }

  /** The processed ids cover the recorded ones, and the close marks are exactly the recorded symbols. */
  ghost predicate Marks(log: seq<Record>, ids: set<string>, marks: set<string>) {
    && (forall r :: r in log && HasId(r) ==> IdOf(r) in ids)
    && (forall r :: r in log ==> CloseKey(r.symbol) in marks)
    && (forall k :: k in marks ==> exists r :: r in log && k == CloseKey(r.symbol))
  }

  ghost predicate Sound(l: Ledger) {
    AtMostOnce(l.recorded) && Watched(l.recorded, l.watched) && Marks(l.recorded, l.ids, l.marks)
  }

  /** Nothing recorded, watched, marked or processed is ever forgotten. */
  ghost predicate Extends(l: Ledger, m: Ledger) {
    l.recorded <= m.recorded && l.watched <= m.watched && l.marks <= m.marks && l.ids <= m.ids
  }

  lemma BookedSound(l: Ledger, symbol: string, tradeId: string, source: Source, pnl: real)
    requires Sound(l) && pnl < 0.0
    requires !source.FromClosure? ==>
      source.id in l.ids && forall q :: q in l.recorded && HasId(q) ==> IdOf(q) != source.id
    requires source.FromClosure? ==> CloseKey(Upper(symbol)) !in l.marks
    ensures Sound(Booked(l, symbol, tradeId, source, pnl)) && Extends(l, Booked(l, symbol, tradeId, source, pnl))
  {
    if symbol != "" {
      var r := Record(source, Upper(symbol), pnl);
      AppendOnce(l.recorded, r, l.marks);
      AppendMarks(l.recorded, r, l.ids, l.marks);
    }
  }

  lemma AppendOnce(log: seq<Record>, r: Record, marks: set<string>)
    requires AtMostOnce(log)
    requires forall q :: q in log ==> CloseKey(q.symbol) in marks
    requires HasId(r) ==> forall q :: q in log && HasId(q) ==> IdOf(q) != IdOf(r)
    requires r.source.FromClosure? ==> CloseKey(r.symbol) !in marks
    ensures AtMostOnce(log + [r])
  {
    var more := log + [r];
    forall i, j | 0 <= i < j < |more| && more[j].source.FromClosure? ensures more[i].symbol != more[j].symbol {
      assert more[i] in log;
    }
    forall i, j | 0 <= i < j < |more| && HasId(more[i]) && HasId(more[j]) ensures IdOf(more[i]) != IdOf(more[j]) {
      assert more[i] in log;
    }
  }

  lemma AppendMarks(log: seq<Record>, r: Record, ids: set<string>, marks: set<string>)
    requires Marks(log, ids, marks) && (HasId(r) ==> IdOf(r) in ids)
    ensures Marks(log + [r], ids, marks + {CloseKey(r.symbol)})
  {
    var more := log + [r];
    forall k | k in marks + {CloseKey(r.symbol)} ensures exists q :: q in more && k == CloseKey(q.symbol) {
      if k in marks {
        var q :| q in log && k == CloseKey(q.symbol);
        assert q in more;
      } else {
        assert r in more;
      }
    }
  }

  lemma IngestedSound(l: Ledger, id: string, symbol: string, tradeId: string, source: Source, pnl: real)
    requires Sound(l) && !source.FromClosure? && source.id == id
    ensures Sound(Ingested(l, id, symbol, tradeId, source, pnl))
    ensures Extends(l, Ingested(l, id, symbol, tradeId, source, pnl))
  {
    if id != "" && id !in l.ids && pnl < -0.01 {
      BookedSound(l.(ids := l.ids + {id}), symbol, tradeId, source, pnl);
    }
  }

  lemma {:induction false} TradesSound(l: Ledger, trades: seq<LiveTrade>)
    requires Sound(l)
    ensures Sound(WithTrades(l, trades)) && Extends(l, WithTrades(l, trades))
  {
    if trades != [] {
      var t := trades[|trades| - 1];
      TradesSound(l, trades[..|trades| - 1]);
      IngestedSound(WithTrades(l, trades[..|trades| - 1]), t.id, t.symbol, t.id, FromTrade(t.id), t.pnl);
    }
  }

  lemma {:induction false} IncomeSound(l: Ledger, rows: seq<Income>)
    requires Sound(l)
    ensures Sound(WithIncome(l, rows)) && Extends(l, WithIncome(l, rows))
  {
    if rows != [] {
      var r := rows[|rows| - 1];
      IncomeSound(l, rows[..|rows| - 1]);
      IngestedSound(WithIncome(l, rows[..|rows| - 1]), r.id, r.symbol, "income_" + r.id, FromIncome(r.id), r.amount);
    }
  }

  /** Remembered positions are unique by symbol, named and upper-case. */
  ghost predicate Positions(d: Dict<Position>) {
    Unique(d) && forall e :: e in d ==> e.0 != "" && Upper(e.0) == e.0
  }

  /** Exactly the vanished, unmarked symbols are booked, in order, each at its closure P&L. */
  function Closures(l: Ledger, last: Dict<Position>, current: Dict<Position>): seq<Record> {
    if last == [] then []
    else
      var before, e := Closures(l, last[..|last| - 1], current), last[|last| - 1];
      if Get(current, e.0).Some? || CloseKey(e.0) in l.marks then before
      else before + [Record(FromClosure, e.0, ClosurePnl(e.1))]
  }

  lemma {:induction false} ClosuresBooked(l: Ledger, last: Dict<Position>, current: Dict<Position>)
    requires Sound(l) && Positions(last)
    ensures var m := WithClosures(l, last, current);
      && Sound(m) && Extends(l, m)
      && m.recorded == l.recorded + Closures(l, last, current)
      && (forall k :: k in m.marks <==>
           k in l.marks || exists e :: e in last && Get(current, e.0).None? && k == CloseKey(e.0))
  {
    if last == [] {
      assert l.recorded + [] == l.recorded;
    } else {
      var init, e := last[..|last| - 1], last[|last| - 1];
      assert last == init + [e];
      assert e in last;
      ClosuresBooked(l, init, current);
      var before := WithClosures(l, init, current);
      if Get(current, e.0).None? {
        if CloseKey(e.0) in before.marks && CloseKey(e.0) !in l.marks {
          var f :| f in init && Get(current, f.0).None? && CloseKey(e.0) == CloseKey(f.0);
          CloseKeyInjective(e.0, f.0);
          assert false;
        }
        if CloseKey(e.0) !in before.marks {
          BookedSound(before, e.0, CloseKey(e.0), FromClosure, ClosurePnl(e.1));
          Regroup(l.recorded, Closures(l, init, current), [Record(FromClosure, e.0, ClosurePnl(e.1))]);
        }
      }
    }
  }

  /** What a state owes at any time. */
  ghost predicate Valid(s: State) {
    Sound(s.ledger) && Positions(s.last) && Keys(s.last) <= s.ledger.watched
  }

  /**
   * One round: it keeps every invariant, appends exactly one closure for each vanished symbol that no loss had been
   * recorded for by then, and leaves every vanished symbol with a recorded, negative loss.
   */
  lemma RoundKeeps(s: State, r: Inputs)
    requires Valid(s)
    ensures var t, rows := Reconciled(s, r), AfterRows(s.ledger, r);
      && Valid(t) && Extends(s.ledger, t.ledger) && t.last == Current(r.live)
      && t.ledger.recorded == rows.recorded + Closures(rows, s.last, t.last)
      && (forall x :: x in Keys(s.last) - Keys(t.last) ==>
           exists q :: q in t.ledger.recorded && q.symbol == x && q.pnl < 0.0)
  {
    TradesSound(s.ledger, r.trades);
    if r.income.Some? { IncomeSound(WithTrades(s.ledger, r.trades), r.income.value); }
    var rows, current := AfterRows(s.ledger, r), Current(r.live);
    CurrentFacts(r.live);
    var watching := rows.(watched := rows.watched + Keys(current));
    assert Sound(watching);
    ClosuresBooked(watching, s.last, current);
    SameMarks(rows, watching, s.last, current);
    var t := Reconciled(s, r);
    forall x | x in Keys(s.last) - Keys(t.last)
      ensures exists q :: q in t.ledger.recorded && q.symbol == x && q.pnl < 0.0
    {
      var e :| e in s.last && e.0 == x;
      InKeys(current, x);
      assert CloseKey(x) in t.ledger.marks;
      var q :| q in t.ledger.recorded && CloseKey(x) == CloseKey(q.symbol);
      CloseKeyInjective(x, q.symbol);
    }
  }

  lemma {:induction false} SameMarks(l: Ledger, m: Ledger, last: Dict<Position>, current: Dict<Position>)
    requires l.marks == m.marks
    ensures Closures(l, last, current) == Closures(m, last, current)
  {
    if last != [] { SameMarks(l, m, last[..|last| - 1], current); }
  }

  /** Main result: every run of rounds keeps the at-most-once, watching and marking invariants. */
  lemma {:induction false} RunKeeps(rounds: seq<Inputs>)
    ensures Valid(Run(rounds))
  {
    if rounds != [] {
      RunKeeps(rounds[..|rounds| - 1]);
      RoundKeeps(Run(rounds[..|rounds| - 1]), rounds[|rounds| - 1]);
    }
  }

  // ----- completeness

  /** A losing trade with a name and an id that neither an earlier losing row nor an earlier round processed. */
  ghost predicate FirstLoss(trades: seq<LiveTrade>, n: nat, processed: set<string>)
    requires n < |trades|
  {
    var t := trades[n];
    && t.id != "" && t.symbol != "" && t.pnl < -0.01 && !LooksSynthetic(t.id) && t.id !in processed
    && forall m :: 0 <= m < n && trades[m].pnl < -0.01 ==> trades[m].id != t.id
  }

  /** The same for an income row, whose ids share the processed set with the trades. */
  ghost predicate FirstIncomeLoss(rows: seq<Income>, n: nat, processed: set<string>)
    requires n < |rows|
  {
    var r := rows[n];
    && r.id != "" && r.symbol != "" && r.amount < -0.01 && r.id !in processed
    && forall m :: 0 <= m < n && rows[m].amount < -0.01 ==> rows[m].id != r.id
  }

  /** A losing trade processes the id. */
  ghost predicate TakenByTrade(trades: seq<LiveTrade>, id: string) {
    exists m :: 0 <= m < |trades| && trades[m].id == id && trades[m].pnl < -0.01
  }

  function TradeRecord(t: LiveTrade): Record {
    Record(FromTrade(t.id), Upper(t.symbol), t.pnl)
  }

  function IncomeRecord(r: Income): Record {
    Record(FromIncome(r.id), Upper(r.symbol), r.amount)
  }

  /** The first losing row of every new id is recorded. */
  lemma {:induction false} FirstLossRecorded(l: Ledger, trades: seq<LiveTrade>, n: nat)
    requires n < |trades| && FirstLoss(trades, n, l.ids)
    ensures TradeRecord(trades[n]) in WithTrades(l, trades).recorded
  {
    var init := trades[..|trades| - 1];
    if n < |init| {
      assert FirstLoss(init, n, l.ids);
      FirstLossRecorded(l, init, n);
    } else {
      IdsFromTrades(l, init, trades[n].id);
    }
  }

  lemma {:induction false} FirstIncomeLossRecorded(l: Ledger, rows: seq<Income>, n: nat)
    requires n < |rows| && FirstIncomeLoss(rows, n, l.ids)
    ensures IncomeRecord(rows[n]) in WithIncome(l, rows).recorded
  {
    var init := rows[..|rows| - 1];
    if n < |init| {
      assert FirstIncomeLoss(init, n, l.ids);
      FirstIncomeLossRecorded(l, init, n);
    } else {
      IdsFromIncome(l, init, rows[n].id);
      assert ("income_" + rows[n].id)[0] == 'i';
    }
  }

  /** Nothing else is recorded: every new record is that of a named losing row. */
  lemma {:induction false} OnlyLossesRecorded(l: Ledger, trades: seq<LiveTrade>, rows: seq<Income>)
    ensures forall q :: q in WithTrades(l, trades).recorded ==>
      q in l.recorded || exists t :: t in trades && t.pnl < -0.01 && t.symbol != "" && q == TradeRecord(t)
    ensures forall q :: q in WithIncome(l, rows).recorded ==>
      q in l.recorded || exists r :: r in rows && r.amount < -0.01 && r.symbol != "" && q == IncomeRecord(r)
    decreases |trades| + |rows|
  {
    if trades != [] {
      OnlyLossesRecorded(l, trades[..|trades| - 1], []);
      assert trades == trades[..|trades| - 1] + [trades[|trades| - 1]];
    }
    if rows != [] {
      if trades == [] { OnlyLossesRecorded(l, [], rows[..|rows| - 1]); } else { OnlyLossesRecorded(l, [], rows); }
      assert rows == rows[..|rows| - 1] + [rows[|rows| - 1]];
    }
  }

  /** Losing trades process their ids, and nothing else does. */
  lemma {:induction false} IdsFromTrades(l: Ledger, trades: seq<LiveTrade>, id: string)
    ensures id in WithTrades(l, trades).ids <==>
      id in l.ids || exists m :: 0 <= m < |trades| && id != "" && trades[m].id == id && trades[m].pnl < -0.01
  {
    if trades != [] {
      var init := trades[..|trades| - 1];
      assert forall m :: 0 <= m < |init| ==> init[m] == trades[m];
      IdsFromTrades(l, init, id);
    }
  }

  lemma {:induction false} IdsFromIncome(l: Ledger, rows: seq<Income>, id: string)
    ensures id in WithIncome(l, rows).ids <==>
      id in l.ids || exists m :: 0 <= m < |rows| && id != "" && rows[m].id == id && rows[m].amount < -0.01
  {
    if rows != [] {
      var init := rows[..|rows| - 1];
      assert forall m :: 0 <= m < |init| ==> init[m] == rows[m];
      IdsFromIncome(l, init, id);
    }
  }

  /**
   * A whole round records the first losing row of every new id: a trade's against the ids of earlier rounds, an income
   * row's against these and the losing trades of its own round.
   */
  lemma RoundRecordsFirstLosses(s: State, r: Inputs)
    requires Valid(s)
    ensures var recorded := Reconciled(s, r).ledger.recorded;
      && (forall n: nat :: n < |r.trades| && FirstLoss(r.trades, n, s.ledger.ids) ==>
           TradeRecord(r.trades[n]) in recorded)
      && (r.income.Some? ==>
           forall n: nat :: n < |r.income.value| && FirstIncomeLoss(r.income.value, n, s.ledger.ids)
                            && !TakenByTrade(r.trades, r.income.value[n].id) ==>
             IncomeRecord(r.income.value[n]) in recorded)
  {
    var traded, rows, end := WithTrades(s.ledger, r.trades), AfterRows(s.ledger, r), Reconciled(s, r).ledger;
    TradesSound(s.ledger, r.trades);
    if r.income.Some? { IncomeSound(traded, r.income.value); }
    RoundKeeps(s, r);
    assert traded.recorded <= rows.recorded <= end.recorded;
    forall n: nat | n < |r.trades| && FirstLoss(r.trades, n, s.ledger.ids)
      ensures TradeRecord(r.trades[n]) in end.recorded
    {
      FirstLossRecorded(s.ledger, r.trades, n);
    }
    if r.income.Some? {
      forall n: nat | n < |r.income.value| && FirstIncomeLoss(r.income.value, n, s.ledger.ids)
        && !TakenByTrade(r.trades, r.income.value[n].id)
        ensures IncomeRecord(r.income.value[n]) in end.recorded
      {
        IdsFromTrades(s.ledger, r.trades, r.income.value[n].id);
        FirstIncomeLossRecorded(traded, r.income.value, n);
      }
    }
  }

  // ----- the object

  class Tracker {
    var lastPositions: Dict<Position>
    var processedTradeIds: set<string>
    var processedCloseKeys: set<string>
    var watchedSymbols: set<string>
    var recorded: seq<Record>            // the calls of the learning callback so far

    function Contents(): Ledger
      reads this
    {
      Ledger(processedTradeIds, processedCloseKeys, watchedSymbols, recorded)
    }

    constructor ()
      ensures State(Contents(), lastPositions) == FRESH
    {
      lastPositions, processedTradeIds, processedCloseKeys, watchedSymbols, recorded := [], {}, {}, {}, [];
    }

    method RecordExchangeLoss(symbol: string, tradeId: string, source: Source, pnl: real)
      modifies this`watchedSymbols, this`processedCloseKeys, this`recorded
      ensures Contents() == Booked(old(Contents()), symbol, tradeId, source, pnl)
    {
      if symbol == "" { return; }
      var s := Upper(symbol);
      watchedSymbols := watchedSymbols + {s};
      if CloseKey(s) in processedCloseKeys && LooksSynthetic(tradeId) { return; }
      processedCloseKeys := processedCloseKeys + {CloseKey(s)};
      recorded := recorded + [Record(source, s, pnl)];
    }

    method IngestLiveTrades(trades: seq<LiveTrade>)
      modifies this`processedTradeIds, this`watchedSymbols, this`processedCloseKeys, this`recorded
      ensures Contents() == WithTrades(old(Contents()), trades)
    {
      for n := 0 to |trades|
        invariant Contents() == WithTrades(old(Contents()), trades[..n])
      {
        assert trades[..n + 1][..n] == trades[..n];
        var t := trades[n];
        if t.id != "" && t.id !in processedTradeIds && t.pnl < -0.01 {
          processedTradeIds := processedTradeIds + {t.id};
          RecordExchangeLoss(t.symbol, t.id, FromTrade(t.id), t.pnl);
        }
      }
      assert trades[..|trades|] == trades;
    }

    method IngestIncomeEvents(rows: seq<Income>)
      modifies this`processedTradeIds, this`watchedSymbols, this`processedCloseKeys, this`recorded
      ensures Contents() == WithIncome(old(Contents()), rows)
    {
      for n := 0 to |rows|
        invariant Contents() == WithIncome(old(Contents()), rows[..n])
      {
        assert rows[..n + 1][..n] == rows[..n];
        var r := rows[n];
        if r.id != "" && r.id !in processedTradeIds && r.amount < -0.01 {
          processedTradeIds := processedTradeIds + {r.id};
          RecordExchangeLoss(r.symbol, "income_" + r.id, FromIncome(r.id), r.amount);
        }
      }
      assert rows[..|rows|] == rows;
    }

    method IngestPositionClosures(live: seq<Position>)
      modifies this`lastPositions, this`watchedSymbols, this`processedCloseKeys, this`recorded
      ensures lastPositions == Current(live)
      ensures var before, current := old(Contents()), Current(live);
        Contents() == WithClosures(before.(watched := before.watched + Keys(current)), old(lastPositions), current)
    {
      var current := WatchOpen(live);
      ghost var watching := Contents();
      for n := 0 to |lastPositions|
        invariant lastPositions == old(lastPositions)
        invariant Contents() == WithClosures(watching, lastPositions[..n], current)
      {
        assert lastPositions[..n + 1][..n] == lastPositions[..n];
        var symbol, previous := lastPositions[n].0, lastPositions[n].1;
        if Get(current, symbol).None? && CloseKey(symbol) !in processedCloseKeys {
          RecordExchangeLoss(symbol, CloseKey(symbol), FromClosure, ClosurePnl(previous));
        }
      }
      assert lastPositions[..|lastPositions|] == lastPositions;
      lastPositions := current;
    }

    method WatchOpen(live: seq<Position>) returns (current: Dict<Position>)
      modifies this`watchedSymbols
      ensures current == Current(live) && watchedSymbols == old(watchedSymbols) + Keys(current)
    {
      current := [];
      for n := 0 to |live|
        invariant current == Current(live[..n]) && watchedSymbols == old(watchedSymbols) + Keys(current)
      {
        var p := live[n];
        assert live[..n + 1][..n] == live[..n];
        if IsOpen(p) {
          KeysPut(current, Upper(p.symbol), p);
          current := Put(current, Upper(p.symbol), p);
          watchedSymbols := watchedSymbols + {Upper(p.symbol)};
        }
      }
      assert live[..|live|] == live;
    }

    /** One round; what it keeps is stated by `RoundKeeps`. */
    method Reconcile(r: Inputs)
      modifies this
      ensures State(Contents(), lastPositions) == Reconciled(old(State(Contents(), lastPositions)), r)
      ensures old(Valid(State(Contents(), lastPositions))) ==> Valid(State(Contents(), lastPositions))
    {
      ghost var before := State(Contents(), lastPositions);
      IngestLiveTrades(r.trades);
      if r.income.Some? { IngestIncomeEvents(r.income.value); }
      IngestPositionClosures(r.live);
      if Valid(before) { RoundKeeps(before, r); }
    }
  }

  lemma InKeys(d: Dict<Position>, key: string)
    ensures Get(d, key).None? <==> key !in Keys(d)
  {
    GetNone(d, key);
    if key in Keys(d) {
      var e :| e in d && e.0 == key;
      var i :| 0 <= i < |d| && d[i] == e;
    } else {
      forall i | 0 <= i < |d| ensures d[i].0 != key { assert d[i] in d; }
    }
  }

  lemma KeysPut(d: Dict<Position>, key: string, p: Position)
    ensures Keys(Put(d, key, p)) == Keys(d) + {key}
  {
    forall k ensures k in Keys(Put(d, key, p)) <==> k in Keys(d) + {key} {
      GetPut(d, key, p, k);
      InKeys(d, k);
      InKeys(Put(d, key, p), k);
    }
  }

  /** Current positions are unique by symbol, named and upper-case. */
  lemma {:induction false} CurrentFacts(live: seq<Position>)
    ensures Unique(Current(live))
    ensures forall e :: e in Current(live) ==> e.0 != "" && Upper(e.0) == e.0 && IsOpen(e.1)
  {
    if live != [] {
      CurrentFacts(live[..|live| - 1]);
      var p := live[|live| - 1];
      if IsOpen(p) {
        PutUnique(Current(live[..|live| - 1]), Upper(p.symbol), p);
        UpperIdempotent(p.symbol);
      }
    }
  }
}
