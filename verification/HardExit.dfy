/** Mandatory exits, their merge with soft exits, and the stale-position sweep. */
module HardExit {
  import opened Common
  import opened OrderedDict

  datatype Position = Position(
    symbol: string, fleet: string, quantity: real, signedQuantity: real, margin: real, pnl: real, ageHours: real)

  datatype Urgency = Critical | High | Medium | Low | OtherUrgency

  datatype Kind = ReduceOrClose | TakePartialProfit | OtherKind

  datatype Source = HardExit | StaleSafety | OtherSource

  datatype Action = Action(
    symbol: string, fleet: string, kind: Kind, fraction: real, source: Source, urgency: Urgency)

  datatype Config = Config(
    slPct: real, slAbs: real, tpAbs: real, tpFullPct: real, tpPartialPct: real, partialFraction: real,
    staleHours: real)

  // ----- percentages rounded to two decimals

  /** Round half to even, as the language's `round` does. */
  function RoundEven(x: real): int {
    var n := x.Floor;
    var rest := x - n as real;
    if rest < 0.5 then n else if rest > 0.5 then n + 1 else if n % 2 == 0 then n else n + 1
  }

  function Round2(x: real): real {
    RoundEven(x * 100.0) as real / 100.0
  }

  /** Rounding takes the threshold itself down: less than half a hundredth is cut, or half on top of an even one. */
  predicate RoundsDown(threshold: real) {
    var n := (threshold * 100.0).Floor;
    var rest := threshold * 100.0 - n as real;
    rest < 0.5 || (rest == 0.5 && n % 2 == 0)
  }

  lemma RoundsDownIff(threshold: real)
    ensures RoundsDown(threshold) <==> Round2(threshold) <= threshold
  {
  }

  lemma RoundMonotone(x: real, y: real)
    requires x <= y
    ensures Round2(x) <= Round2(y)
  {
    var a, b := x * 100.0, y * 100.0;
    assert a <= b && a.Floor <= b.Floor;
  }

  /** Rounding never lifts a figure over a threshold, exactly when it takes the threshold itself down. */
  lemma RoundedStaysBelowIff(threshold: real)
    ensures (forall x: real :: x <= threshold ==> Round2(x) <= threshold) <==> RoundsDown(threshold)
  {
    RoundsDownIff(threshold);
    forall x: real | x <= threshold ensures Round2(x) <= Round2(threshold) {
      RoundMonotone(x, threshold);
    }
  }

  /** In particular for a threshold in whole hundredths. */
  lemma HundredthsRoundDown(hundredths: int)
    ensures RoundsDown(hundredths as real / 100.0)
  {
    assert hundredths as real / 100.0 * 100.0 == hundredths as real;
  }

  /** A concrete threshold that is missed: half a hundredth rounds up to the even one. */
  lemma HalfHundredthIsMissed()
    ensures Round2(-16.125) == -16.12 && !RoundsDown(-16.125)
  {
    assert (-16.125 * 100.0).Floor == -1613;
  }

  function PnlPct(p: Position): real {
    if p.margin <= 0.0 then 0.0 else Round2(p.pnl / p.margin * 100.0)
  }

  // ----- hard exits

  function Quantity(p: Position): real {
    AbsR(OrElse(p.quantity, p.signedQuantity))
  }

  predicate Open(p: Position) {
    p.symbol != "" && Quantity(p) > 0.0 && p.margin > 0.0
  }

  predicate Emergency(p: Position, c: Config) {
    PnlPct(p) <= -c.slPct * 2.5 || p.pnl <= -MaxR(c.slAbs * 2.0, p.margin * 0.85)
  }

  predicate Stopped(p: Position, c: Config) {
    PnlPct(p) <= -c.slPct || p.pnl <= -c.slAbs
  }

  function HardRow(p: Position, c: Config): Option<Action> {
    var symbol, fleet := Upper(p.symbol), Upper(if p.fleet == "" then "RADAR" else p.fleet);
    if !Open(p) then None
    else if Emergency(p, c) || Stopped(p, c) then
      Some(Action(symbol, fleet, ReduceOrClose, 1.0, HardExit, Critical))
    else if PnlPct(p) >= c.tpFullPct || p.pnl >= c.tpAbs * 2.5 then
      Some(Action(symbol, fleet, ReduceOrClose, 1.0, HardExit, High))
    else if PnlPct(p) >= c.tpPartialPct || p.pnl >= c.tpAbs then
      Some(Action(symbol, fleet, TakePartialProfit, c.partialFraction, HardExit, High))
    else None
  }

  /** What an emergency and a stop are, on the exact figures. */
  lemma LossesRead(p: Position, c: Config)
    requires p.margin > 0.0
    ensures var pct := Round2(p.pnl / p.margin * 100.0);
      && (Stopped(p, c) <==> pct <= -c.slPct || p.pnl <= -c.slAbs)
      && (Emergency(p, c) <==> pct <= -2.5 * c.slPct || (p.pnl <= -2.0 * c.slAbs && p.pnl <= -0.85 * p.margin))
  {
  }

  /** An open position has a symbol, a margin, and a quantity or a signed one. */
  lemma OpenRead(p: Position)
    ensures Open(p) <==> p.symbol != "" && p.margin > 0.0 && !(p.quantity == p.signedQuantity == 0.0)
  {
  }

  /** With stops that are losses every emergency is a stop already, so it changes the reason and not the action. */
  lemma EmergencyIsStop(p: Position, c: Config)
    requires c.slPct >= 0.0 && c.slAbs >= 0.0 && Emergency(p, c)
    ensures Stopped(p, c)
  {
  }

  /** The rows the positions call for, in order. */
  function HardRows(positions: seq<Position>, c: Config): (rows: seq<Action>)
    ensures forall a :: a in rows <==> exists p :: p in positions && HardRow(p, c) == Some(a)
  {
    if positions == [] then []
    else
      var before, p := HardRows(positions[..|positions| - 1], c), positions[|positions| - 1];
      assert positions == positions[..|positions| - 1] + [p];
      if HardRow(p, c).Some? then before + [HardRow(p, c).value] else before
  }

  method CollectHardExits(positions: seq<Position>, c: Config) returns (actions: seq<Action>)
    ensures actions == HardRows(positions, c)
  {
    actions := [];
    for i := 0 to |positions|
      invariant actions == HardRows(positions[..i], c)
    {
      var p := positions[i];
      assert positions[..i + 1][..i] == positions[..i];
      if Open(p) {
        var symbol, fleet := Upper(p.symbol), Upper(if p.fleet == "" then "RADAR" else p.fleet);
        if Emergency(p, c) {
          actions := actions + [Action(symbol, fleet, ReduceOrClose, 1.0, HardExit, Critical)];
        } else if Stopped(p, c) {
          actions := actions + [Action(symbol, fleet, ReduceOrClose, 1.0, HardExit, Critical)];
        } else if PnlPct(p) >= c.tpFullPct || p.pnl >= c.tpAbs * 2.5 {
          actions := actions + [Action(symbol, fleet, ReduceOrClose, 1.0, HardExit, High)];
        } else if PnlPct(p) >= c.tpPartialPct || p.pnl >= c.tpAbs {
          actions := actions + [Action(symbol, fleet, TakePartialProfit, c.partialFraction, HardExit, High)];
        }
      }
    }
    assert positions[..|positions|] == positions;
  }

  // ----- the merge

  function Priority(a: Action): int {
    (match a.urgency case Critical => 40 case High => 30 case Medium => 20 case Low => 10 case OtherUrgency => 15)
    + (if a.source == HardExit then 5 else 0)
    + (if a.kind == ReduceOrClose && a.fraction >= 0.99 then 2 else 0)
  }

  predicate For(a: Action, symbol: string) {
    symbol != "" && Upper(a.symbol) == symbol
  }

  /** The last soft exit named for a symbol. */
  function LastFor(rows: seq<Action>, symbol: string): Option<Action> {
    if rows == [] then None
    else if For(rows[|rows| - 1], symbol) then Some(rows[|rows| - 1])
    else LastFor(rows[..|rows| - 1], symbol)
  }

  /** Each hard exit in turn takes the symbol over unless the holder outranks it. */
  function Winner(hard: seq<Action>, others: seq<Action>, symbol: string): Option<Action> {
    if hard == [] then LastFor(others, symbol)
    else
      var holder, row := Winner(hard[..|hard| - 1], others, symbol), hard[|hard| - 1];
      if For(row, symbol) && (holder.None? || Priority(row) >= Priority(holder.value)) then Some(row) else holder
  }

  ghost predicate Keyed(d: Dict<Action>) {
    Unique(d) && forall i :: 0 <= i < |d| ==> For(d[i].1, d[i].0)
  }

  lemma KeyedPut(d: Dict<Action>, a: Action)
    requires Keyed(d) && a.symbol != ""
    ensures Keyed(Put(d, Upper(a.symbol), a))
  {
    var key := Upper(a.symbol);
    PutUnique(d, key, a);
    var e := Put(d, key, a);
    forall i | 0 <= i < |e| ensures For(e[i].1, e[i].0) {
      if e[i] != (key, a) { assert e[i] in d; }
    }
  }

  /** The soft exits by symbol, later ones replacing earlier ones. */
  function SoftBySymbol(others: seq<Action>): Dict<Action> {
    if others == [] then []
    else
      var before, a := SoftBySymbol(others[..|others| - 1]), others[|others| - 1];
      if a.symbol == "" then before else Put(before, Upper(a.symbol), a)
  }

  /** The hard exits laid over the soft ones. */
  function Merged(hard: seq<Action>, others: seq<Action>): Dict<Action> {
    if hard == [] then SoftBySymbol(others)
    else
      var before, a := Merged(hard[..|hard| - 1], others), hard[|hard| - 1];
      if a.symbol == "" then before
      else
        var holder := Get(before, Upper(a.symbol));
        if holder.None? || Priority(a) >= Priority(holder.value) then Put(before, Upper(a.symbol), a) else before
  }

  method MergeExitActions(hard: seq<Action>, others: seq<Action>) returns (bySymbol: Dict<Action>)
    ensures bySymbol == Merged(hard, others)
  {
    bySymbol := [];
    for i := 0 to |others|
      invariant bySymbol == SoftBySymbol(others[..i])
    {
      assert others[..i + 1][..i] == others[..i];
      if others[i].symbol != "" {
        bySymbol := Put(bySymbol, Upper(others[i].symbol), others[i]);
      }
    }
    assert others[..|others|] == others;
    for i := 0 to |hard|
      invariant bySymbol == Merged(hard[..i], others)
    {
      var a := hard[i];
      assert hard[..i + 1][..i] == hard[..i];
      if a.symbol != "" {
        var holder := Get(bySymbol, Upper(a.symbol));
        if holder.None? || Priority(a) >= Priority(holder.value) {
          bySymbol := Put(bySymbol, Upper(a.symbol), a);
        }
      }
    }
    assert hard[..|hard|] == hard;
  }

  lemma {:induction false} SoftIsLast(others: seq<Action>, symbol: string)
    ensures Keyed(SoftBySymbol(others))
    ensures Get(SoftBySymbol(others), symbol) == LastFor(others, symbol)
  {
    if others != [] {
      var init, a := others[..|others| - 1], others[|others| - 1];
      SoftIsLast(init, symbol);
      if a.symbol != "" {
        KeyedPut(SoftBySymbol(init), a);
        GetPut(SoftBySymbol(init), Upper(a.symbol), a, symbol);
      }
    }
  }

  /** The merge holds one action per symbol, namely the winner of its soft and hard exits. */
  lemma {:induction false} MergeHoldsWinners(hard: seq<Action>, others: seq<Action>, symbol: string)
    ensures Keyed(Merged(hard, others))
    ensures Get(Merged(hard, others), symbol) == Winner(hard, others, symbol)
  {
    if hard == [] {
      SoftIsLast(others, symbol);
    } else {
      var init, a := hard[..|hard| - 1], hard[|hard| - 1];
      MergeHoldsWinners(init, others, symbol);
      if a.symbol != "" {
        KeyedPut(Merged(init, others), a);
        GetPut(Merged(init, others), Upper(a.symbol), a, symbol);
      }
    }
  }

  /** A symbol's winner ranks at least as high as every hard exit for it and as the last soft one. */
  lemma {:induction false} WinnerRanksHighest(hard: seq<Action>, others: seq<Action>, symbol: string)
    ensures var w := Winner(hard, others, symbol);
      && (w.Some? ==> For(w.value, symbol) && (w.value in hard || Some(w.value) == LastFor(others, symbol)))
      && (LastFor(others, symbol).Some? ==> w.Some? && Priority(w.value) >= Priority(LastFor(others, symbol).value))
      && (forall a :: a in hard && For(a, symbol) ==> w.Some? && Priority(w.value) >= Priority(a))
  {
    if hard == [] {
      LastIsFor(others, symbol);
    } else {
      WinnerRanksHighest(hard[..|hard| - 1], others, symbol);
      assert hard == hard[..|hard| - 1] + [hard[|hard| - 1]];
    }
  }

  lemma {:induction false} LastIsFor(rows: seq<Action>, symbol: string)
    ensures LastFor(rows, symbol).Some? ==> For(LastFor(rows, symbol).value, symbol)
  {
    if rows != [] { LastIsFor(rows[..|rows| - 1], symbol); }
  }

  predicate FullClose(a: Action) {
    a.kind == ReduceOrClose && a.fraction == 1.0 && a.source == HardExit && a.urgency == Critical
  }

  /** Hard exits as collected: the critical ones are full closes. */
  ghost predicate CollectedShape(hard: seq<Action>) {
    forall a :: a in hard ==> a.source == HardExit && a.symbol != "" && (a.urgency == Critical ==> FullClose(a))
  }

  /** Nothing outranks a stop, and whatever ties with it later is a full close too. */
  lemma {:induction false} StopWins(hard: seq<Action>, others: seq<Action>, stop: Action)
    requires CollectedShape(hard) && stop in hard && FullClose(stop)
    ensures var w := Winner(hard, others, Upper(stop.symbol)); w.Some? && FullClose(w.value)
  {
    var n := |hard| - 1;
    var s := Upper(stop.symbol);
    WinnerRanksHighest(hard, others, s);
    assert For(stop, s);
    if hard[n] != stop {
      assert stop in hard[..n];
      StopWins(hard[..n], others, stop);
    } else {
      WinnerRanksHighest(hard[..n], others, s);
    }
  }

  // ----- the exit chain of one cycle

  /** Positions the sweep closes: old, named, and not handled by an action yet. */
  predicate Stale(p: Position, handled: set<string>, c: Config) {
    p.symbol != "" && Upper(p.symbol) !in handled && p.ageHours >= c.staleHours
  }

  function StaleRow(p: Position): Action {
    Action(Upper(p.symbol), Upper(if p.fleet == "" then "RADAR" else p.fleet), ReduceOrClose, 1.0, StaleSafety, High)
  }

  function StaleRows(positions: seq<Position>, handled: set<string>, c: Config): seq<Action> {
    if positions == [] then []
    else
      var p := positions[0];
      (if Stale(p, handled, c) then [StaleRow(p)] else []) + StaleRows(positions[1..], handled, c)
  }

  function Symbols(rows: seq<Action>): set<string> {
    set a | a in rows :: Upper(a.symbol)
  }

  ghost predicate SweptSymbol(rows: seq<Action>, symbol: string) {
    exists a :: a in rows && a.symbol == symbol
  }

  ghost predicate StaleSymbol(positions: seq<Position>, handled: set<string>, c: Config, symbol: string) {
    exists p :: p in positions && Stale(p, handled, c) && Upper(p.symbol) == symbol
  }

  /** The sweep covers exactly the symbols of stale positions that no action handles. */
  lemma {:induction false} SweepCoversStale(positions: seq<Position>, handled: set<string>, c: Config, symbol: string)
    ensures SweptSymbol(StaleRows(positions, handled, c), symbol) <==> StaleSymbol(positions, handled, c, symbol)
  {
    if positions != [] {
      var p, rest := positions[0], positions[1..];
      SweepCoversStale(rest, handled, c, symbol);
      assert positions == [p] + rest;
      var rows, tail := StaleRows(positions, handled, c), StaleRows(rest, handled, c);
      if SweptSymbol(tail, symbol) {
        var a :| a in tail && a.symbol == symbol;
        assert a in rows;
      }
      if Stale(p, handled, c) && Upper(p.symbol) == symbol { assert rows[0].symbol == symbol; }
      if StaleSymbol(positions, handled, c, symbol) && !(Stale(p, handled, c) && Upper(p.symbol) == symbol) {
        var q :| q in positions && Stale(q, handled, c) && Upper(q.symbol) == symbol;
        assert q in rest;
      }
    }
  }

  ghost predicate DistinctSymbols(rows: seq<Action>) {
    forall i, j :: 0 <= i < j < |rows| ==> rows[i].symbol != rows[j].symbol
  }

  ghost predicate DistinctStale(positions: seq<Position>, handled: set<string>, c: Config) {
    forall i, j :: 0 <= i < j < |positions| && Stale(positions[i], handled, c) && Stale(positions[j], handled, c) ==>
      Upper(positions[i].symbol) != Upper(positions[j].symbol)
  }

  /**
   * The sweep does not look at its own rows: it names every symbol once exactly when
   * no two unhandled stale positions share one.
   */
  lemma {:induction false} SweepDistinctIff(positions: seq<Position>, handled: set<string>, c: Config)
    ensures DistinctSymbols(StaleRows(positions, handled, c)) <==> DistinctStale(positions, handled, c)
  {
    if positions != [] {
      var p, rest := positions[0], positions[1..];
      SweepDistinctIff(rest, handled, c);
      SweepCoversStale(rest, handled, c, Upper(p.symbol));
      var tail := StaleRows(rest, handled, c);
      DistinctStaleTail(positions, handled, c);
      if Stale(p, handled, c) {
        DistinctTail(StaleRows(positions, handled, c));
        assert StaleRows(positions, handled, c)[1..] == tail;
      } else {
        assert StaleRows(positions, handled, c) == tail;
      }
    }
  }

  lemma DistinctTail(rows: seq<Action>)
    requires rows != []
    ensures DistinctSymbols(rows) <==> DistinctSymbols(rows[1..]) && !SweptSymbol(rows[1..], rows[0].symbol)
  {
    var tail := rows[1..];
    if DistinctSymbols(tail) && !SweptSymbol(tail, rows[0].symbol) {
      forall i, j | 0 <= i < j < |rows| ensures rows[i].symbol != rows[j].symbol {
        assert rows[j] == tail[j - 1];
        if i > 0 { assert rows[i] == tail[i - 1]; }
      }
    }
    if DistinctSymbols(rows) {
      forall i, j | 0 <= i < j < |tail| ensures tail[i].symbol != tail[j].symbol {
        assert tail[i] == rows[i + 1] && tail[j] == rows[j + 1];
      }
    }
  }

  lemma DistinctStaleTail(positions: seq<Position>, handled: set<string>, c: Config)
    requires positions != []
    ensures var p, rest := positions[0], positions[1..];
      DistinctStale(positions, handled, c) <==>
        DistinctStale(rest, handled, c) && !(Stale(p, handled, c) && StaleSymbol(rest, handled, c, Upper(p.symbol)))
  {
    var p, rest := positions[0], positions[1..];
    assert positions == [p] + rest;
    if DistinctStale(rest, handled, c) && !(Stale(p, handled, c) && StaleSymbol(rest, handled, c, Upper(p.symbol))) {
      forall i, j | 0 <= i < j < |positions| && Stale(positions[i], handled, c) && Stale(positions[j], handled, c)
        ensures Upper(positions[i].symbol) != Upper(positions[j].symbol)
      {
        assert positions[j] == rest[j - 1];
        if i > 0 { assert positions[i] == rest[i - 1]; }
      }
    }
    if DistinctStale(positions, handled, c) {
      forall i, j | 0 <= i < j < |rest| && Stale(rest[i], handled, c) && Stale(rest[j], handled, c)
        ensures Upper(rest[i].symbol) != Upper(rest[j].symbol)
      {
        assert rest[i] == positions[i + 1] && rest[j] == positions[j + 1];
      }
    }
  }

  /** The k-th action is the only one for its symbol. */
  ghost predicate OnlyOne(actions: seq<Action>, k: nat, symbol: string)
    requires k < |actions|
  {
    For(actions[k], symbol) && forall j :: 0 <= j < |actions| && For(actions[j], symbol) ==> j == k
  }

  /** A symbol ends with one action, a full close. */
  ghost predicate ClosedOnce(actions: seq<Action>, symbol: string) {
    exists k: nat :: k < |actions| && OnlyOne(actions, k, symbol) && FullClose(actions[k])
  }

  /** A loss whose exact percentage on margin, or amount, is at or past the stop. */
  predicate AtStop(p: Position, c: Config)
    requires p.margin > 0.0
  {
    p.pnl / p.margin * 100.0 <= -c.slPct || p.pnl <= -c.slAbs
  }

  /**
   * Every exact loss at or past the stop is stopped on the rounded figure, exactly when rounding takes the percentage
   * down, or the absolute stop already closes every position without a profit.
   */
  lemma ExactStopIsStoppedIff(c: Config)
    ensures (forall p: Position :: Open(p) && AtStop(p, c) ==> Stopped(p, c))
      <==> RoundsDown(-c.slPct) || (c.slAbs <= 0.0 && c.slPct >= 0.0)
  {
    RoundedStaysBelowIff(-c.slPct);
    if RoundsDown(-c.slPct) {
    } else if c.slAbs <= 0.0 && c.slPct >= 0.0 {
      forall p: Position | Open(p) && AtStop(p, c) ensures p.pnl <= -c.slAbs {
        if p.pnl > 0.0 { ProfitPct(p.pnl, p.margin); }
      }
    } else {
      var margin := MissedMargin(c);
      var p := Position("X", "", 1.0, 1.0, margin, -c.slPct * margin / 100.0, 0.0);
      RoundsDownIff(-c.slPct);
      assert p.pnl / p.margin * 100.0 == -c.slPct by { PctOf(-c.slPct, margin); }
      assert Open(p) && AtStop(p, c) && !Stopped(p, c);
    }
  }

  lemma ProfitPct(pnl: real, margin: real)
    requires pnl > 0.0 && margin > 0.0
    ensures pnl / margin * 100.0 > 0.0
  {
    var q := pnl / margin;
    assert q * margin == pnl;
  }

  lemma PctOf(pct: real, margin: real)
    requires margin > 0.0
    ensures pct * margin / 100.0 / margin * 100.0 == pct
  {
    var q := pct * margin / 100.0 / margin;
    assert q * margin == pct / 100.0 * margin;
    CancelEqual(q, pct / 100.0, margin);
  }

  /** A margin on which a loss of exactly the percentage stop does not reach the absolute one. */
  lemma MissedMargin(c: Config) returns (margin: real)
    requires c.slAbs > 0.0 || c.slPct < 0.0
    ensures margin > 0.0 && -c.slPct * margin / 100.0 > -c.slAbs
  {
    if c.slPct <= 0.0 {
      var need := MaxR(0.0, -c.slAbs) + 1.0;
      if c.slPct < 0.0 {
        margin := need * 100.0 / -c.slPct;
        assert margin * -c.slPct == need * 100.0;
      } else {
        margin := 1.0;
      }
    } else {
      margin := c.slAbs * 50.0 / c.slPct;
      assert margin * c.slPct == c.slAbs * 50.0;
    }
  }

  /** The actions the collector returns: the merge, then the sweep. */
  function CollectedExits(positions: seq<Position>, soft: seq<Action>, c: Config, hardEnabled: bool): seq<Action> {
    var merged := Values(Merged(if hardEnabled then HardRows(positions, c) else [], soft));
    merged + StaleRows(positions, Symbols(merged), c)
  }

  // ----- places in the merge

  /** The symbols that rows name, in order; a row without a symbol names the empty one. */
  function Names(rows: seq<Action>): seq<string> {
    seq(|rows|, i requires 0 <= i < |rows| => Upper(rows[i].symbol))
  }

  /** The symbols of the positions that call for a hard exit, in order. */
  function HardNames(positions: seq<Position>, c: Config): seq<string> {
    if positions == [] then []
    else
      var before, p := HardNames(positions[..|positions| - 1], c), positions[|positions| - 1];
      if HardRow(p, c).Some? then before + [Upper(p.symbol)] else before
  }

  /** The names of one cycle in the order in which the merge meets them. */
  function CycleNames(positions: seq<Position>, soft: seq<Action>, c: Config): seq<string> {
    Names(soft) + HardNames(positions, c)
  }

  /** The names in order of first appearance, without the empty one. */
  function Distinct(names: seq<string>): seq<string> {
    if names == [] then []
    else
      var before, last := Distinct(names[..|names| - 1]), names[|names| - 1];
      if last == "" || last in before then before else before + [last]
  }

  function Named(names: seq<string>): set<string> {
    set n | n in names && n != ""
  }

  /** The names met before `symbol` is met for the first time. */
  function Ahead(names: seq<string>, symbol: string): set<string> {
    if names == [] then {}
    else
      var init, last := names[..|names| - 1], names[|names| - 1];
      Ahead(init, symbol) + if symbol in init || last == symbol || last == "" then {} else {last}
  }

  function Keys(d: Dict<Action>): seq<string> {
    seq(|d|, i requires 0 <= i < |d| => d[i].0)
  }

  lemma {:induction false} PutKeys(d: Dict<Action>, key: string, a: Action)
    ensures Keys(Put(d, key, a)) == if key in Keys(d) then Keys(d) else Keys(d) + [key]
  {
    if d != [] {
      var tail := d[1..];
      assert Keys(d) == [d[0].0] + Keys(tail);
      if d[0].0 == key {
        assert Put(d, key, a)[1..] == tail;
      } else {
        PutKeys(tail, key, a);
        assert Keys(Put(d, key, a)) == [d[0].0] + Keys(Put(tail, key, a));
      }
    }
  }

  lemma NamesLast(rows: seq<Action>)
    requires rows != []
    ensures Names(rows) == Names(rows[..|rows| - 1]) + [Upper(rows[|rows| - 1].symbol)]
  {
  }

  lemma DistinctLast(names: seq<string>, last: string)
    ensures Distinct(names + [last]) ==
      if last == "" || last in Distinct(names) then Distinct(names) else Distinct(names) + [last]
  {
    assert (names + [last])[..|names|] == names;
  }

  lemma {:induction false} SoftKeys(others: seq<Action>)
    ensures Keys(SoftBySymbol(others)) == Distinct(Names(others))
  {
    if others != [] {
      var init, a := others[..|others| - 1], others[|others| - 1];
      SoftKeys(init);
      NamesLast(others);
      DistinctLast(Names(init), Upper(a.symbol));
      if a.symbol != "" { PutKeys(SoftBySymbol(init), Upper(a.symbol), a); }
    }
  }

  /** The merge keeps the order in which symbols are named first, by soft exits and then by hard ones. */
  lemma {:induction false} MergedKeys(hard: seq<Action>, others: seq<Action>)
    ensures Keys(Merged(hard, others)) == Distinct(Names(others) + Names(hard))
  {
    if hard == [] {
      SoftKeys(others);
      assert Names(others) + Names(hard) == Names(others);
    } else {
      var init, a := hard[..|hard| - 1], hard[|hard| - 1];
      var before, key := Merged(init, others), Upper(a.symbol);
      MergedKeys(init, others);
      NamesLast(hard);
      Regroup(Names(others), Names(init), [key]);
      DistinctLast(Names(others) + Names(init), key);
      KeyHeld(before, key);
      if a.symbol != "" { PutKeys(before, key, a); }
    }
  }

  lemma KeyHeld(d: Dict<Action>, key: string)
    ensures Get(d, key).None? <==> key !in Keys(d)
  {
    GetNone(d, key);
    if key in Keys(d) {
      var i :| 0 <= i < |d| && Keys(d)[i] == key;
      assert d[i].0 == key;
    } else {
      forall i | 0 <= i < |d| ensures d[i].0 != key {
        assert Keys(d)[i] == d[i].0;
      }
    }
  }

  lemma NamedLast(names: seq<string>, last: string)
    ensures Named(names + [last]) == Named(names) + if last == "" then {} else {last}
  {
  }

  lemma {:induction false} DistinctNamed(names: seq<string>)
    ensures forall n :: n in Distinct(names) <==> n in Named(names)
    ensures |Distinct(names)| == |Named(names)|
  {
    if names == [] {
      assert Named(names) == {};
    } else {
      var init, last := names[..|names| - 1], names[|names| - 1];
      assert names == init + [last];
      DistinctNamed(init);
      NamedLast(init, last);
      DistinctLast(init, last);
      if last == "" || last in Distinct(init) {
        assert Named(names) == Named(init);
      } else {
        assert last !in Named(init) && Named(names) == Named(init) + {last};
      }
    }
  }

  lemma {:induction false} AllAhead(names: seq<string>, symbol: string)
    requires symbol !in names
    ensures Ahead(names, symbol) == Named(names)
  {
    if names != [] {
      var init, last := names[..|names| - 1], names[|names| - 1];
      assert names == init + [last];
      AllAhead(init, symbol);
      NamedLast(init, last);
    }
  }

  /** A symbol's place among the distinct names is the number of names ahead of it. */
  lemma {:induction false} AheadIsPlace(names: seq<string>, symbol: string)
    requires symbol != "" && symbol in names
    ensures var k := |Ahead(names, symbol)|; k < |Distinct(names)| && Distinct(names)[k] == symbol
  {
    var init, last := names[..|names| - 1], names[|names| - 1];
    assert names == init + [last];
    if symbol in init {
      AheadIsPlace(init, symbol);
    } else {
      AllAhead(init, symbol);
      DistinctNamed(init);
    }
  }

  lemma AheadLast(names: seq<string>, last: string, symbol: string)
    ensures Ahead(names + [last], symbol) ==
      Ahead(names, symbol) + if symbol in names || last == symbol || last == "" then {} else {last}
  {
    assert (names + [last])[..|names|] == names;
  }

  /** The names ahead, by source: soft exits in their order, then hard ones on symbols that no soft exit names. */
  lemma {:induction false} AheadBySource(soft: seq<string>, hard: seq<string>, symbol: string)
    ensures Ahead(soft + hard, symbol) ==
      if symbol in soft then Ahead(soft, symbol) else Ahead(soft, symbol) + Ahead(hard, symbol)
  {
    if hard == [] {
      assert soft + hard == soft;
    } else {
      var init, last := hard[..|hard| - 1], hard[|hard| - 1];
      AheadBySource(soft, init, symbol);
      assert hard == init + [last];
      Regroup(soft, init, [last]);
      AheadLast(soft + init, last, symbol);
      AheadLast(init, last, symbol);
    }
  }

  lemma {:induction false} HardNamesHold(positions: seq<Position>, c: Config)
    ensures Names(HardRows(positions, c)) == HardNames(positions, c)
    ensures forall p :: p in positions && HardRow(p, c).Some? ==> Upper(p.symbol) in HardNames(positions, c)
  {
    if positions != [] {
      var init, p := positions[..|positions| - 1], positions[|positions| - 1];
      HardNamesHold(init, c);
      assert positions == init + [p];
      if HardRow(p, c).Some? {
        UpperIdempotent(p.symbol);
        NamesLast(HardRows(positions, c));
        assert HardRows(positions, c)[..|HardRows(init, c)|] == HardRows(init, c);
      }
    }
  }

  // ----- stops

  /** A stopped position's full close stands in the collected actions behind exactly the symbols named ahead of it. */
  lemma StopPlace(positions: seq<Position>, soft: seq<Action>, c: Config, p: Position)
    requires p in positions && Open(p) && (Stopped(p, c) || Emergency(p, c))
    ensures var all, s := CollectedExits(positions, soft, c, true), Upper(p.symbol);
      var k := |Ahead(CycleNames(positions, soft, c), s)|;
      k < |all| && OnlyOne(all, k, s) && FullClose(all[k])
  {
    var hard, s := HardRows(positions, c), Upper(p.symbol);
    var merged, k := Merged(hard, soft), |Ahead(CycleNames(positions, soft, c), s)|;
    StopIsHeld(positions, soft, c, p);
    HardNamesHold(positions, c);
    MergedKeys(hard, soft);
    assert s in CycleNames(positions, soft, c);
    AheadIsPlace(CycleNames(positions, soft, c), s);
    assert merged[k].0 == Keys(merged)[k] == s;
    GetAt(merged, k);
    assert CollectedExits(positions, soft, c, true)[k] == merged[k].1;
    HandledOnce(positions, c, merged, k);
  }

  /** Whatever the soft exits are, the merge holds a full close under a stopped position's symbol. */
  lemma StopIsHeld(positions: seq<Position>, soft: seq<Action>, c: Config, p: Position)
    requires p in positions && Open(p) && (Stopped(p, c) || Emergency(p, c))
    ensures var merged := Merged(HardRows(positions, c), soft);
      Keyed(merged) && Get(merged, Upper(p.symbol)).Some? && FullClose(Get(merged, Upper(p.symbol)).value)
  {
    var hard, row := HardRows(positions, c), HardRow(p, c).value;
    assert row in hard && FullClose(row);
    UpperIdempotent(p.symbol);
    CollectedShapeHolds(positions, c);
    StopWins(hard, soft, row);
    MergeHoldsWinners(hard, soft, Upper(p.symbol));
  }

  /**
   * Whatever the soft exits are, a position with a symbol, a quantity and a margin that is at or past its stop has one
   * collected action for its symbol, a full close.
   */
  lemma StopNeverDisplaced(positions: seq<Position>, soft: seq<Action>, c: Config, p: Position)
    requires p in positions && Open(p) && (Stopped(p, c) || Emergency(p, c))
    ensures ClosedOnce(CollectedExits(positions, soft, c, true), Upper(p.symbol))
  {
    StopPlace(positions, soft, c, p);
  }

  // ----- profits

  /** The position at `i` is the only one on its symbol, and no soft exit names that. */
  ghost predicate Alone(positions: seq<Position>, i: nat, soft: seq<Action>)
    requires i < |positions|
  {
    && (forall j :: 0 <= j < |positions| && j != i ==> Upper(positions[j].symbol) != Upper(positions[i].symbol))
    && Upper(positions[i].symbol) !in Names(soft)
  }

  /** One action names the symbol, and it is this one. */
  ghost predicate Exactly(actions: seq<Action>, symbol: string, action: Action) {
    exists k: nat :: k < |actions| && OnlyOne(actions, k, symbol) && actions[k] == action
  }

  /** No action names the symbol. */
  ghost predicate LeftAlone(actions: seq<Action>, symbol: string) {
    forall k :: 0 <= k < |actions| ==> !For(actions[k], symbol)
  }

  /** What the actions hold for a symbol: one action, or none. */
  ghost predicate Holds(actions: seq<Action>, symbol: string, action: Option<Action>) {
    match action case Some(a) => Exactly(actions, symbol, a) case None => LeftAlone(actions, symbol)
  }

  lemma {:induction false} LastForNone(soft: seq<Action>, symbol: string)
    requires symbol !in Names(soft)
    ensures LastFor(soft, symbol).None?
  {
    if soft != [] {
      var init := soft[..|soft| - 1];
      assert Names(soft)[|soft| - 1] == Upper(soft[|soft| - 1].symbol);
      assert forall k :: 0 <= k < |init| ==> Names(init)[k] == Names(soft)[k];
      LastForNone(init, symbol);
    }
  }

  /** What the last position adds to a symbol's winner. */
  lemma LastPosition(positions: seq<Position>, soft: seq<Action>, c: Config, symbol: string)
    requires positions != [] && symbol != ""
    ensures var n := |positions| - 1;
      var last, row := positions[n], HardRow(positions[n], c);
      var holder := Winner(HardRows(positions[..n], c), soft, symbol);
      var winner := Winner(HardRows(positions, c), soft, symbol);
      && (Upper(last.symbol) != symbol || row.None? ==> winner == holder)
      && (Upper(last.symbol) == symbol && row.Some? && holder.None? ==> winner == row)
  {
    var last := positions[|positions| - 1];
    var before, rows := HardRows(positions[..|positions| - 1], c), HardRows(positions, c);
    UpperIdempotent(last.symbol);
    if HardRow(last, c).Some? {
      assert rows[..|rows| - 1] == before;
      assert rows[|rows| - 1] == HardRow(last, c).value;
    }
  }

  /** The hard rows of positions, one of which is alone on its symbol, hold for that symbol what it calls for. */
  lemma WinnerAlone(positions: seq<Position>, i: nat, soft: seq<Action>, c: Config)
    requires i < |positions| && Alone(positions, i, soft) && positions[i].symbol != ""
    ensures Winner(HardRows(positions, c), soft, Upper(positions[i].symbol)) == HardRow(positions[i], c)
  {
    var s := Upper(positions[i].symbol);
    NoWinner(positions[..i], soft, c, s);
    LastPosition(positions[..i + 1], soft, c, s);
    assert positions[..i + 1][..i] == positions[..i];
    OthersKeep(positions, i + 1, soft, c, s);
  }

  lemma {:induction false} OthersKeep(
    positions: seq<Position>, n: nat, soft: seq<Action>, c: Config, symbol: string)
    requires n <= |positions| && symbol != ""
    requires forall j :: n <= j < |positions| ==> Upper(positions[j].symbol) != symbol
    ensures Winner(HardRows(positions, c), soft, symbol) == Winner(HardRows(positions[..n], c), soft, symbol)
  {
    var m := |positions| - 1;
    if n <= m {
      LastPosition(positions, soft, c, symbol);
      OthersKeep(positions[..m], n, soft, c, symbol);
      assert positions[..m][..n] == positions[..n];
    } else {
      assert positions[..n] == positions;
    }
  }

  lemma {:induction false} NoWinner(positions: seq<Position>, soft: seq<Action>, c: Config, symbol: string)
    requires symbol !in Names(soft) && forall j :: 0 <= j < |positions| ==> Upper(positions[j].symbol) != symbol
    requires symbol != ""
    ensures Winner(HardRows(positions, c), soft, symbol).None?
  {
    if positions == [] {
      LastForNone(soft, symbol);
    } else {
      LastPosition(positions, soft, c, symbol);
      NoWinner(positions[..|positions| - 1], soft, c, symbol);
    }
  }

  /** The collected actions hold for a lone, young position exactly what it calls for. */
  lemma LoneExit(positions: seq<Position>, i: nat, soft: seq<Action>, c: Config)
    requires i < |positions| && Alone(positions, i, soft) && positions[i].symbol != ""
    requires positions[i].ageHours < c.staleHours
    ensures Holds(CollectedExits(positions, soft, c, true), Upper(positions[i].symbol), HardRow(positions[i], c))
  {
    var hard, s := HardRows(positions, c), Upper(positions[i].symbol);
    var merged := Merged(hard, soft);
    WinnerAlone(positions, i, soft, c);
    MergeHoldsWinners(hard, soft, s);
    GetNone(merged, s);
    if HardRow(positions[i], c).Some? {
      var k :| 0 <= k < |merged| && merged[k].0 == s;
      GetAt(merged, k);
      assert CollectedExits(positions, soft, c, true)[k] == merged[k].1;
      HandledOnce(positions, c, merged, k);
    } else {
      NothingCollected(positions, i, soft, c);
    }
  }

  lemma NothingCollected(positions: seq<Position>, i: nat, soft: seq<Action>, c: Config)
    requires i < |positions| && Alone(positions, i, soft) && positions[i].ageHours < c.staleHours
    requires var merged, s := Merged(HardRows(positions, c), soft), Upper(positions[i].symbol);
      Keyed(merged) && forall k :: 0 <= k < |merged| ==> merged[k].0 != s
    ensures LeftAlone(CollectedExits(positions, soft, c, true), Upper(positions[i].symbol))
  {
    var merged, s := Merged(HardRows(positions, c), soft), Upper(positions[i].symbol);
    var handled := Symbols(Values(merged));
    var stale := StaleRows(positions, handled, c);
    var all := Values(merged) + stale;
    forall k | 0 <= k < |all| ensures !For(all[k], s) {
      if k < |merged| {
        assert all[k] == merged[k].1;
      } else {
        assert all[k] in stale;
        SweepCoversStale(positions, handled, c, all[k].symbol);
        assert SweptSymbol(stale, all[k].symbol);
        var q :| q in positions && Stale(q, handled, c) && Upper(q.symbol) == all[k].symbol;
        UpperIdempotent(q.symbol);
      }
    }
  }

  /** The action of a hard exit on a position. */
  function ExitOf(p: Position, kind: Kind, fraction: real, urgency: Urgency): Action {
    Action(Upper(p.symbol), if p.fleet == "" then "RADAR" else Upper(p.fleet), kind, fraction, HardExit, urgency)
  }

  /**
   * Profits, for an open position short of its stop and alone on its symbol: one full close at or past the full
   * threshold, one partial profit at or past the partial one only, and nothing below both.
   */
  lemma ProfitsTaken(positions: seq<Position>, i: nat, soft: seq<Action>, c: Config)
    requires i < |positions| && Alone(positions, i, soft) && Open(positions[i])
    requires !Stopped(positions[i], c) && !Emergency(positions[i], c) && positions[i].ageHours < c.staleHours
    ensures var p, all := positions[i], CollectedExits(positions, soft, c, true);
      var pct := Round2(p.pnl / p.margin * 100.0);
      Holds(all, Upper(p.symbol),
        if pct >= c.tpFullPct || p.pnl >= c.tpAbs * 2.5 then Some(ExitOf(p, ReduceOrClose, 1.0, High))
        else if pct >= c.tpPartialPct || p.pnl >= c.tpAbs then
          Some(ExitOf(p, TakePartialProfit, c.partialFraction, High))
        else None)
  {
    var row := HardRow(positions[i], c);
    assert Holds(CollectedExits(positions, soft, c, true), Upper(positions[i].symbol), row) by {
      LoneExit(positions, i, soft, c);
    }
    ProfitRow(positions[i], c);
  }

  lemma ProfitRow(p: Position, c: Config)
    requires Open(p) && !Stopped(p, c) && !Emergency(p, c)
    ensures var pct := Round2(p.pnl / p.margin * 100.0);
      HardRow(p, c) ==
        if pct >= c.tpFullPct || p.pnl >= c.tpAbs * 2.5 then Some(ExitOf(p, ReduceOrClose, 1.0, High))
        else if pct >= c.tpPartialPct || p.pnl >= c.tpAbs then
          Some(ExitOf(p, TakePartialProfit, c.partialFraction, High))
        else None
  {
    assert Upper("RADAR") == "RADAR";
  }

  /** The part of a position that its hard exit takes. */
  function FractionTaken(p: Position, c: Config): real {
    var row := HardRow(p, c);
    if row.Some? then row.value.fraction else 0.0
  }

  /** Short of the stop, a larger profit on the same margin never takes a smaller part. */
  lemma LargerProfitTakesMore(p: Position, c: Config, more: real)
    requires Open(p) && !Stopped(p, c) && !Emergency(p, c) && p.pnl <= more
    requires 0.0 <= c.partialFraction <= 1.0 && c.tpPartialPct <= c.tpFullPct && c.tpAbs >= 0.0
    ensures FractionTaken(p, c) <= FractionTaken(p.(pnl := more), c)
  {
    var q := p.(pnl := more);
    assert p.pnl / p.margin <= q.pnl / p.margin by { QuotientGrows(p.pnl, q.pnl, p.margin); }
    RoundMonotone(p.pnl / p.margin * 100.0, q.pnl / p.margin * 100.0);
  }

  lemma QuotientGrows(a: real, b: real, k: real)
    requires a <= b && k > 0.0
    ensures a / k <= b / k
  {
    assert a / k * k == a && b / k * k == b;
    Cancel(a / k, b / k, k);
  }

  /** An old position that nothing else closes is swept, once, in full. */
  lemma LoneStaleSwept(positions: seq<Position>, i: nat, soft: seq<Action>, c: Config)
    requires i < |positions| && Alone(positions, i, soft) && positions[i].symbol != ""
    requires HardRow(positions[i], c).None? && positions[i].ageHours >= c.staleHours
    ensures var p, all := positions[i], CollectedExits(positions, soft, c, true);
      && (exists a :: a in all && For(a, Upper(p.symbol)))
      && (forall a :: a in all && For(a, Upper(p.symbol)) ==>
           a == ExitOf(p, ReduceOrClose, 1.0, High).(source := StaleSafety))
  {
    var p, s := positions[i], Upper(positions[i].symbol);
    var merged := Merged(HardRows(positions, c), soft);
    var handled, all := Symbols(Values(merged)), CollectedExits(positions, soft, c, true);
    WinnerAlone(positions, i, soft, c);
    MergeHoldsWinners(HardRows(positions, c), soft, s);
    GetNone(merged, s);
    assert Upper("RADAR") == "RADAR";
    UpperIdempotent(p.symbol);
    forall a | a in Values(merged) ensures !For(a, s) {
      var k :| 0 <= k < |merged| && Values(merged)[k] == a;
      assert merged[k].1 == a;
    }
    assert s !in handled;
    SweepCoversStale(positions, handled, c, s);
    assert StaleSymbol(positions, handled, c, s);
    var swept :| swept in StaleRows(positions, handled, c) && swept.symbol == s;
    assert swept in all && For(swept, s);
    StaleRowsAre(positions, handled, c);
    forall a | a in all && For(a, s) ensures a == StaleRow(p) {
      assert a in StaleRows(positions, handled, c);
      var q :| q in positions && Stale(q, handled, c) && a == StaleRow(q);
      UpperIdempotent(q.symbol);
      var j :| 0 <= j < |positions| && positions[j] == q;
      assert j == i;
    }
    assert StaleRow(p) == ExitOf(p, ReduceOrClose, 1.0, High).(source := StaleSafety);
  }

  lemma {:induction false} StaleRowsAre(positions: seq<Position>, handled: set<string>, c: Config)
    ensures forall a :: a in StaleRows(positions, handled, c) ==>
      exists p :: p in positions && Stale(p, handled, c) && a == StaleRow(p)
  {
    if positions != [] {
      StaleRowsAre(positions[1..], handled, c);
      assert positions == [positions[0]] + positions[1..];
    }
  }

  // ----- ranks

  /** Urgency decides before anything else: an action outranks every other of a lower urgency, whatever their kinds. */
  lemma UrgencyRanks(a: Action, b: Action)
    ensures a.urgency == Critical && b.urgency != Critical ==> Priority(a) > Priority(b)
    ensures a.urgency == High && b.urgency in {Medium, Low, OtherUrgency} ==> Priority(a) > Priority(b)
    ensures a.urgency == Medium && b.urgency == Low ==> Priority(a) > Priority(b)
    ensures a.urgency == b.urgency && a.source == HardExit && b.source != HardExit ==> Priority(a) > Priority(b)
    ensures a.urgency == b.urgency && a.source == b.source ==>
      (Priority(a) > Priority(b) <==>
        a.kind == ReduceOrClose && a.fraction >= 0.99 && !(b.kind == ReduceOrClose && b.fraction >= 0.99))
  {
  }

  // ----- what a cycle hands over

  const HANDED_OVER: nat := 8

  /** Only the first actions reach the executor. */
  function HandedOver(actions: seq<Action>): seq<Action> {
    if |actions| > HANDED_OVER then actions[..HANDED_OVER] else actions
  }

  /**
   * Main result: whatever the soft exits are, the cycle hands over one action for a stopped position's symbol, a full
   * close, exactly when fewer than eight symbols are named ahead of it, by the soft exits and then by the positions
   * before it that call for a hard exit.
   */
  lemma StopHandedOverIff(positions: seq<Position>, soft: seq<Action>, c: Config, p: Position)
    requires p in positions && Open(p) && (Stopped(p, c) || Emergency(p, c))
    ensures var all, s := CollectedExits(positions, soft, c, true), Upper(p.symbol);
      ClosedOnce(HandedOver(all), s) <==> |Ahead(CycleNames(positions, soft, c), s)| < 8
  {
    StopPlace(positions, soft, c, p);
    var all, s := CollectedExits(positions, soft, c, true), Upper(p.symbol);
    HandedOverIff(all, |Ahead(CycleNames(positions, soft, c), s)|, s);
  }

  lemma HandedOverIff(actions: seq<Action>, k: nat, symbol: string)
    requires k < |actions| && OnlyOne(actions, k, symbol) && FullClose(actions[k])
    ensures ClosedOnce(HandedOver(actions), symbol) <==> k < HANDED_OVER
  {
    var handed := HandedOver(actions);
    assert forall i :: 0 <= i < |handed| ==> handed[i] == actions[i];
    if k < HANDED_OVER { assert OnlyOne(handed, k, symbol); }
  }

  /** A cycle whose soft and hard exits name at most eight symbols hands every stop over. */
  lemma EightSymbolsKeepStops(positions: seq<Position>, soft: seq<Action>, c: Config, p: Position)
    requires p in positions && Open(p) && (Stopped(p, c) || Emergency(p, c))
    requires |Named(CycleNames(positions, soft, c))| <= 8
    ensures ClosedOnce(HandedOver(CollectedExits(positions, soft, c, true)), Upper(p.symbol))
  {
    var names, s := CycleNames(positions, soft, c), Upper(p.symbol);
    HardNamesHold(positions, c);
    AheadOthers(names, s);
    assert s in Named(names);
    Subset(Ahead(names, s), Named(names) - {s});
    StopHandedOverIff(positions, soft, c, p);
  }

  lemma {:induction false} AheadOthers(names: seq<string>, symbol: string)
    ensures Ahead(names, symbol) <= Named(names) - {symbol}
  {
    if names != [] {
      AheadOthers(names[..|names| - 1], symbol);
      assert names == names[..|names| - 1] + [names[|names| - 1]];
    }
  }

  lemma {:induction false} Subset(a: set<string>, b: set<string>)
    requires a <= b
    ensures |a| <= |b|
  {
    if a != {} {
      var x :| x in a;
      Subset(a - {x}, b - {x});
    }
  }

  /** Eight soft exits on other symbols keep every stop from being handed over, cycle after cycle. */
  lemma SoftExitsDropStop(positions: seq<Position>, soft: seq<Action>, c: Config, p: Position)
    requires p in positions && Open(p) && (Stopped(p, c) || Emergency(p, c))
    requires |Named(Names(soft))| >= 8 && Upper(p.symbol) !in Names(soft)
    ensures !ClosedOnce(HandedOver(CollectedExits(positions, soft, c, true)), Upper(p.symbol))
  {
    var s := Upper(p.symbol);
    AllAhead(Names(soft), s);
    AheadBySource(Names(soft), HardNames(positions, c), s);
    Subset(Named(Names(soft)), Ahead(CycleNames(positions, soft, c), s));
    StopHandedOverIff(positions, soft, c, p);
  }

  function SoftClose(symbol: string): Action {
    Action(symbol, "RADAR", ReduceOrClose, 1.0, OtherSource, Medium)
  }

  const LETTERS := "ABCDEFGH"

  /** A concrete cycle: a position at its stop, and eight soft exits on symbols without a position. */
  lemma EightSoftExitsDropStop(c: Config)
    ensures exists p: Position, soft: seq<Action> ::
      Open(p) && Stopped(p, c) && |soft| == 8
      && !ClosedOnce(HandedOver(CollectedExits([p], soft, c, true)), Upper(p.symbol))
  {
    var p := Position("X", "", 1.0, 1.0, 100.0, -c.slAbs, 0.0);
    var soft := seq(|LETTERS|, i requires 0 <= i < |LETTERS| => SoftClose([LETTERS[i]]));
    assert Upper("X") == "X";
    forall i | 0 <= i < |LETTERS| ensures Names(soft)[i] == [LETTERS[i]] {
      assert Upper([LETTERS[i]]) == [LETTERS[i]];
    }
    AllNamed(Names(soft));
    SoftExitsDropStop([p], soft, c, p);
  }

  lemma {:induction false} AllNamed(names: seq<string>)
    requires forall i, j :: 0 <= i < j < |names| ==> names[i] != names[j]
    requires "" !in names
    ensures |Named(names)| == |names|
  {
    if names != [] {
      var init, last := names[..|names| - 1], names[|names| - 1];
      assert names == init + [last];
      AllNamed(init);
      NamedLast(init, last);
      assert last !in init;
    }
  }

  lemma CollectedShapeHolds(positions: seq<Position>, c: Config)
    ensures CollectedShape(HardRows(positions, c))
  {
  }

  /** One action per symbol out of the merge, and the sweep never adds a second one. */
  lemma HandledOnce(positions: seq<Position>, c: Config, merged: Dict<Action>, k: nat)
    requires Keyed(merged) && k < |merged|
    ensures OnlyOne(Values(merged) + StaleRows(positions, Symbols(Values(merged)), c), k, merged[k].0)
  {
    var handled := Symbols(Values(merged));
    var stale := StaleRows(positions, handled, c);
    var actions, s := Values(merged) + stale, merged[k].0;
    assert Values(merged)[k] == merged[k].1;
    assert s in handled by { assert Values(merged)[k] in Values(merged); }
    forall j | 0 <= j < |actions| && For(actions[j], s) ensures j == k {
      if j < |merged| {
        assert actions[j] == merged[j].1;
      } else {
        assert actions[j] in stale;
        SweepCoversStale(positions, handled, c, actions[j].symbol);
        assert SweptSymbol(stale, actions[j].symbol);
        var q :| q in positions && Stale(q, handled, c) && Upper(q.symbol) == actions[j].symbol;
        UpperIdempotent(q.symbol);
        assert false;
      }
    }
  }

  method SweepStale(positions: seq<Position>, handled: set<string>, c: Config) returns (rows: seq<Action>)
    ensures rows == StaleRows(positions, handled, c)
  {
    rows := [];
    for i := 0 to |positions|
      invariant rows + StaleRows(positions[i..], handled, c) == StaleRows(positions, handled, c)
    {
      var p := positions[i];
      assert positions[i..][1..] == positions[i + 1..];
      if Stale(p, handled, c) {
        Regroup(rows, [StaleRow(p)], StaleRows(positions[i + 1..], handled, c));
        rows := rows + [StaleRow(p)];
      }
    }
  }

  /** The collector of one cycle. */
  method CollectExits(positions: seq<Position>, soft: seq<Action>, c: Config, exitEnabled: bool, hardEnabled: bool)
    returns (actions: seq<Action>)
    ensures actions == if exitEnabled && positions != [] then CollectedExits(positions, soft, c, hardEnabled) else []
  {
    if positions == [] || !exitEnabled { return []; }
    var hard: seq<Action> := [];
    if hardEnabled { hard := CollectHardExits(positions, c); }
    var bySymbol := MergeExitActions(hard, soft);
    var stale := SweepStale(positions, Symbols(Values(bySymbol)), c);
    actions := Values(bySymbol) + stale;
  }

  /** The exits of one cycle as the executor gets them, with the number collected. */
  method RunCycleExits(positions: seq<Position>, soft: seq<Action>, c: Config, exitEnabled: bool, hardEnabled: bool)
    returns (handed: seq<Action>, collected: nat)
    ensures var all := if exitEnabled && positions != [] then CollectedExits(positions, soft, c, hardEnabled) else [];
      handed == HandedOver(all) && collected == |all|
  {
    var exits := CollectExits(positions, soft, c, exitEnabled, hardEnabled);
    collected := |exits|;
    handed := HandedOver(exits);
  }
}
