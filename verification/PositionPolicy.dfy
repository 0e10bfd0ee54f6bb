/** The entry chain: pyramid filter, learning filter, debate veto and per-tick throttle. */
module PositionPolicy {
  import opened Common

  /** An entry proposal; `id` stands for everything the chain carries along without reading. */
  datatype Proposal = Proposal(id: int, symbol: string, side: string, pyramidAdd: bool)

  datatype LossNote = LossNote(symbol: string, side: string)

  /** `losses` lists recent losses newest first. */
  datatype Learning = Learning(
    respected: bool, blocked: set<string>, avoidSide: map<string, string>, losses: seq<LossNote>)

  /** What the pyramid filter looks up: an open position whose trend confirms, and the last add per symbol. */
  datatype Pyramid = Pyramid(confirmed: string -> bool, lastAt: map<string, real>, now: real, cooldown: real)

  datatype Veto = Veto(all: bool, symbols: set<string>)

  function Symbol(p: Proposal): string {
    Upper(p.symbol)
  }

  function NormalizeSide(side: string): string {
    var s := Upper(side);
    if s == "LONG" || s == "BUY" then "BUY" else if s == "SHORT" || s == "SELL" then "SELL" else s
  }

  function Filter(rows: seq<Proposal>, keep: Proposal -> bool): (out: seq<Proposal>)
    ensures forall r :: r in out <==> r in rows && keep(r)
  {
    if rows == [] then []
    else
      var before, last := Filter(rows[..|rows| - 1], keep), rows[|rows| - 1];
      assert rows == rows[..|rows| - 1] + [last];
      if keep(last) then before + [last] else before
  }

  // ----- the learning filter

  /** The side of the loss listed last for a symbol, which is the oldest one. */
  function LastListed(losses: seq<LossNote>, symbol: string): Option<string> {
    if losses == [] then None
    else
      var note := losses[|losses| - 1];
      if note.symbol != "" && note.side != "" && Upper(note.symbol) == symbol then Some(NormalizeSide(note.side))
      else LastListed(losses[..|losses| - 1], symbol)
  }

  /** The side of the loss listed first for a symbol, which is the newest one. */
  function FirstListed(losses: seq<LossNote>, symbol: string): Option<string> {
    if losses == [] then None
    else
      var note := losses[0];
      if note.symbol != "" && note.side != "" && Upper(note.symbol) == symbol then Some(NormalizeSide(note.side))
      else FirstListed(losses[1..], symbol)
  }

  method RepeatSides(losses: seq<LossNote>) returns (repeats: map<string, string>)
    ensures forall s :: (if s in repeats then Some(repeats[s]) else None) == LastListed(losses, s)
  {
    repeats := map[];
    for i := 0 to |losses|
      invariant forall s :: (if s in repeats then Some(repeats[s]) else None) == LastListed(losses[..i], s)
    {
      assert losses[..i + 1][..i] == losses[..i];
      var note := losses[i];
      if note.symbol != "" && note.side != "" {
        repeats := repeats[Upper(note.symbol) := NormalizeSide(note.side)];
      }
    }
    assert losses[..|losses|] == losses;
  }

  /** An unsafe direction for a new entry: blocked symbol, side to avoid, or the remembered losing side. */
  predicate Avoided(p: Proposal, l: Learning) {
    var symbol, side := Symbol(p), NormalizeSide(p.side);
    || symbol in l.blocked
    || (symbol in l.avoidSide && l.avoidSide[symbol] != "" && side == NormalizeSide(l.avoidSide[symbol]))
    || LastListed(l.losses, symbol) == Some(side)
  }

  predicate Learned(p: Proposal, l: Learning) {
    !l.respected || (p.symbol != "" && p.side != "" && (p.pyramidAdd || !Avoided(p, l)))
  }

  function ByLearning(l: Learning): Proposal -> bool {
    p => Learned(p, l)
  }

  method FilterEntriesByLearning(rows: seq<Proposal>, l: Learning) returns (kept: seq<Proposal>)
    ensures kept == Filter(rows, ByLearning(l))
  {
    var keep := ByLearning(l);
    if !l.respected {
      KeepAll(rows, keep);
      return rows;
    }
    var repeats := RepeatSides(l.losses);
    kept := [];
    for i := 0 to |rows|
      invariant kept == Filter(rows[..i], keep)
    {
      assert rows[..i + 1][..i] == rows[..i];
      var p := rows[i];
      var symbol, side := Symbol(p), NormalizeSide(p.side);
      assert (if symbol in repeats then Some(repeats[symbol]) else None) == LastListed(l.losses, symbol);
      var skip := p.symbol == "" || p.side == "";
      if !skip && !p.pyramidAdd {
        var avoid := if symbol in l.avoidSide then l.avoidSide[symbol] else "";
        skip := symbol in l.blocked || (avoid != "" && side == NormalizeSide(avoid))
          || (symbol in repeats && repeats[symbol] == side);
      }
      if !skip { kept := kept + [p]; }
    }
    assert rows[..|rows|] == rows;
  }

  lemma {:induction false} KeepAll(rows: seq<Proposal>, keep: Proposal -> bool)
    requires forall p :: p in rows ==> keep(p)
    ensures Filter(rows, keep) == rows
  {
    if rows != [] {
      assert rows == rows[..|rows| - 1] + [rows[|rows| - 1]];
      KeepAll(rows[..|rows| - 1], keep);
    }
  }

  /**
   * The cycle's directive promises not to repeat the direction that just lost. The filter keeps that promise for
   * an otherwise acceptable new entry exactly when the oldest listed loss of the symbol was on the same side.
   */
  lemma RepeatOfLatestLossRefusedIff(p: Proposal, l: Learning)
    requires l.respected && !p.pyramidAdd && p.symbol != "" && p.side != ""
    requires FirstListed(l.losses, Symbol(p)) == Some(NormalizeSide(p.side))
    requires Symbol(p) !in l.blocked && Symbol(p) !in l.avoidSide
    ensures !Learned(p, l) <==> LastListed(l.losses, Symbol(p)) == FirstListed(l.losses, Symbol(p))
  {
  }

  /** A symbol lost long first and short later: going short again is let through. */
  lemma RepeatedDirectionPasses()
    ensures exists p: Proposal, l: Learning ::
      l.respected && !p.pyramidAdd && FirstListed(l.losses, Symbol(p)) == Some(NormalizeSide(p.side)) && Learned(p, l)
  {
    var p := Proposal(0, "X", "SELL", false);
    var losses := [LossNote("X", "SELL"), LossNote("X", "BUY")];
    assert Upper("X")[0] == 'X';
    assert Upper("X") == "X";
    assert Upper("SELL") == "SELL" && Upper("BUY") == "BUY";
    assert LastListed(losses, "X") == Some("BUY") && FirstListed(losses, "X") == Some("SELL");
    assert Learned(p, Learning(true, {}, map[], losses));
  }

  /** Long is buying and short is selling, in any case; other sides are only upper-cased. */
  lemma SidesRead(side: string)
    ensures Upper(side) in {"LONG", "BUY"} ==> NormalizeSide(side) == "BUY"
    ensures Upper(side) in {"SHORT", "SELL"} ==> NormalizeSide(side) == "SELL"
    ensures Upper(side) !in {"LONG", "BUY", "SHORT", "SELL"} ==> NormalizeSide(side) == Upper(side)
  {
  }

  /** The oldest listed loss of a symbol that names a side. */
  ghost predicate OldestLoss(losses: seq<LossNote>, i: nat, symbol: string) {
    && i < |losses| && NotesSide(losses[i], symbol)
    && forall j :: i < j < |losses| ==> !NotesSide(losses[j], symbol)
  }

  predicate NotesSide(note: LossNote, symbol: string) {
    note.symbol != "" && note.side != "" && Upper(note.symbol) == symbol
  }

  lemma {:induction false} LastListedIsOldest(losses: seq<LossNote>, i: nat, symbol: string)
    requires OldestLoss(losses, i, symbol)
    ensures LastListed(losses, symbol) == Some(NormalizeSide(losses[i].side))
  {
    if i < |losses| - 1 {
      var init := losses[..|losses| - 1];
      assert OldestLoss(init, i, symbol);
      LastListedIsOldest(init, i, symbol);
    }
  }

  lemma {:induction false} ListedIsNoted(losses: seq<LossNote>, symbol: string) returns (i: nat)
    requires LastListed(losses, symbol).Some?
    ensures OldestLoss(losses, i, symbol)
  {
    var n := |losses| - 1;
    if NotesSide(losses[n], symbol) {
      i := n;
    } else {
      i := ListedIsNoted(losses[..n], symbol);
    }
  }

  /**
   * What the learning filter keeps, row by row: everything when learning is off; otherwise named rows with a side that
   * are pyramid adds, or that avoid blocked symbols, the side to avoid and the side of the oldest listed loss.
   */
  lemma LearningKeepsExactly(p: Proposal, l: Learning)
    ensures !l.respected ==> Learned(p, l)
    ensures l.respected && (p.symbol == "" || p.side == "") ==> !Learned(p, l)
    ensures l.respected && p.symbol != "" && p.side != "" && p.pyramidAdd ==> Learned(p, l)
    ensures l.respected && p.symbol != "" && p.side != "" && !p.pyramidAdd ==>
      var s := Upper(p.symbol);
      (Learned(p, l) <==>
        && s !in l.blocked
        && (s in l.avoidSide && l.avoidSide[s] != "" ==> NormalizeSide(l.avoidSide[s]) != NormalizeSide(p.side))
        && forall i: nat :: OldestLoss(l.losses, i, s) ==> NormalizeSide(l.losses[i].side) != NormalizeSide(p.side))
  {
    var s := Upper(p.symbol);
    forall i: nat | OldestLoss(l.losses, i, s)
      ensures LastListed(l.losses, s) == Some(NormalizeSide(l.losses[i].side))
    {
      LastListedIsOldest(l.losses, i, s);
    }
    if LastListed(l.losses, s).Some? { var _ := ListedIsNoted(l.losses, s); }
  }

  // ----- the pyramid filter and the veto

  predicate PyramidAllowed(p: Proposal, y: Pyramid) {
    !p.pyramidAdd
    || (y.confirmed(Symbol(p))
        && y.now - (if Symbol(p) in y.lastAt then y.lastAt[Symbol(p)] else 0.0) >= y.cooldown)
  }

  function ByPyramid(y: Pyramid): Proposal -> bool {
    p => PyramidAllowed(p, y)
  }

  method FilterPyramidCandidates(rows: seq<Proposal>, y: Pyramid) returns (kept: seq<Proposal>)
    ensures kept == Filter(rows, ByPyramid(y))
  {
    var keep := ByPyramid(y);
    kept := [];
    for i := 0 to |rows|
      invariant kept == Filter(rows[..i], keep)
    {
      assert rows[..i + 1][..i] == rows[..i];
      var p := rows[i];
      if !p.pyramidAdd {
        kept := kept + [p];
      } else if y.confirmed(Symbol(p)) {
        var last := if Symbol(p) in y.lastAt then y.lastAt[Symbol(p)] else 0.0;
        if y.now - last >= y.cooldown { kept := kept + [p]; }
      }
    }
    assert rows[..|rows|] == rows;
  }

  predicate Vetoed(p: Proposal, v: Veto) {
    v.all || (p.symbol != "" && Symbol(p) in v.symbols)
  }

  /** Adds pass on a confirmed position after the cooldown, counted from 0 without an earlier add; new rows pass. */
  lemma PyramidKeepsExactly(p: Proposal, y: Pyramid)
    ensures !p.pyramidAdd ==> PyramidAllowed(p, y)
    ensures p.pyramidAdd && !y.confirmed(Upper(p.symbol)) ==> !PyramidAllowed(p, y)
    ensures p.pyramidAdd && y.confirmed(Upper(p.symbol)) && Upper(p.symbol) in y.lastAt ==>
      (PyramidAllowed(p, y) <==> y.lastAt[Upper(p.symbol)] + y.cooldown <= y.now)
    ensures p.pyramidAdd && y.confirmed(Upper(p.symbol)) && Upper(p.symbol) !in y.lastAt ==>
      (PyramidAllowed(p, y) <==> y.cooldown <= y.now)
  {
  }

  /** A veto takes all rows, or those on the symbols it names. */
  lemma VetoTakesExactly(p: Proposal, symbols: set<string>)
    ensures Vetoed(p, Veto(true, symbols))
    ensures Vetoed(p, Veto(false, symbols)) <==> p.symbol != "" && Upper(p.symbol) in symbols
  {
  }

  // ----- the throttle

  function SymbolsOf(rows: seq<Proposal>): set<string> {
    set p | p in rows :: Symbol(p)
  }

  /** The rows of `rows` that name a symbol not named before, appended to `base`. */
  function Onto(base: seq<Proposal>, rows: seq<Proposal>): seq<Proposal> {
    if rows == [] then base
    else
      var before, p := Onto(base, rows[..|rows| - 1]), rows[|rows| - 1];
      if p.symbol == "" || Symbol(p) in SymbolsOf(before) then before else before + [p]
  }

  function Take(rows: seq<Proposal>, n: nat): seq<Proposal> {
    if |rows| <= n then rows else rows[..n]
  }

  predicate IsNew(p: Proposal) { !p.pyramidAdd }

  predicate IsAdd(p: Proposal) { p.pyramidAdd }

  function NewRows(rows: seq<Proposal>): seq<Proposal> {
    Filter(rows, IsNew)
  }

  function PyramidRows(rows: seq<Proposal>): seq<Proposal> {
    Filter(rows, IsAdd)
  }

  /** First the new entries, one per symbol, then pyramid adds on symbols not taken yet. */
  function Throttled(rows: seq<Proposal>, maxEntries: nat, maxPyramid: nat): seq<Proposal> {
    var fresh' := Take(Onto([], NewRows(rows)), maxEntries);
    Take(Onto(fresh', PyramidRows(rows)), |fresh'| + maxPyramid)
  }

  lemma {:induction false} OntoGrows(base: seq<Proposal>, rows: seq<Proposal>, i: nat)
    requires i <= |rows|
    ensures Onto(base, rows[..i]) <= Onto(base, rows)
    ensures base <= Onto(base, rows)
    decreases |rows|
  {
    if i == |rows| {
      assert rows[..i] == rows;
      if rows != [] { OntoGrows(base, rows[..|rows| - 1], |rows| - 1); }
    } else {
      var init := rows[..|rows| - 1];
      OntoGrows(base, init, i);
      assert init[..i] == rows[..i];
    }
  }

  method SplitRows(rows: seq<Proposal>) returns (newRows: seq<Proposal>, pyramidRows: seq<Proposal>)
    ensures newRows == NewRows(rows) && pyramidRows == PyramidRows(rows)
  {
    newRows, pyramidRows := [], [];
    for i := 0 to |rows|
      invariant newRows == NewRows(rows[..i]) && pyramidRows == PyramidRows(rows[..i])
    {
      assert rows[..i + 1][..i] == rows[..i];
      if rows[i].pyramidAdd {
        pyramidRows := pyramidRows + [rows[i]];
      } else {
        newRows := newRows + [rows[i]];
      }
    }
    assert rows[..|rows|] == rows;
  }

  /** The loop both halves of the throttle share: append rows on unseen symbols until `limit` rows are out. */
  method AppendUnseen(base: seq<Proposal>, rows: seq<Proposal>, limit: nat) returns (out: seq<Proposal>)
    requires |base| <= limit
    ensures out == Take(Onto(base, rows), limit)
  {
    out := base;
    for i := 0 to |rows|
      invariant out == Onto(base, rows[..i]) && |out| <= limit
    {
      assert rows[..i + 1][..i] == rows[..i];
      var p := rows[i];
      if p.symbol != "" && Symbol(p) !in SymbolsOf(out) {
        if |out| >= limit {
          OntoGrows(base, rows, i);
          return;
        }
        out := out + [p];
      }
    }
    assert rows[..|rows|] == rows;
  }

  function EntryLimit(n: int): nat { if n < 1 then 1 else n }

  function AddLimit(n: int): nat { if n < 0 then 0 else n }

  method ApplyEntryThrottle(rows: seq<Proposal>, maxEntries: int, maxPyramid: int) returns (out: seq<Proposal>)
    ensures out == Throttled(rows, EntryLimit(maxEntries), AddLimit(maxPyramid))
  {
    var newRows, pyramidRows := SplitRows(rows);
    out := AppendUnseen([], newRows, EntryLimit(maxEntries));
    out := AppendUnseen(out, pyramidRows, |out| + AddLimit(maxPyramid));
  }

  /** At least one new row a tick may pass, and no fewer than no add. */
  lemma LimitsRead(n: int)
    ensures n >= 1 ==> EntryLimit(n) == n
    ensures n < 1 ==> EntryLimit(n) == 1
    ensures n >= 0 ==> AddLimit(n) == n
    ensures n < 0 ==> AddLimit(n) == 0
  {
  }

  // ----- what the throttle guarantees

  ghost predicate DistinctSymbols(rows: seq<Proposal>) {
    && (forall i :: 0 <= i < |rows| ==> rows[i].symbol != "")
    && (forall i, j :: 0 <= i < j < |rows| ==> Symbol(rows[i]) != Symbol(rows[j]))
  }

  /** The symbols that some row names. */
  function Named(rows: seq<Proposal>): set<string> {
    set p | p in rows && p.symbol != "" :: Symbol(p)
  }

  lemma OneMoreSymbol(rows: seq<Proposal>, p: Proposal)
    ensures SymbolsOf(rows + [p]) == SymbolsOf(rows) + {Symbol(p)}
    ensures Named(rows + [p]) == Named(rows) + if p.symbol != "" then {Symbol(p)} else {}
  {
    var more := rows + [p];
    forall q | q in rows ensures q in more {
    }
    assert p in more;
  }

  lemma AppendDistinct(rows: seq<Proposal>, p: Proposal)
    requires DistinctSymbols(rows) && p.symbol != "" && Symbol(p) !in SymbolsOf(rows)
    ensures DistinctSymbols(rows + [p])
  {
    forall i | 0 <= i < |rows| ensures Symbol(rows[i]) in SymbolsOf(rows) {
      assert rows[i] in rows;
    }
  }

  /** `Onto` keeps symbols distinct and draws on its arguments only. */
  lemma {:induction false} OntoDraws(base: seq<Proposal>, rows: seq<Proposal>)
    requires DistinctSymbols(base)
    ensures DistinctSymbols(Onto(base, rows)) && base <= Onto(base, rows)
    ensures forall i :: |base| <= i < |Onto(base, rows)| ==> Onto(base, rows)[i] in rows
  {
    if rows != [] {
      var init, p := rows[..|rows| - 1], rows[|rows| - 1];
      var before := Onto(base, init);
      OntoDraws(base, init);
      assert rows == init + [p];
      if p.symbol != "" && Symbol(p) !in SymbolsOf(before) { AppendDistinct(before, p); }
    }
  }

  /** `Onto` names every symbol that its arguments name. */
  lemma {:induction false} OntoNames(base: seq<Proposal>, rows: seq<Proposal>)
    ensures SymbolsOf(Onto(base, rows)) == SymbolsOf(base) + Named(rows)
  {
    if rows == [] {
      assert Named(rows) == {};
    } else {
      var init, p := rows[..|rows| - 1], rows[|rows| - 1];
      var before := Onto(base, init);
      OntoNames(base, init);
      assert Named(rows) == Named(init) + (if p.symbol != "" then {Symbol(p)} else {}) by {
        assert rows == init + [p];
        OneMoreSymbol(init, p);
      }
      if p.symbol != "" && Symbol(p) !in SymbolsOf(before) {
        OneMoreSymbol(before, p);
      }
    }
  }

  lemma {:induction false} DistinctCount(rows: seq<Proposal>)
    requires DistinctSymbols(rows)
    ensures |SymbolsOf(rows)| == |rows|
  {
    if rows != [] {
      var init, p := rows[..|rows| - 1], rows[|rows| - 1];
      assert rows == init + [p];
      DistinctCount(init);
      assert Symbol(p) !in SymbolsOf(init);
      assert SymbolsOf(rows) == SymbolsOf(init) + {Symbol(p)};
    }
  }

  /** A throttled list: new rows first, then pyramid adds, all on different symbols and within the limits. */
  ghost predicate Throttle(out: seq<Proposal>, n: nat, maxEntries: nat, maxPyramid: nat) {
    && n <= |out| && n <= maxEntries && |out| - n <= maxPyramid
    && (forall i :: 0 <= i < n ==> !out[i].pyramidAdd)
    && (forall i :: n <= i < |out| ==> out[i].pyramidAdd)
    && DistinctSymbols(out)
  }

  /** How many new rows the throttle keeps. */
  function KeptNew(rows: seq<Proposal>, maxEntries: nat): nat {
    if |Named(NewRows(rows))| < maxEntries then |Named(NewRows(rows))| else maxEntries
  }

  lemma DistinctTake(rows: seq<Proposal>, n: nat)
    requires DistinctSymbols(rows)
    ensures DistinctSymbols(Take(rows, n)) && Take(rows, n) <= rows
  {
  }

  lemma FirstHalf(rows: seq<Proposal>, maxEntries: nat)
    ensures var taken := Take(Onto([], NewRows(rows)), maxEntries);
      && DistinctSymbols(taken) && |taken| == KeptNew(rows, maxEntries)
      && (forall p :: p in taken ==> p in rows && !p.pyramidAdd)
  {
    var all := Onto([], NewRows(rows));
    OntoDraws([], NewRows(rows));
    OntoNames([], NewRows(rows));
    DistinctCount(all);
    assert SymbolsOf([]) == {};
    DistinctTake(all, maxEntries);
  }

  /** The throttle draws on its input only and keeps exactly min(limit, distinct new symbols) new rows. */
  lemma ThrottleFacts(rows: seq<Proposal>, maxEntries: nat, maxPyramid: nat)
    ensures var out := Throttled(rows, maxEntries, maxPyramid);
      && Throttle(out, KeptNew(rows, maxEntries), maxEntries, maxPyramid)
      && (forall p :: p in out ==> p in rows)
  {
    FirstHalf(rows, maxEntries);
    var taken := Take(Onto([], NewRows(rows)), maxEntries);
    var all := Onto(taken, PyramidRows(rows));
    OntoDraws(taken, PyramidRows(rows));
    DistinctTake(all, |taken| + maxPyramid);
    var out := Take(all, |taken| + maxPyramid);
    assert out[..|taken|] == taken;
    forall i | 0 <= i < |out| ensures out[i] in rows && (out[i].pyramidAdd <==> i >= |taken|) {
      if i < |taken| {
        assert out[i] == taken[i];
      } else {
        assert out[i] == all[i];
        assert all[i] in PyramidRows(rows);
      }
    }
  }

  lemma {:induction false} FilterSplit(a: seq<Proposal>, b: seq<Proposal>, keep: Proposal -> bool)
    requires (forall p :: p in a ==> keep(p)) && (forall p :: p in b ==> !keep(p))
    ensures Filter(a + b, keep) == a
    decreases |b|
  {
    if b == [] {
      assert a + b == a;
      KeepAll(a, keep);
    } else {
      assert (a + b)[..|a + b| - 1] == a + b[..|b| - 1];
      FilterSplit(a, b[..|b| - 1], keep);
    }
  }

  lemma {:induction false} FilterSuffix(a: seq<Proposal>, b: seq<Proposal>, keep: Proposal -> bool)
    requires (forall p :: p in a ==> !keep(p)) && (forall p :: p in b ==> keep(p))
    ensures Filter(a + b, keep) == b
    decreases |b|
  {
    if b == [] {
      assert a + b == [] + a;
      FilterSplit([], a, keep);
    } else {
      assert (a + b)[..|a + b| - 1] == a + b[..|b| - 1];
      FilterSuffix(a, b[..|b| - 1], keep);
    }
  }

  lemma {:induction false} OntoDistinct(base: seq<Proposal>, rows: seq<Proposal>)
    requires DistinctSymbols(base + rows)
    ensures Onto(base, rows) == base + rows
  {
    if rows == [] {
      assert base + rows == base;
    } else {
      var init, p := rows[..|rows| - 1], rows[|rows| - 1];
      assert base + rows == (base + init) + [p];
      DistinctLast(base + init, p);
      OntoDistinct(base, init);
    }
  }

  lemma DistinctLast(rows: seq<Proposal>, p: Proposal)
    requires DistinctSymbols(rows + [p])
    ensures DistinctSymbols(rows) && p.symbol != "" && Symbol(p) !in SymbolsOf(rows)
  {
    var all := rows + [p];
    assert all[|rows|] == p && forall i :: 0 <= i < |rows| ==> all[i] == rows[i];
  }

  /** The two halves of what has the throttled shape. */
  lemma Halves(out: seq<Proposal>, n: nat, maxEntries: nat, maxPyramid: nat)
    requires Throttle(out, n, maxEntries, maxPyramid)
    ensures NewRows(out) == out[..n] && PyramidRows(out) == out[n..]
    ensures DistinctSymbols(out[..n]) && out == out[..n] + out[n..]
  {
    var a, b := out[..n], out[n..];
    assert out == a + b;
    FilterSplit(a, b, IsNew);
    FilterSuffix(a, b, IsAdd);
  }

  /** What has the throttled shape passes through unchanged. */
  lemma ThrottledUnchanged(out: seq<Proposal>, n: nat, maxEntries: nat, maxPyramid: nat)
    requires Throttle(out, n, maxEntries, maxPyramid)
    ensures Throttled(out, maxEntries, maxPyramid) == out
  {
    var a, b := out[..n], out[n..];
    Halves(out, n, maxEntries, maxPyramid);
    assert Onto([], a) == a by {
      assert [] + a == a;
      OntoDistinct([], a);
    }
    assert Onto(a, b) == out by { OntoDistinct(a, b); }
  }

  /** Throttling what is throttled already changes nothing. */
  lemma ThrottleIdempotent(rows: seq<Proposal>, maxEntries: nat, maxPyramid: nat)
    ensures var out := Throttled(rows, maxEntries, maxPyramid); Throttled(out, maxEntries, maxPyramid) == out
  {
    ThrottleFacts(rows, maxEntries, maxPyramid);
    ThrottledUnchanged(Throttled(rows, maxEntries, maxPyramid), KeptNew(rows, maxEntries), maxEntries, maxPyramid);
  }

  // ----- the chain

  function Passes(v: Veto): Proposal -> bool {
    p => !Vetoed(p, v)
  }

  /** Pyramid filter, learning filter and veto, in this order. */
  function Filtered(rows: seq<Proposal>, y: Pyramid, l: Learning, v: Veto): seq<Proposal> {
    Filter(Filter(Filter(rows, ByPyramid(y)), ByLearning(l)), Passes(v))
  }

  method CollectEntries(
      sized: seq<Proposal>, adds: seq<Proposal>, y: Pyramid, l: Learning, v: Veto, maxEntries: int, maxPyramid: int)
    returns (out: seq<Proposal>)
    ensures out == Throttled(Filtered(sized + adds, y, l, v), EntryLimit(maxEntries), AddLimit(maxPyramid))
  {
    var combined := FilterPyramidCandidates(sized + adds, y);
    combined := FilterEntriesByLearning(combined, l);
    var kept := Filter(combined, Passes(v));
    out := ApplyEntryThrottle(kept, maxEntries, maxPyramid);
  }

  /**
   * Main result: the chain's output draws on its proposals, has the throttled shape, and holds nothing vetoed,
   * no new entry the learning filter avoids and no unconfirmed or early pyramid add.
   */
  lemma EntriesAreSafe(rows: seq<Proposal>, y: Pyramid, l: Learning, v: Veto, maxEntries: nat, maxPyramid: nat)
    ensures var kept := Filtered(rows, y, l, v);
      var out := Throttled(kept, maxEntries, maxPyramid);
      && Throttle(out, KeptNew(kept, maxEntries), maxEntries, maxPyramid)
      && forall p :: p in out ==>
        && p in rows && !Vetoed(p, v) && PyramidAllowed(p, y)
        && (l.respected && !p.pyramidAdd ==> !Avoided(p, l))
  {
    ThrottleFacts(Filtered(rows, y, l, v), maxEntries, maxPyramid);
  }

  // ----- what a cycle hands over

  const HANDED_OVER: nat := 8

  /** Only the first entries leave the cycle: they keep the throttled shape, the count of new rows and every safety. */
  lemma HandedEntriesAreSafe(rows: seq<Proposal>, y: Pyramid, l: Learning, v: Veto, maxEntries: nat, maxPyramid: nat)
    ensures var kept := Filtered(rows, y, l, v);
      var handed, n := Take(Throttled(kept, maxEntries, maxPyramid), HANDED_OVER), KeptNew(kept, maxEntries);
      && |handed| <= 8 && Throttle(handed, if n < 8 then n else 8, maxEntries, maxPyramid)
      && forall p :: p in handed ==>
        && p in rows && !Vetoed(p, v) && PyramidAllowed(p, y)
        && (l.respected && !p.pyramidAdd ==> !Avoided(p, l))
  {
    EntriesAreSafe(rows, y, l, v, maxEntries, maxPyramid);
    var kept := Filtered(rows, y, l, v);
    var out := Throttled(kept, maxEntries, maxPyramid);
    ThrottleTake(out, KeptNew(kept, maxEntries), maxEntries, maxPyramid, HANDED_OVER);
  }

  lemma ThrottleTake(out: seq<Proposal>, n: nat, maxEntries: nat, maxPyramid: nat, size: nat)
    requires Throttle(out, n, maxEntries, maxPyramid)
    ensures Throttle(Take(out, size), if n < size then n else size, maxEntries, maxPyramid)
    ensures forall p :: p in Take(out, size) ==> p in out
  {
    DistinctTake(out, size);
  }
}
