/** Timed symbol blocks with lazy pruning, checked against every block call ever made. */
module DynamicBlocklist {
  import opened Common

  /** A call that asked for a block, with the clock reading (in seconds) it was made at. */
  datatype BlockCall = BlockCall(time: int, symbol: string, minutes: int) {
    function Until(): int {
      time + (if minutes < 1 then 1 else minutes) * 60
    }
  }

  /** The meaning of the blocklist: some past call's window extends past `now`. */
  ghost predicate BlockedAt(calls: seq<BlockCall>, symbol: string, now: int) {
    exists i :: 0 <= i < |calls| && calls[i].symbol == symbol && now < calls[i].Until()
  }

  class Blocklist {
    var symbolUntil: map<string, int>
    ghost var calls: seq<BlockCall>
    ghost var clock: int

    /** From the current clock on, the table answers every reading as the calls do. */
    ghost predicate Valid()
      reads this
    {
      && 0 <= clock
      && (forall i :: 0 <= i < |calls| ==> 0 <= calls[i].time <= clock && calls[i].symbol != "")
      && (forall s :: s in symbolUntil ==> symbolUntil[s] > 0)
      && (forall s: string, now: int :: now >= clock ==>
            ((s in symbolUntil && now < symbolUntil[s]) <==> BlockedAt(calls, s, now)))
    }

    constructor (ghost start: int)
      requires start >= 0
      ensures Valid() && calls == [] && clock == start
    {
      symbolUntil, calls, clock := map[], [], start;
    }

    method BlockSymbol(symbol: string, minutes: int, now: int)
      requires Valid() && clock <= now
      modifies this
      ensures Valid() && clock == now
      ensures calls == old(calls) + if symbol == "" then [] else [BlockCall(now, Upper(symbol), minutes)]
    {
      clock := now;
      if symbol == "" { return; }
      var call := BlockCall(now, Upper(symbol), minutes);
      var current := if call.symbol in symbolUntil then symbolUntil[call.symbol] else 0;
      ghost var before, past := symbolUntil, calls;
      var until := if call.Until() > current then call.Until() else current;
      symbolUntil := symbolUntil[call.symbol := until];
      calls := calls + [call];
      forall s: string, t: int | t >= now
        ensures (s in symbolUntil && t < symbolUntil[s]) <==> BlockedAt(calls, s, t)
      {
        assert (s in before && t < before[s]) <==> BlockedAt(past, s, t);
        BlockedByOneMore(past, call, s, t);
      }
    }

    method IsSymbolBlocked(symbol: string, now: int) returns (blocked: bool)
      requires Valid() && clock <= now
      modifies this
      ensures Valid() && clock == now && calls == old(calls)
      ensures blocked <==> BlockedAt(calls, Upper(symbol), now)
    {
      clock := now;
      var s := Upper(symbol);
      var until := if s in symbolUntil then symbolUntil[s] else 0;
      assert (s in symbolUntil && now < until) <==> BlockedAt(calls, s, now);
      if until != 0 && until > now { return true; }
      if until != 0 {
        Prune({s}, now);
      }
      blocked := false;
    }

    method BlockedSymbols(now: int) returns (live: set<string>)
      requires Valid() && clock <= now
      modifies this
      ensures Valid() && clock == now && calls == old(calls)
      ensures forall s: string :: s in live <==> BlockedAt(calls, s, now)
    {
      clock := now;
      live := set s | s in symbolUntil && symbolUntil[s] > now;
      forall s: string ensures s in live <==> BlockedAt(calls, s, now) {
        assert (s in symbolUntil && now < symbolUntil[s]) <==> BlockedAt(calls, s, now);
      }
      var expired := set s | s in symbolUntil && symbolUntil[s] <= now;
      Prune(expired, now);
    }

    /** Dropping run-out entries is unobservable. */
    method Prune(expired: set<string>, now: int)
      requires Valid() && clock == now
      requires forall s :: s in expired && s in symbolUntil ==> symbolUntil[s] <= now
      modifies this`symbolUntil
      ensures Valid()
      ensures symbolUntil == old(symbolUntil) - expired
    {
      ghost var before := symbolUntil;
      symbolUntil := symbolUntil - expired;
      forall s: string, t: int | t >= now
        ensures (s in symbolUntil && t < symbolUntil[s]) <==> BlockedAt(calls, s, t)
      {
        assert (s in before && t < before[s]) <==> BlockedAt(calls, s, t);
      }
    }
  }

  /** A single call blocks its symbol for its minutes, at least one, and no other symbol. */
  lemma BlocksForMinutes(time: int, symbol: string, minutes: int, other: string, now: int)
    ensures BlockedAt([BlockCall(time, symbol, minutes)], other, now) <==>
      other == symbol && (now < time + 60 || now < time + 60 * minutes)
  {
    var calls := [BlockCall(time, symbol, minutes)];
    if other == symbol && (now < time + 60 || now < time + 60 * minutes) {
      assert calls[0].symbol == other && now < calls[0].Until();
    }
  }

  lemma BlockedByOneMore(calls: seq<BlockCall>, call: BlockCall, symbol: string, now: int)
    ensures BlockedAt(calls + [call], symbol, now) <==>
      BlockedAt(calls, symbol, now) || (call.symbol == symbol && now < call.Until())
  {
    var more := calls + [call];
    if BlockedAt(calls, symbol, now) {
      var i :| 0 <= i < |calls| && calls[i].symbol == symbol && now < calls[i].Until();
      assert more[i] == calls[i];
    }
    if call.symbol == symbol && now < call.Until() {
      assert more[|calls|] == call;
    }
    if BlockedAt(more, symbol, now) {
      var i :| 0 <= i < |more| && more[i].symbol == symbol && now < more[i].Until();
      if i < |calls| { assert more[i] == calls[i]; }
    }
  }
}
