/** The daily P&L tracker: day rollover, peak and the reinvested base. */
module DailyPnl {
  import opened Common

  datatype Reading = Reading(day: string, equity: real)

  datatype Report =
    | SyncMissing(startEquity: real, peakEquity: real)
    | Daily(startEquity: real, peakEquity: real, dailyPnl: real, positiveDay: bool)

  // ----- what the positive readings of one process say

  ghost predicate AllPositive(rs: seq<Reading>) {
    forall i :: 0 <= i < |rs| ==> rs[i].equity > 0.0
  }

  /** Position of the first reading of the current day. */
  function DayOpen(rs: seq<Reading>): (i: nat)
    requires rs != []
    ensures i < |rs|
    ensures forall k :: i <= k < |rs| ==> rs[k].day == rs[|rs| - 1].day
    ensures i > 0 ==> rs[i - 1].day != rs[|rs| - 1].day
  {
    var n := |rs| - 1;
    if n == 0 || rs[n - 1].day != rs[n].day then n else DayOpen(rs[..n])
  }

  /** What the current day's P&L is measured from: the last equity of the day before, when reinvesting. */
  function Base(rs: seq<Reading>, compounding: bool): real
    requires rs != []
  {
    var open := DayOpen(rs);
    if compounding && open > 0 then rs[open - 1].equity else rs[open].equity
  }

  /** The highest equity of the current day so far. */
  ghost predicate IsDayPeak(rs: seq<Reading>, peak: real)
    requires rs != []
  {
    var open := DayOpen(rs);
    && (exists k :: open <= k < |rs| && rs[k].equity == peak)
    && (forall k :: open <= k < |rs| ==> rs[k].equity <= peak)
  }

  /** P&L of the days already over, each from its base to its last reading. */
  function ClosedPnl(rs: seq<Reading>, compounding: bool): real {
    var n := |rs| - 1;
    if n <= 0 then 0.0
    else if rs[n - 1].day == rs[n].day then ClosedPnl(rs[..n], compounding)
    else ClosedPnl(rs[..n], compounding) + rs[n - 1].equity - Base(rs[..n], compounding)
  }

  /** Equity moved between the last reading of a day and the first of the next. */
  function OvernightGaps(rs: seq<Reading>): real {
    var n := |rs| - 1;
    if n <= 0 then 0.0
    else OvernightGaps(rs[..n]) + if rs[n - 1].day == rs[n].day then 0.0 else rs[n].equity - rs[n - 1].equity
  }

  /** P&L summed over all days, the current one included. */
  function TotalPnl(rs: seq<Reading>, compounding: bool): real
    requires rs != []
  {
    ClosedPnl(rs, compounding) + rs[|rs| - 1].equity - Base(rs, compounding)
  }

  /**
   * With reinvesting the daily figures telescope to the change of equity over the whole run;
   * without it they miss exactly the overnight gaps.
   */
  lemma {:induction false} DailyPnlTelescopes(rs: seq<Reading>, compounding: bool)
    requires rs != []
    ensures Telescopes(rs, compounding)
  {
    var init, r := rs[..|rs| - 1], rs[|rs| - 1];
    assert rs == init + [r];
    if init == [] {
      TelescopesFirst(r, compounding);
      assert [] + [r] == [r];
    } else {
      DailyPnlTelescopes(init, compounding);
      TelescopesNext(init, r, compounding);
    }
  }

  ghost predicate Telescopes(rs: seq<Reading>, compounding: bool)
    requires rs != []
  {
    TotalPnl(rs, compounding)
      == rs[|rs| - 1].equity - rs[0].equity - (if compounding then 0.0 else OvernightGaps(rs))
  }

  lemma TelescopesFirst(r: Reading, compounding: bool)
    ensures Telescopes([r], compounding)
  {
  }

  lemma TelescopesNext(rs: seq<Reading>, r: Reading, compounding: bool)
    requires rs != [] && Telescopes(rs, compounding)
    ensures Telescopes(rs + [r], compounding)
  {
    TotalAfter(rs, r, compounding);
  }

  /** One more reading adds what equity moved, except over a night that is not reinvested. */
  lemma TotalAfter(rs: seq<Reading>, r: Reading, compounding: bool)
    requires rs != []
    ensures var last, more := rs[|rs| - 1], rs + [r];
      && TotalPnl(more, compounding) == TotalPnl(rs, compounding)
           + (if compounding || r.day == last.day then r.equity - last.equity else 0.0)
      && OvernightGaps(more) == OvernightGaps(rs) + if r.day == last.day then 0.0 else r.equity - last.equity
  {
    OpenAfter(rs, r);
    ClosedAfter(rs, r, compounding);
    assert (rs + [r])[..|rs|] == rs;
  }

  /** A reading of a new day closes the day before. */
  lemma ClosedAfter(rs: seq<Reading>, r: Reading, compounding: bool)
    requires rs != []
    ensures ClosedPnl(rs + [r], compounding) == ClosedPnl(rs, compounding)
      + if r.day == rs[|rs| - 1].day then 0.0 else rs[|rs| - 1].equity - Base(rs, compounding)
  {
    var n, more := |rs|, rs + [r];
    assert more[..n] == rs && more[n] == r && more[n - 1] == rs[n - 1];
  }

  /** One more reading either continues the current day or opens a new one. */
  lemma OpenAfter(rs: seq<Reading>, r: Reading)
    requires rs != []
    ensures DayOpen(rs + [r]) == if r.day == rs[|rs| - 1].day then DayOpen(rs) else |rs|
    ensures Base(rs + [r], true) == if r.day == rs[|rs| - 1].day then Base(rs, true) else rs[|rs| - 1].equity
    ensures Base(rs + [r], false) == if r.day == rs[|rs| - 1].day then Base(rs, false) else r.equity
  {
    assert (rs + [r])[..|rs|] == rs;
  }

  lemma PeakAfter(rs: seq<Reading>, r: Reading, peak: real)
    requires rs != [] && IsDayPeak(rs, peak)
    ensures IsDayPeak(rs + [r], if r.day == rs[|rs| - 1].day then MaxR(peak, r.equity) else r.equity)
  {
    OpenAfter(rs, r);
    var more := rs + [r];
    if r.day == rs[|rs| - 1].day && r.equity <= peak {
      var k :| DayOpen(rs) <= k < |rs| && rs[k].equity == peak;
      assert more[k].equity == peak;
    } else {
      assert more[|rs|].equity == r.equity;
    }
  }

  /** The tracker's fields. */
  datatype State = State(day: Option<string>, start: real, peak: real, yesterday: real, last: real)

  /** The state after one reading, whatever state it finds. */
  function Advanced(s: State, r: Reading, compounding: bool): State {
    var yesterday := if s.last > 0.0 then s.last else if s.start > 0.0 then s.start else s.yesterday;
    var moved :=
      if s.day != Some(r.day) then
        if r.equity > 0.0 then
          var start := if compounding && yesterday > 0.0 then yesterday else r.equity;
          State(Some(r.day), start, r.equity, yesterday, s.last)
        else s
      else if s.start <= 0.0 && r.equity > 0.0 then s.(start := r.equity, peak := r.equity)
      else s.(peak := MaxR(s.peak, r.equity));
    if r.equity > 0.0 then moved.(last := r.equity) else moved
  }

  /** The tracker's fields (but for the previous close) say exactly this about the positive readings so far. */
  ghost predicate Tracks(
    rs: seq<Reading>, compounding: bool, day: Option<string>, start: real, peak: real, last: real)
  {
    if rs == [] then day == None && start == peak == last == 0.0
    else
      && day == Some(rs[|rs| - 1].day) && last == rs[|rs| - 1].equity
      && start == Base(rs, compounding) && IsDayPeak(rs, peak)
      && 0.0 < start && 0.0 < peak && 0.0 < last
  }

  lemma TracksNext(
    rs: seq<Reading>, compounding: bool, day: Option<string>, start: real, peak: real, last: real, r: Reading)
    requires AllPositive(rs) && r.equity > 0.0 && Tracks(rs, compounding, day, start, peak, last)
    ensures AllPositive(rs + [r])
    ensures day == Some(r.day) ==> Tracks(rs + [r], compounding, day, start, MaxR(peak, r.equity), r.equity)
    ensures day != Some(r.day) ==>
      Tracks(rs + [r], compounding, Some(r.day), if compounding && rs != [] then last else r.equity, r.equity, r.equity)
  {
    if rs == [] {
      assert (rs + [r])[0] == r;
      assert DayOpen(rs + [r]) == 0;
    } else {
      OpenAfter(rs, r);
      PeakAfter(rs, r, peak);
    }
  }

  const EMPTY := State(None, 0.0, 0.0, 0.0, 0.0)

  /** The state after a whole run of readings, positive or not. */
  function Run(rs: seq<Reading>, compounding: bool): State {
    if rs == [] then EMPTY else Advanced(Run(rs[..|rs| - 1], compounding), rs[|rs| - 1], compounding)
  }

  function Positive(rs: seq<Reading>): seq<Reading> {
    if rs == [] then []
    else
      var before, r := Positive(rs[..|rs| - 1]), rs[|rs| - 1];
      if r.equity > 0.0 then before + [r] else before
  }

  /** After any run from an empty state, base, peak and last equity are what the positive readings say. */
  lemma {:induction false} RunTracks(rs: seq<Reading>, compounding: bool)
    ensures var s, ps := Run(rs, compounding), Positive(rs);
      && AllPositive(ps)
      && Tracks(ps, compounding, s.day, s.start, s.peak, s.last)
      && (ps == [] ==> s == EMPTY)
  {
    if rs != [] {
      var init, r := rs[..|rs| - 1], rs[|rs| - 1];
      RunTracks(init, compounding);
      var s := Run(init, compounding);
      if r.equity > 0.0 { TracksNext(Positive(init), compounding, s.day, s.start, s.peak, s.last, r); }
    }
  }

  /** From any state, a reinvested new day starts from the last equity, else the last start, else the last close. */
  lemma NewDayStart(s: State, r: Reading)
    requires s.day != Some(r.day) && r.equity > 0.0
    ensures Advanced(s, r, true).start ==
      if s.last > 0.0 then s.last else if s.start > 0.0 then s.start
      else if s.yesterday > 0.0 then s.yesterday else r.equity
    ensures Advanced(s, r, false).start == r.equity
    ensures Advanced(s, r, true).peak == Advanced(s, r, true).last == r.equity
  {
  }

  /** The remembered close is the last equity of the day before the current one, and 0 on the first day. */
  ghost predicate Remembers(ps: seq<Reading>, yesterday: real) {
    if ps == [] || DayOpen(ps) == 0 then yesterday == 0.0 else yesterday == ps[DayOpen(ps) - 1].equity
  }

  lemma {:induction false} RunRemembersClose(rs: seq<Reading>, compounding: bool)
    ensures Remembers(Positive(rs), Run(rs, compounding).yesterday)
  {
    if rs != [] {
      var init, r := rs[..|rs| - 1], rs[|rs| - 1];
      RunRemembersClose(init, compounding);
      RunTracks(init, compounding);
      if r.equity > 0.0 { RemembersNext(Positive(init), Run(init, compounding), r, compounding); }
    }
  }

  lemma RemembersNext(ps: seq<Reading>, s: State, r: Reading, compounding: bool)
    requires r.equity > 0.0 && Remembers(ps, s.yesterday)
    requires if ps == [] then s == EMPTY else s.day == Some(ps[|ps| - 1].day) && s.last == ps[|ps| - 1].equity > 0.0
    ensures Remembers(ps + [r], Advanced(s, r, compounding).yesterday)
  {
    var more := ps + [r];
    if ps == [] {
      assert more == [r] && DayOpen([r]) == 0;
    } else {
      OpenAfter(ps, r);
      assert forall i :: 0 <= i < |ps| ==> more[i] == ps[i];
    }
  }

  // ----- the figures the tracker reports

  /** The day's figure after a positive reading. */
  function Figure(s: State): real {
    s.last - s.start
  }

  /** The figures with which the days already over ended: each rollover closes the day before it. */
  function EndedFigures(rs: seq<Reading>, compounding: bool): real {
    if rs == [] then 0.0
    else
      var before, r := rs[..|rs| - 1], rs[|rs| - 1];
      var s := Run(before, compounding);
      EndedFigures(before, compounding)
      + if r.equity > 0.0 && s.day.Some? && s.day != Some(r.day) then Figure(s) else 0.0
  }

  lemma {:induction false} EndedFiguresClosed(rs: seq<Reading>, compounding: bool)
    ensures EndedFigures(rs, compounding) == ClosedPnl(Positive(rs), compounding)
  {
    if rs != [] {
      var before, r := rs[..|rs| - 1], rs[|rs| - 1];
      var ps := Positive(before);
      EndedFiguresClosed(before, compounding);
      RunTracks(before, compounding);
      if r.equity > 0.0 && ps != [] { ClosedAfter(ps, r, compounding); }
    }
  }

  /**
   * Main result, for the tracker: the figures with which its days end, and the current one, add up over any run to last
   * minus first positive equity when reinvesting; otherwise they miss exactly the overnight gaps.
   */
  lemma RunTelescopes(rs: seq<Reading>, compounding: bool)
    requires Positive(rs) != []
    ensures var ps := Positive(rs);
      EndedFigures(rs, compounding) + Figure(Run(rs, compounding))
        == ps[|ps| - 1].equity - ps[0].equity - (if compounding then 0.0 else OvernightGaps(ps))
  {
    RunTotal(rs, compounding);
    DailyPnlTelescopes(Positive(rs), compounding);
  }

  lemma RunTotal(rs: seq<Reading>, compounding: bool)
    requires Positive(rs) != []
    ensures EndedFigures(rs, compounding) + Figure(Run(rs, compounding)) == TotalPnl(Positive(rs), compounding)
  {
    EndedFiguresClosed(rs, compounding);
    RunTracks(rs, compounding);
  }

  class DailyPnlTracker {
    const compounding: bool
    ghost const fromEmpty: bool        // whether this process started without a saved state
    var day: Option<string>
    var startEquity: real
    var peakEquity: real
    var yesterdayCloseEquity: real
    var lastEquity: real
    ghost var readings: seq<Reading>   // the positive readings so far

    function Fields(): State
      reads this
    {
      State(day, startEquity, peakEquity, yesterdayCloseEquity, lastEquity)
    }

    ghost predicate Valid()
      reads this
    {
      && AllPositive(readings)
      && (fromEmpty ==>
            && Tracks(readings, compounding, day, startEquity, peakEquity, lastEquity)
            && (readings == [] ==> yesterdayCloseEquity == 0.0))
    }

    constructor (compounding: bool)
      ensures Valid() && readings == [] && this.compounding == compounding && fromEmpty
    {
      this.compounding, fromEmpty := compounding, true;
      day, startEquity, peakEquity, yesterdayCloseEquity, lastEquity := None, 0.0, 0.0, 0.0, 0.0;
      readings := [];
    }

    /** Resuming from a state file, which may hold anything. */
    constructor Load(compounding: bool, day: Option<string>, start: real, peak: real, yesterday: real, last: real)
      ensures Valid() && readings == [] && this.compounding == compounding && !fromEmpty
    {
      this.compounding, fromEmpty := compounding, false;
      this.day, startEquity, peakEquity, yesterdayCloseEquity, lastEquity := day, start, peak, yesterday, last;
      readings := [];
    }

    /** A positive reading of a new day: the rollover. */
    method Rollover(equity: real, today: string)
      requires equity > 0.0
      modifies this`day, this`startEquity, this`peakEquity, this`yesterdayCloseEquity
      ensures day == Some(today) && peakEquity == equity
      ensures yesterdayCloseEquity ==
        if lastEquity > 0.0 then lastEquity
        else if old(startEquity) > 0.0 then old(startEquity) else old(yesterdayCloseEquity)
      ensures startEquity == if compounding && yesterdayCloseEquity > 0.0 then yesterdayCloseEquity else equity
    {
      if lastEquity > 0.0 {
        yesterdayCloseEquity := lastEquity;
      } else if startEquity > 0.0 {
        yesterdayCloseEquity := startEquity;
      }
      day := Some(today);
      startEquity := if compounding && yesterdayCloseEquity > 0.0 then yesterdayCloseEquity else equity;
      peakEquity := equity;
    }

    /** The state change of a positive reading. */
    method AdvancePositive(equity: real, today: string)
      requires Valid() && equity > 0.0
      modifies this
      ensures Valid()
      ensures readings == old(readings) + [Reading(today, equity)]
      ensures Fields() == Advanced(old(Fields()), Reading(today, equity), compounding)
    {
      ghost var r := Reading(today, equity);
      if fromEmpty {
        TracksNext(readings, compounding, day, startEquity, peakEquity, lastEquity, r);
      }
      if day != Some(today) {
        Rollover(equity, today);
      } else if startEquity <= 0.0 {
        startEquity, peakEquity := equity, equity;
      } else if equity > peakEquity {
        peakEquity := equity;
      }
      lastEquity := equity;
      readings := readings + [r];
    }

    /** The state change of an update; a reading that is not positive can only reach the peak test. */
    method Advance(equity: real, today: string)
      requires Valid()
      modifies this
      ensures Valid()
      ensures readings == old(readings) + if equity > 0.0 then [Reading(today, equity)] else []
      ensures Fields() == Advanced(old(Fields()), Reading(today, equity), compounding)
      ensures equity <= 0.0 && (fromEmpty || old(peakEquity) >= 0.0) ==> unchanged(this)
    {
      if equity > 0.0 {
        AdvancePositive(equity, today);
      } else if day == Some(today) && equity > peakEquity {
        peakEquity := equity;
      }
    }

    /** Non-positive readings change nothing; a positive one is measured from its day's base. */
    method Update(equity: real, today: string) returns (report: Report)
      requires Valid()
      modifies this
      ensures Valid()
      ensures readings == old(readings) + if equity > 0.0 then [Reading(today, equity)] else []
      ensures Fields() == Advanced(old(Fields()), Reading(today, equity), compounding)
      ensures equity <= 0.0 && (fromEmpty || old(peakEquity) >= 0.0) ==> unchanged(this)
      ensures report.SyncMissing? <==> equity <= 0.0 && startEquity > 0.0
      ensures fromEmpty ==> (report.SyncMissing? <==> equity <= 0.0 && readings != [])
      ensures fromEmpty && readings != [] ==>
        report.startEquity == Base(readings, compounding) && IsDayPeak(readings, report.peakEquity)
      ensures fromEmpty && equity > 0.0 ==>
        report.dailyPnl == equity - Base(readings, compounding)
        && (report.positiveDay <==> report.dailyPnl >= 0.0)
    {
      Advance(equity, today);
      if equity <= 0.0 && startEquity > 0.0 {
        report := SyncMissing(startEquity, peakEquity);
      } else {
        report := Daily(startEquity, peakEquity, equity - startEquity, equity - startEquity >= 0.0);
      }
    }
  }
}
