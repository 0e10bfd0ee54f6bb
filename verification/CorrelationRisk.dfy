/** Admission of one tick's orders by the correlation risk engine. */
module CorrelationRisk {
  import opened Common

  datatype Order = Order(fleet: string, side: string, margin: real, leverage: real, quality: real) {
    function Notional(): real { margin * leverage }
  }

  /** BTC's fast and slow change. */
  datatype Context = Context(btcFast: real, btcSlow: real)

  datatype Verdict =
    | Admitted | MeetingForbidden | BtcDowntrend | BtcStrongUp | AboveBtcCap | LowerQualityAlt | Deprioritized
    | ExposureCap

  const EXPOSURE_CAP := 1020.0

  /** Largest margin of the tick's BTC orders, 100 when there is none. */
  function BtcReference(tick: seq<Order>): real {
    LargestBtc(tick).GetOr(100.0)
  }

  function LargestBtc(tick: seq<Order>): Option<real> {
    if tick == [] then None
    else
      var before, o := LargestBtc(tick[..|tick| - 1]), tick[|tick| - 1];
      if o.fleet != "BTC" then before else Some(if before.None? then o.margin else MaxR(before.value, o.margin))
  }

  /** Best quality among the tick's orders of one fleet and side. */
  function BestQuality(tick: seq<Order>, fleet: string, side: string): Option<real> {
    if tick == [] then None
    else
      var before, o := BestQuality(tick[..|tick| - 1], fleet, side), tick[|tick| - 1];
      if o.fleet != fleet || o.side != side then before
      else Some(if before.None? then o.quality else MaxR(before.value, o.quality))
  }

  predicate Major(o: Order) { o.fleet == "BTC" || o.fleet == "ETH" }

  predicate Alt(o: Order) { o.fleet == "SOL" || o.fleet == "PEPE" }

  predicate OtherAltLong(o: Order) { (o.fleet == "ETH" || o.fleet == "SOL") && o.side == "BUY" }

  /** BTC and ETH notional held on one side. */
  function Exposure(orders: seq<Order>, side: string): real {
    if orders == [] then 0.0
    else
      var o := orders[|orders| - 1];
      Exposure(orders[..|orders| - 1], side) + if Major(o) && o.side == side then o.Notional() else 0.0
  }

  function Peer(fleet: string): string {
    if fleet == "SOL" then "PEPE" else "SOL"
  }

  function Evaluate(o: Order, open: seq<Order>, tick: seq<Order>, ctx: Context, forbidden: bool): Verdict {
    if forbidden then MeetingForbidden
    else if o.fleet == "PEPE" && o.side == "BUY" && (ctx.btcFast < -0.006 || ctx.btcSlow < -0.012) then BtcDowntrend
    else if o.fleet == "PEPE" && o.side == "SELL" && ctx.btcFast > 0.006 && o.margin > 30.0 then BtcStrongUp
    else if o.fleet == "PEPE" && o.margin > BtcReference(tick) * 0.3 then AboveBtcCap
    else if Alt(o) && BestQuality(tick, Peer(o.fleet), o.side).Some?
      && o.quality < BestQuality(tick, Peer(o.fleet), o.side).value then LowerQualityAlt
    else if o.fleet == "PEPE" && o.side == "BUY" && (exists p :: p in tick && OtherAltLong(p)) && o.quality < 0.85
      then Deprioritized
    else if Major(o) && (o.side == "BUY" || o.side == "SELL")
      && Exposure(open, o.side) + Exposure(tick, o.side) + o.Notional() > EXPOSURE_CAP then ExposureCap
    else Admitted
  }

  /** Whether the tick allows a PEPE margin: against its BTC orders, or against 100 when it has none. */
  ghost predicate WithinBtcCap(margin: real, tick: seq<Order>) {
    || (margin <= 30.0 && forall p :: p in tick ==> p.fleet != "BTC")
    || (exists p :: p in tick && p.fleet == "BTC" && margin <= p.margin * 0.3)
  }

  /** A SOL and a PEPE order on one side. */
  predicate Rivals(a: Order, b: Order) {
    a.side == b.side && ((a.fleet == "SOL" && b.fleet == "PEPE") || (a.fleet == "PEPE" && b.fleet == "SOL"))
  }

  /** An order of at least the quality of every rival. */
  ghost predicate BeatsRivals(o: Order, tick: seq<Order>) {
    forall p :: p in tick && Rivals(o, p) ==> p.quality <= o.quality
  }

  ghost predicate EthOrSolLong(tick: seq<Order>) {
    exists p :: p in tick && p.fleet in {"ETH", "SOL"} && p.side == "BUY"
  }

  /** Admission in terms of the single orders of the tick. */
  lemma AdmittedIff(o: Order, open: seq<Order>, tick: seq<Order>, ctx: Context, forbidden: bool)
    ensures Evaluate(o, open, tick, ctx, forbidden) == Admitted <==>
      && !forbidden
      && (o.fleet == "PEPE" ==> WithinBtcCap(o.margin, tick))
      && (o.fleet == "PEPE" && o.side == "BUY" ==>
            && ctx.btcFast >= -0.006 && ctx.btcSlow >= -0.012
            && (o.quality >= 0.85 || forall p :: p in tick ==> !OtherAltLong(p)))
      && (o.fleet == "PEPE" && o.side == "SELL" && o.margin > 30.0 ==> ctx.btcFast <= 0.006)
      && BeatsRivals(o, tick)
      && (Major(o) && o.side in {"BUY", "SELL"} ==>
            Exposure(open, o.side) + Exposure(tick, o.side) + o.Notional() <= 1020.0)
  {
    BestIsBest(tick, Peer(o.fleet), o.side);
    LargestIsLargest(tick);
  }

  lemma {:induction false} BestIsBest(tick: seq<Order>, fleet: string, side: string)
    ensures var best := BestQuality(tick, fleet, side);
      && (forall p :: p in tick && p.fleet == fleet && p.side == side ==> best.Some? && p.quality <= best.value)
      && (best.Some? ==> exists p :: p in tick && p.fleet == fleet && p.side == side && p.quality == best.value)
  {
    if tick != [] {
      BestIsBest(tick[..|tick| - 1], fleet, side);
      assert tick == tick[..|tick| - 1] + [tick[|tick| - 1]];
    }
  }

  lemma {:induction false} LargestIsLargest(tick: seq<Order>)
    ensures var best := LargestBtc(tick);
      && (forall p :: p in tick && p.fleet == "BTC" ==> best.Some? && p.margin <= best.value)
      && (best.Some? ==> exists p :: p in tick && p.fleet == "BTC" && p.margin == best.value)
  {
    if tick != [] {
      LargestIsLargest(tick[..|tick| - 1]);
      assert tick == tick[..|tick| - 1] + [tick[|tick| - 1]];
    }
  }

  /** Exposure is additive, and one order adds its margin times its leverage if it is BTC or ETH on the side. */
  lemma {:induction false} ExposureAdds(a: seq<Order>, b: seq<Order>, o: Order, side: string)
    ensures Exposure(a + b, side) == Exposure(a, side) + Exposure(b, side)
    ensures Exposure([o], side) == if o.fleet in {"BTC", "ETH"} && o.side == side then o.margin * o.leverage else 0.0
  {
    assert [o][..0] == [] && Exposure([], side) == 0.0;
    if b == [] {
      assert a + b == a;
    } else {
      assert (a + b)[..|a + b| - 1] == a + b[..|b| - 1];
      ExposureAdds(a, b[..|b| - 1], o, side);
    }
  }

  /** The two bounds of the cascade in terms of single orders. */
  lemma BoundsBySingleOrders(o: Order, tick: seq<Order>)
    ensures var best := BestQuality(tick, Peer(o.fleet), o.side);
      Alt(o) ==> (BeatsRivals(o, tick) <==> best.None? || best.value <= o.quality)
    ensures WithinBtcCap(o.margin, tick) <==> o.margin <= BtcReference(tick) * 0.3
    ensures EthOrSolLong(tick) <==> exists p :: p in tick && OtherAltLong(p)
  {
    BestIsBest(tick, Peer(o.fleet), o.side);
    LargestIsLargest(tick);
  }

  /** The first three rules refuse exactly the orders they name, a later one of them only when the earlier are kept. */
  lemma MarketVerdicts(o: Order, open: seq<Order>, tick: seq<Order>, ctx: Context, forbidden: bool)
    ensures var v := Evaluate(o, open, tick, ctx, forbidden);
      && (v == MeetingForbidden <==> forbidden)
      && (v == BtcDowntrend <==>
           !forbidden && o.fleet == "PEPE" && o.side == "BUY" && (ctx.btcFast < -0.006 || ctx.btcSlow < -0.012))
      && (v == BtcStrongUp <==>
           !forbidden && o.fleet == "PEPE" && o.side == "SELL" && ctx.btcFast > 0.006 && o.margin > 30.0)
  {
  }

  /** A refusal by the other orders of the tick names a rule that is broken, the earlier ones being kept. */
  lemma TickVerdicts(o: Order, open: seq<Order>, tick: seq<Order>, ctx: Context, forbidden: bool)
    ensures var v := Evaluate(o, open, tick, ctx, forbidden);
      && (v == AboveBtcCap ==> o.fleet == "PEPE" && !WithinBtcCap(o.margin, tick))
      && (v in {LowerQualityAlt, Deprioritized} && o.fleet == "PEPE" ==> WithinBtcCap(o.margin, tick))
      && (v == LowerQualityAlt ==> o.fleet in {"SOL", "PEPE"} && !BeatsRivals(o, tick))
      && (v == Deprioritized ==> o.fleet == "PEPE" && o.side == "BUY" && o.quality < 0.85 && BeatsRivals(o, tick))
  {
    BoundsBySingleOrders(o, tick);
  }

  lemma YieldVerdict(o: Order, open: seq<Order>, tick: seq<Order>, ctx: Context, forbidden: bool)
    ensures var v := Evaluate(o, open, tick, ctx, forbidden);
      && (v == Deprioritized ==> EthOrSolLong(tick))
      && (v == ExposureCap ==>
           o.fleet in {"BTC", "ETH"} && o.side in {"BUY", "SELL"}
           && Exposure(open, o.side) + Exposure(tick, o.side) + o.margin * o.leverage > 1020.0)
  {
  }

  /** A request; `forbidden` stands for the meeting-notes rule, whose matching is not modelled. */
  datatype Request = Request(order: Order, ctx: Context, forbidden: bool)

  /** One tick: every approved order joins the tick's orders before the next is evaluated. */
  function Tick(open: seq<Order>, requests: seq<Request>): seq<Order> {
    if requests == [] then []
    else
      var tick, r := Tick(open, requests[..|requests| - 1]), requests[|requests| - 1];
      if Evaluate(r.order, open, tick, r.ctx, r.forbidden) == Admitted then tick + [r.order] else tick
  }

  // ----- what every tick keeps

  ghost predicate WithinExposure(open: seq<Order>, tick: seq<Order>, side: string) {
    Exposure(open, side) + Exposure(tick, side) <= EXPOSURE_CAP
  }

  /** Every PEPE margin was within three tenths of the BTC reference when it was admitted. */
  ghost predicate PepeWithinCap(tick: seq<Order>) {
    forall i :: 0 <= i < |tick| && tick[i].fleet == "PEPE" ==> tick[i].margin <= BtcReference(tick[..i]) * 0.3
  }

  /** Of two same-side SOL and PEPE orders the later never has the lower quality. */
  ghost predicate AltQualityRises(tick: seq<Order>) {
    forall i, j :: 0 <= i < j < |tick| && Rivals(tick[i], tick[j]) ==> tick[i].quality <= tick[j].quality
  }

  /** No PEPE long of quality below 0.85 follows an ETH or SOL long. */
  ghost predicate PepeLongsYield(tick: seq<Order>) {
    forall i, j :: 0 <= i < j < |tick| && OtherAltLong(tick[i]) && tick[j].fleet == "PEPE" && tick[j].side == "BUY"
      ==> tick[j].quality >= 0.85
  }

  ghost predicate TickInvariant(open: seq<Order>, tick: seq<Order>) {
    && (Exposure(open, "BUY") <= EXPOSURE_CAP ==> WithinExposure(open, tick, "BUY"))
    && (Exposure(open, "SELL") <= EXPOSURE_CAP ==> WithinExposure(open, tick, "SELL"))
    && PepeWithinCap(tick) && AltQualityRises(tick) && PepeLongsYield(tick)
  }

  lemma AdmissionKeepsInvariant(open: seq<Order>, tick: seq<Order>, r: Request)
    requires TickInvariant(open, tick)
    requires Evaluate(r.order, open, tick, r.ctx, r.forbidden) == Admitted
    ensures TickInvariant(open, tick + [r.order])
  {
    var o, more := r.order, tick + [r.order];
    assert more[..|tick|] == tick;
    forall i | 0 <= i < |more| && more[i].fleet == "PEPE" ensures more[i].margin <= BtcReference(more[..i]) * 0.3 {
      assert more[..i] == tick[..i];
      if i == |tick| { assert tick[..i] == tick; }
    }
    if Alt(o) { BestIsBest(tick, Peer(o.fleet), o.side); }
    assert AltQualityRises(more);
    assert PepeLongsYield(more);
  }

  /**
   * Main result, for every tick of any length, mix of orders and open positions: same-side BTC and ETH notional
   * that starts within 1020 stays there, and the PEPE cap, the SOL/PEPE quality order and the PEPE yield all hold.
   */
  lemma {:induction false} TickKeepsInvariant(open: seq<Order>, requests: seq<Request>)
    ensures TickInvariant(open, Tick(open, requests))
  {
    if requests != [] {
      var before, r := requests[..|requests| - 1], requests[|requests| - 1];
      TickKeepsInvariant(open, before);
      if Evaluate(r.order, open, Tick(open, before), r.ctx, r.forbidden) == Admitted {
        AdmissionKeepsInvariant(open, Tick(open, before), r);
      }
    }
  }

  lemma {:induction false} ReferenceBounded(tick: seq<Order>, i: nat)
    requires i <= |tick|
    ensures BtcReference(tick[..i]) <= MaxR(100.0, BtcReference(tick))
    decreases |tick|
  {
    if i < |tick| {
      var init := tick[..|tick| - 1];
      ReferenceBounded(init, i);
      assert init[..i] == tick[..i];
    } else {
      assert tick[..i] == tick;
    }
  }

  /** Measured at the end of the tick, a PEPE margin is within 0.3 of the larger of 100 and the largest BTC margin. */
  lemma {:induction false} PepeMarginAtEnd(open: seq<Order>, requests: seq<Request>, i: nat)
    requires var tick := Tick(open, requests); i < |tick| && tick[i].fleet == "PEPE"
    ensures var tick := Tick(open, requests); tick[i].margin <= 0.3 * MaxR(100.0, BtcReference(tick))
  {
    TickKeepsInvariant(open, requests);
    ReferenceBounded(Tick(open, requests), i);
  }

  // ----- the PEPE cap as later BTC orders move it

  /** Every PEPE margin is within three tenths of a reference. */
  ghost predicate CappedBy(tick: seq<Order>, reference: real) {
    forall i :: 0 <= i < |tick| && tick[i].fleet == "PEPE" ==> tick[i].margin <= reference * 0.3
  }

  /** Every PEPE margin is within three tenths of the BTC reference of the whole tick. */
  ghost predicate PepeCapped(tick: seq<Order>) {
    CappedBy(tick, BtcReference(tick))
  }

  /** The PEPE orders admitted before any BTC order are within three tenths of the largest BTC margin. */
  ghost predicate EarlyPepeCovered(tick: seq<Order>, largest: real) {
    forall i :: 0 <= i < |tick| && tick[i].fleet == "PEPE" && LargestBtc(tick[..i]).None? ==>
      tick[i].margin <= largest * 0.3
  }

  /**
   * The cap holds at the end of a tick exactly when the tick has no BTC order, or its largest one covers every PEPE
   * margin that was admitted against the default reference, before any BTC order.
   */
  lemma PepeCappedAtEndIff(open: seq<Order>, requests: seq<Request>)
    ensures var tick := Tick(open, requests);
      PepeCapped(tick) <==> LargestBtc(tick).None? || EarlyPepeCovered(tick, LargestBtc(tick).value)
  {
    var tick := Tick(open, requests);
    TickKeepsInvariant(open, requests);
    forall i | 0 <= i <= |tick| ensures LargestBtc(tick[..i]).Some? ==>
      LargestBtc(tick).Some? && LargestBtc(tick[..i]).value <= LargestBtc(tick).value
    {
      LargestGrows(tick, i);
    }
  }

  lemma {:induction false} LargestGrows(tick: seq<Order>, i: nat)
    requires i <= |tick|
    ensures LargestBtc(tick[..i]).Some? ==>
      LargestBtc(tick).Some? && LargestBtc(tick[..i]).value <= LargestBtc(tick).value
    decreases |tick|
  {
    if i < |tick| {
      var init := tick[..|tick| - 1];
      LargestGrows(init, i);
      assert init[..i] == tick[..i];
    } else {
      assert tick[..i] == tick;
    }
  }

  /** Only the first BTC order can break the cap, exactly when it is too small for the PEPE orders before it. */
  lemma AdmissionKeepsPepeCappedIff(open: seq<Order>, tick: seq<Order>, r: Request)
    requires PepeCapped(tick) && Evaluate(r.order, open, tick, r.ctx, r.forbidden) == Admitted
    ensures PepeCapped(tick + [r.order]) <==>
      r.order.fleet != "BTC" || LargestBtc(tick).Some? || CappedBy(tick, r.order.margin)
  {
    LargestAfter(tick, r.order);
    CappedAppend(tick, r.order, BtcReference(tick + [r.order]));
    if BtcReference(tick) <= BtcReference(tick + [r.order]) {
      CappedWider(tick, BtcReference(tick), BtcReference(tick + [r.order]));
    }
  }

  lemma CappedAppend(tick: seq<Order>, o: Order, reference: real)
    ensures CappedBy(tick + [o], reference) <==>
      CappedBy(tick, reference) && (o.fleet == "PEPE" ==> o.margin <= reference * 0.3)
  {
    var more := tick + [o];
    assert more[|tick|] == o && forall i :: 0 <= i < |tick| ==> more[i] == tick[i];
  }

  lemma CappedWider(tick: seq<Order>, a: real, b: real)
    requires CappedBy(tick, a) && a <= b
    ensures CappedBy(tick, b)
  {
  }

  lemma LargestAfter(tick: seq<Order>, o: Order)
    ensures LargestBtc(tick + [o]) == if o.fleet != "BTC" then LargestBtc(tick)
      else Some(if LargestBtc(tick).None? then o.margin else MaxR(LargestBtc(tick).value, o.margin))
  {
    assert (tick + [o])[..|tick|] == tick;
  }

  /** A concrete tick in which it does not: a later small BTC order leaves an admitted PEPE margin above 0.3 of it. */
  lemma LaterBtcOrderLowersCap(ctx: Context)
    requires ctx.btcFast == 0.0 && ctx.btcSlow == 0.0
    ensures exists requests: seq<Request> ::
      var tick := Tick([], requests);
      |tick| == 2 && tick[0].fleet == "PEPE" && tick[0].margin > 0.3 * BtcReference(tick)
  {
    var pepe := Request(Order("PEPE", "SELL", 30.0, 1.0, 1.0), ctx, false);
    var btc := Request(Order("BTC", "BUY", 10.0, 1.0, 1.0), ctx, false);
    var requests := [pepe, btc];
    assert requests[..1] == [pepe] && [pepe][..0] == [];
    assert Tick([], []) == [] && BtcReference([]) == 100.0;
    assert Evaluate(pepe.order, [], [], ctx, false) == Admitted;
    assert Tick([], [pepe]) == [pepe.order];
    assert Exposure([pepe.order][..0], "BUY") == 0.0;
    assert Exposure([pepe.order], "BUY") == 0.0;
    assert Evaluate(btc.order, [], [pepe.order], ctx, false) == Admitted;
    assert [pepe.order][..0] == [];
    assert Tick([], requests) == [pepe.order, btc.order];
    var tick := [pepe.order, btc.order];
    assert tick[..1] == [pepe.order] && LargestBtc([pepe.order]) == None;
    assert BtcReference(tick) == 10.0;
  }
}
