/** The order-book walk that estimates slippage, and its two call sites. */
module OrderBook {
  import opened Common

  datatype Level = Level(price: real, quantity: real) {
    predicate Valid() { price > 0.0 && quantity > 0.0 }
    function Notional(): real { price * quantity }
  }

  /** What a walk acquired and what it spent. */
  datatype Fill = Fill(quantity: real, notional: real)

  // ----- the walk

  /** Walk the book spending `remaining`; levels that are not positive are skipped. */
  function Walk(levels: seq<Level>, remaining: real): Fill {
    if levels == [] then Fill(0.0, 0.0)
    else if !levels[0].Valid() then Walk(levels[1..], remaining)
    else
      var consumed := MinR(levels[0].Notional(), remaining);
      var here := Fill(consumed / levels[0].price, consumed);
      if remaining - consumed <= 0.0 then here else Plus(here, Walk(levels[1..], remaining - consumed))
  }

  function Plus(a: Fill, b: Fill): Fill {
    Fill(a.quantity + b.quantity, a.notional + b.notional)
  }

  /** The distance of a price from a reference, in basis points. */
  function Bps(price: real, reference: real): real
    requires reference != 0.0
  {
    (price - reference) / reference * 10000.0
  }

  /** The slippage in basis points of a completed walk against a reference price. */
  function SlippageOf(fill: Fill, reference: real): real
    requires reference != 0.0
  {
    if fill.quantity <= 0.0 then 0.0
    else Bps(fill.notional / fill.quantity, reference)
  }

  function Slippage(levels: seq<Level>, target: real, reference: real): real {
    if levels == [] || target == 0.0 || reference == 0.0 then 0.0
    else SlippageOf(Walk(levels, target), reference)
  }

  method EstimateSlippageBps(levels: seq<Level>, target: real, reference: real) returns (bps: real)
    ensures bps == Slippage(levels, target, reference)
  {
    if levels == [] || target == 0.0 || reference == 0.0 { return 0.0; }
    var remaining, acquired, spent := target, 0.0, 0.0;
    var i, walking := 0, true;
    while i < |levels| && walking
      invariant i <= |levels|
      invariant var rest := if walking then Walk(levels[i..], remaining) else Fill(0.0, 0.0);
        Plus(Fill(acquired, spent), rest) == Walk(levels, target)
      decreases |levels| - i, walking
    {
      var level := levels[i];
      assert levels[i..][1..] == levels[i + 1..];
      if level.Valid() {
        var consumed := MinR(level.Notional(), remaining);
        acquired := acquired + consumed / level.price;
        spent := spent + consumed;
        remaining := remaining - consumed;
        walking := remaining > 0.0;
      }
      i := i + 1;
    }
    bps := SlippageOf(Fill(acquired, spent), reference);
  }

  // ----- what it spends

  /** Total notional of the levels that count. */
  function Depth(levels: seq<Level>): real {
    if levels == [] then 0.0
    else (if levels[0].Valid() then levels[0].Notional() else 0.0) + Depth(levels[1..])
  }

  lemma {:induction false} DepthNonNegative(levels: seq<Level>)
    ensures Depth(levels) >= 0.0
  {
    if levels != [] { DepthNonNegative(levels[1..]); }
  }

  /** A walk spends the whole target, or everything the book has. */
  lemma {:induction false} SpendsTargetOrDepth(levels: seq<Level>, target: real)
    requires target > 0.0
    ensures Walk(levels, target).notional == MinR(target, Depth(levels))
  {
    if levels != [] {
      DepthNonNegative(levels[1..]);
      if !levels[0].Valid() {
        SpendsTargetOrDepth(levels[1..], target);
      } else if levels[0].Notional() < target {
        SpendsTargetOrDepth(levels[1..], target - levels[0].Notional());
      }
    }
  }

  // ----- where the average lies

  /** Every level the walk consumes from is priced within [lo, hi]. */
  ghost predicate ConsumesWithin(levels: seq<Level>, remaining: real, lo: real, hi: real) {
    levels != [] ==>
      if !levels[0].Valid() then ConsumesWithin(levels[1..], remaining, lo, hi)
      else
        && lo <= levels[0].price <= hi
        && (remaining > levels[0].Notional() ==>
            ConsumesWithin(levels[1..], remaining - levels[0].Notional(), lo, hi))
  }

  /** The average fill lies between the lowest and the highest price consumed. */
  lemma {:induction false} AverageWithinConsumed(levels: seq<Level>, target: real, lo: real, hi: real)
    requires target > 0.0 && 0.0 < lo && ConsumesWithin(levels, target, lo, hi)
    ensures var f := Walk(levels, target);
      && f.quantity >= 0.0
      && (f.quantity == 0.0 <==> Depth(levels) == 0.0)
      && lo * f.quantity <= f.notional <= hi * f.quantity
      && (f.quantity > 0.0 ==> lo <= f.notional / f.quantity <= hi)
  {
    CrossBounds(levels, target, lo, hi);
    var f := Walk(levels, target);
    SpendsTargetOrDepth(levels, target);
    DepthNonNegative(levels);
    AverageBounds(f, lo, hi);
  }

  lemma AverageBounds(f: Fill, lo: real, hi: real)
    requires 0.0 < lo && f.quantity >= 0.0 && lo * f.quantity <= f.notional <= hi * f.quantity
    ensures f.quantity == 0.0 <==> f.notional == 0.0
    ensures f.quantity > 0.0 ==> lo <= f.notional / f.quantity <= hi
  {
    if f.quantity > 0.0 {
      ScaleStrict(0.0, f.quantity, lo);
      QuotientWithin(f.notional, f.quantity, lo, hi);
    }
  }

  lemma QuotientWithin(n: real, q: real, lo: real, hi: real)
    requires q > 0.0 && lo * q <= n <= hi * q
    ensures lo <= n / q <= hi
  {
    assert n / q * q == n;
    Cancel(lo, n / q, q);
    Cancel(n / q, hi, q);
  }

  lemma {:induction false} CrossBounds(levels: seq<Level>, target: real, lo: real, hi: real)
    requires target > 0.0 && 0.0 < lo && ConsumesWithin(levels, target, lo, hi)
    ensures var f := Walk(levels, target);
      f.quantity >= 0.0 && lo * f.quantity <= f.notional <= hi * f.quantity
  {
    if levels != [] {
      if !levels[0].Valid() {
        CrossBounds(levels[1..], target, lo, hi);
      } else {
        var p := levels[0].price;
        var consumed := MinR(levels[0].Notional(), target);
        StepBounds(p, consumed, lo, hi);
        if target - consumed > 0.0 {
          CrossBounds(levels[1..], target - consumed, lo, hi);
          var rest := Walk(levels[1..], target - consumed);
          assert lo * (consumed / p + rest.quantity) == lo * (consumed / p) + lo * rest.quantity;
          assert hi * (consumed / p + rest.quantity) == hi * (consumed / p) + hi * rest.quantity;
        }
      }
    }
  }

  lemma StepBounds(p: real, consumed: real, lo: real, hi: real)
    requires 0.0 < lo <= p <= hi && consumed >= 0.0
    ensures consumed / p >= 0.0
    ensures lo * (consumed / p) <= consumed <= hi * (consumed / p)
  {
    var q := consumed / p;
    assert q * p == consumed;
    assert lo * q <= p * q <= hi * q;
  }

  // ----- monotone in the target

  /** `a` is no better than `b` for the taker: no lower when buying, no higher when selling. */
  ghost predicate NoBetter(buying: bool, a: real, b: real) {
    if buying then a >= b else a <= b
  }

  /** Counting levels are listed from the best price on: asks ascending, bids descending. */
  ghost predicate BestFirst(levels: seq<Level>, buying: bool) {
    forall i, j :: 0 <= i < j < |levels| && levels[i].Valid() && levels[j].Valid() ==>
      NoBetter(buying, levels[j].price, levels[i].price)
  }

  /** Every counting level is priced no better than `p`. */
  ghost predicate AllNoBetter(levels: seq<Level>, buying: bool, p: real) {
    forall i :: 0 <= i < |levels| && levels[i].Valid() ==> NoBetter(buying, levels[i].price, p)
  }

  /** `g` holds at least what `f` does, and what it adds was bought no better than at `p`. */
  ghost predicate Grows(f: Fill, g: Fill, buying: bool, p: real) {
    && 0.0 <= f.quantity <= g.quantity
    && NoBetter(buying, g.notional - f.notional, p * (g.quantity - f.quantity))
    && NoBetter(buying, f.notional, p * f.quantity)
    && NoBetter(buying, g.notional, p * g.quantity)
  }

  /** One counting level either absorbs the whole target or is emptied first. */
  lemma WalkHead(levels: seq<Level>, t: real)
    requires t > 0.0 && levels != [] && levels[0].Valid()
    ensures levels[0].Notional() > 0.0
    ensures t <= levels[0].Notional() ==> Walk(levels, t) == Fill(t / levels[0].price, t)
    ensures t > levels[0].Notional() ==>
      Walk(levels, t) == Plus(Fill(levels[0].quantity, levels[0].Notional()),
                              Walk(levels[1..], t - levels[0].Notional()))
  {
    var p, q := levels[0].price, levels[0].quantity;
    assert p * q / p == q;
  }

  lemma {:induction false} WalkGrows(levels: seq<Level>, t1: real, t2: real, buying: bool, p: real)
    requires 0.0 < t1 <= t2 && p > 0.0 && AllNoBetter(levels, buying, p)
    ensures Grows(Walk(levels, t1), Walk(levels, t2), buying, p)
    decreases |levels|
  {
    if levels != [] {
      var tail := levels[1..];
      assert AllNoBetter(tail, buying, p);
      if !levels[0].Valid() {
        WalkGrows(tail, t1, t2, buying, p);
      } else {
        var price, all := levels[0].price, levels[0].Notional();
        var head := Fill(levels[0].quantity, all);
        WalkHead(levels, t1);
        WalkHead(levels, t2);
        if t2 <= all {
          GrowsInLevel(price, t1, t2, buying, p);
        } else {
          assert all / price == levels[0].quantity;
          GrowsInLevel(price, MinR(t1, all), all, buying, p);
          if t1 <= all {
            WalkGrows(tail, t2 - all, t2 - all, buying, p);
            GrowsByRest(Fill(t1 / price, t1), head, Walk(tail, t2 - all), buying, p);
          } else {
            WalkGrows(tail, t1 - all, t2 - all, buying, p);
            GrowsTogether(head, Walk(tail, t1 - all), Walk(tail, t2 - all), buying, p);
          }
        }
      }
    }
  }

  lemma GrowsInLevel(price: real, t1: real, t2: real, buying: bool, p: real)
    requires price > 0.0 && p > 0.0 && 0.0 < t1 <= t2 && NoBetter(buying, price, p)
    ensures Grows(Fill(t1 / price, t1), Fill(t2 / price, t2), buying, p)
  {
    UnitStep(price, t1, buying, p);
    UnitStep(price, t2, buying, p);
    UnitStep(price, t2 - t1, buying, p);
    assert t2 / price - t1 / price == (t2 - t1) / price;
  }

  lemma GrowsByRest(f: Fill, g: Fill, rest: Fill, buying: bool, p: real)
    requires Grows(f, g, buying, p) && Grows(rest, rest, buying, p)
    ensures Grows(f, Plus(g, rest), buying, p)
  {
    Distribute(p, g.quantity, rest.quantity);
    Distribute(p, g.quantity - f.quantity, rest.quantity);
  }

  lemma GrowsTogether(head: Fill, f: Fill, g: Fill, buying: bool, p: real)
    requires Grows(f, g, buying, p) && Grows(head, head, buying, p)
    ensures Grows(Plus(head, f), Plus(head, g), buying, p)
  {
    Distribute(p, head.quantity, f.quantity);
    Distribute(p, head.quantity, g.quantity);
  }

  lemma UnitStep(price: real, n: real, buying: bool, p: real)
    requires price > 0.0 && p > 0.0 && n >= 0.0 && NoBetter(buying, price, p)
    ensures n / price >= 0.0
    ensures NoBetter(buying, n, p * (n / price))
  {
    var q := n / price;
    assert q * price == n;
    if buying { assert price * q >= p * q; } else { assert price * q <= p * q; }
  }

  /** Cross-multiplied form of "the average of `g` is no better than that of `f`". */
  ghost predicate WorseAverage(f: Fill, g: Fill, buying: bool) {
    NoBetter(buying, g.notional * f.quantity, f.notional * g.quantity)
  }

  lemma {:induction false} AverageWorsens(levels: seq<Level>, t1: real, t2: real, buying: bool)
    requires 0.0 < t1 <= t2 && BestFirst(levels, buying)
    ensures WorseAverage(Walk(levels, t1), Walk(levels, t2), buying)
    decreases |levels|
  {
    if levels != [] {
      var tail := levels[1..];
      assert BestFirst(tail, buying);
      if !levels[0].Valid() {
        AverageWorsens(tail, t1, t2, buying);
      } else {
        assert AllNoBetter(tail, buying, levels[0].price);
        if t2 <= levels[0].Notional() {
          WithinHead(levels, t1, t2, buying);
        } else if t1 <= levels[0].Notional() {
          AcrossHead(levels, t1, t2, buying);
        } else {
          AverageWorsens(tail, t1 - levels[0].Notional(), t2 - levels[0].Notional(), buying);
          BeyondHead(levels, t1, t2, buying);
        }
      }
    }
  }

  lemma WithinHead(levels: seq<Level>, t1: real, t2: real, buying: bool)
    requires levels != [] && levels[0].Valid() && 0.0 < t1 <= t2 <= levels[0].Notional()
    ensures WorseAverage(Walk(levels, t1), Walk(levels, t2), buying)
  {
    WalkHead(levels, t1);
    WalkHead(levels, t2);
    SameLevel(levels[0].price, t1, t2, buying);
  }

  lemma AcrossHead(levels: seq<Level>, t1: real, t2: real, buying: bool)
    requires levels != [] && levels[0].Valid() && 0.0 < t1 <= levels[0].Notional() < t2
    requires AllNoBetter(levels[1..], buying, levels[0].price)
    ensures WorseAverage(Walk(levels, t1), Walk(levels, t2), buying)
  {
    var p, all := levels[0].price, levels[0].Notional();
    WalkHead(levels, t1);
    WalkHead(levels, t2);
    WalkGrows(levels[1..], t2 - all, t2 - all, buying, p);
    Straddle(p, t1, Fill(levels[0].quantity, all), Walk(levels[1..], t2 - all), buying);
  }

  lemma BeyondHead(levels: seq<Level>, t1: real, t2: real, buying: bool)
    requires levels != [] && levels[0].Valid() && levels[0].Notional() < t1 <= t2
    requires AllNoBetter(levels[1..], buying, levels[0].price)
    requires var all := levels[0].Notional();
      WorseAverage(Walk(levels[1..], t1 - all), Walk(levels[1..], t2 - all), buying)
    ensures WorseAverage(Walk(levels, t1), Walk(levels, t2), buying)
  {
    var p, all := levels[0].price, levels[0].Notional();
    WalkHead(levels, t1);
    WalkHead(levels, t2);
    WalkGrows(levels[1..], t1 - all, t2 - all, buying, p);
    Beyond(p, Fill(levels[0].quantity, all), Walk(levels[1..], t1 - all), Walk(levels[1..], t2 - all), buying);
  }

  lemma SameLevel(p: real, t1: real, t2: real, buying: bool)
    requires p > 0.0
    ensures WorseAverage(Fill(t1 / p, t1), Fill(t2 / p, t2), buying)
  {
    var a, b := t1 / p, t2 / p;
    assert t1 == a * p && t2 == b * p;
    assert (b * p) * a == (a * p) * b;
  }

  lemma Straddle(p: real, t1: real, head: Fill, rest: Fill, buying: bool)
    requires p > 0.0 && t1 > 0.0 && head.notional == p * head.quantity
    requires Grows(rest, rest, buying, p)
    ensures WorseAverage(Fill(t1 / p, t1), Plus(head, rest), buying)
  {
    var a, q := t1 / p, head.quantity;
    assert t1 == a * p && a > 0.0;
    assert (p * q + rest.notional) * a == (a * p) * q + rest.notional * a;
    assert (a * p) * (q + rest.quantity) == (a * p) * q + (p * rest.quantity) * a;
    ScaleNoBetter(buying, rest.notional, p * rest.quantity, a);
  }

  lemma Beyond(p: real, head: Fill, f: Fill, g: Fill, buying: bool)
    requires head.quantity > 0.0 && head.notional == p * head.quantity
    requires WorseAverage(f, g, buying) && Grows(f, g, buying, p)
    ensures WorseAverage(Plus(head, f), Plus(head, g), buying)
  {
    var q := head.quantity;
    ScaleNoBetter(buying, g.notional - f.notional, p * (g.quantity - f.quantity), q);
    assert (p * q + g.notional) * (q + f.quantity)
        == p * q * q + (p * q) * f.quantity + g.notional * q + g.notional * f.quantity;
    assert (p * q + f.notional) * (q + g.quantity)
        == p * q * q + (p * q) * g.quantity + f.notional * q + f.notional * g.quantity;
    assert (p * (g.quantity - f.quantity)) * q == (p * q) * g.quantity - (p * q) * f.quantity;
  }

  lemma ScaleNoBetter(buying: bool, a: real, b: real, k: real)
    requires NoBetter(buying, a, b) && k >= 0.0
    ensures NoBetter(buying, a * k, b * k)
  {
  }

  /** Spending more never improves the estimate: it rises along asks and falls along bids. */
  lemma {:induction false} SlippageMonotone(levels: seq<Level>, t1: real, t2: real, reference: real, buying: bool)
    requires 0.0 < t1 <= t2 && reference > 0.0 && BestFirst(levels, buying)
    ensures NoBetter(buying, Slippage(levels, t2, reference), Slippage(levels, t1, reference))
  {
    var f, g := Walk(levels, t1), Walk(levels, t2);
    AverageWorsens(levels, t1, t2, buying);
    FillsTogether(levels, t1, t2);
    if f.quantity > 0.0 {
      var a, b := f.notional / f.quantity, g.notional / g.quantity;
      assert a * f.quantity == f.notional && b * g.quantity == g.notional;
      assert NoBetter(buying, (b * g.quantity) * f.quantity, (a * f.quantity) * g.quantity);
      CancelNoBetter(buying, b, a, f.quantity * g.quantity);
      BpsNoBetter(buying, b, a, reference);
    }
  }

  lemma CancelNoBetter(buying: bool, b: real, a: real, k: real)
    requires k > 0.0 && NoBetter(buying, b * k, a * k)
    ensures NoBetter(buying, b, a)
  {
    if buying { Cancel(a, b, k); } else { Cancel(b, a, k); }
  }

  lemma BpsNoBetter(buying: bool, b: real, a: real, reference: real)
    requires reference > 0.0 && NoBetter(buying, b, a)
    ensures NoBetter(buying, Bps(b, reference), Bps(a, reference))
  {
    var x, y := (b - reference) / reference, (a - reference) / reference;
    assert x * reference == b - reference && y * reference == a - reference;
    CancelNoBetter(buying, x, y, reference);
  }

  /** Either both targets acquire something or neither does. */
  lemma {:induction false} FillsTogether(levels: seq<Level>, t1: real, t2: real)
    requires t1 > 0.0 && t2 > 0.0
    ensures Walk(levels, t1).quantity >= 0.0
    ensures Walk(levels, t1).quantity > 0.0 <==> Depth(levels) > 0.0
    ensures Walk(levels, t2).quantity > 0.0 <==> Depth(levels) > 0.0
  {
    PositiveFill(levels, t1);
    PositiveFill(levels, t2);
  }

  lemma {:induction false} PositiveFill(levels: seq<Level>, target: real)
    requires target > 0.0
    ensures Walk(levels, target).quantity >= 0.0
    ensures Walk(levels, target).quantity > 0.0 <==> Depth(levels) > 0.0
  {
    if levels != [] {
      DepthNonNegative(levels[1..]);
      if !levels[0].Valid() {
        PositiveFill(levels[1..], target);
      } else {
        var consumed := MinR(levels[0].Notional(), target);
        Positive(consumed, levels[0].price);
        if target > consumed { PositiveFill(levels[1..], target - consumed); }
      }
    }
  }

  lemma Positive(n: real, p: real)
    requires n > 0.0 && p > 0.0
    ensures n / p > 0.0
  {
    assert n / p * p == n;
  }

  /** The estimate never falls, from the taker's view, below that of any price no worse than every counting level. */
  lemma SlippageFromPrice(levels: seq<Level>, target: real, price: real, reference: real, buying: bool)
    requires target > 0.0 && price > 0.0 && reference > 0.0 && AllNoBetter(levels, buying, price)
    requires Depth(levels) > 0.0
    ensures NoBetter(buying, Slippage(levels, target, reference), Bps(price, reference))
  {
    var f := Walk(levels, target);
    WalkGrows(levels, target, target, buying, price);
    PositiveFill(levels, target);
    var a := f.notional / f.quantity;
    assert a * f.quantity == f.notional;
    assert NoBetter(buying, a * f.quantity, price * f.quantity);
    CancelNoBetter(buying, a, price, f.quantity);
    BpsNoBetter(buying, a, price, reference);
  }

  /** Against a reference at or inside the best price the estimate is never in the taker's favour. */
  lemma SlippageSign(levels: seq<Level>, target: real, reference: real, buying: bool)
    requires target > 0.0 && reference > 0.0 && AllNoBetter(levels, buying, reference)
    ensures NoBetter(buying, Slippage(levels, target, reference), 0.0)
  {
    PositiveFill(levels, target);
    DepthNonNegative(levels);
    if Depth(levels) > 0.0 { SlippageFromPrice(levels, target, reference, reference, buying); }
  }

  // ----- the call sites

  function Top(levels: seq<Level>): seq<Level> {
    if |levels| > 5 then levels[..5] else levels
  }

  /** `ask or mark_price or mid`, and likewise for the bid. */
  function Reference(touch: real, mark: real, mid: real): real {
    OrElse(OrElse(touch, mark), mid)
  }

  /** What the ticker and the premium index quote; an absent quote is zero. */
  datatype Quotes = Quotes(ask: real, bid: real, mark: real, mid: real) {
    function AskReference(): real { Reference(ask, mark, mid) }
    function BidReference(): real { Reference(bid, mark, mid) }
    predicate NonNegative() { ask >= 0.0 && bid >= 0.0 && mark >= 0.0 && mid >= 0.0 }
  }

  /** The larger of the two estimated slippages of one symbol's context. */
  function WorstSlippage(asks: seq<Level>, bids: seq<Level>, notional: real, q: Quotes): real {
    var buy := Slippage(Top(asks), notional, q.AskReference());
    var sell := AbsR(Slippage(Top(bids), notional, q.BidReference()));
    MaxR(AbsR(buy), AbsR(sell))
  }

  // ----- which quote a probe is measured against

  /** With both touch quotes the mark and the mid do not matter; for an absent one the mark steps in, then the mid. */
  lemma TouchQuotesFirst(asks: seq<Level>, bids: seq<Level>, n: real, q: Quotes, mark: real, mid: real)
    ensures q.ask != 0.0 && q.bid != 0.0 ==>
      WorstSlippage(asks, bids, n, q) == WorstSlippage(asks, bids, n, q.(mark := mark, mid := mid))
    ensures q.mark != 0.0 ==>
      WorstSlippage(asks, bids, n, q.(ask := 0.0)) == WorstSlippage(asks, bids, n, q.(ask := q.mark))
    ensures q.mark != 0.0 ==>
      WorstSlippage(asks, bids, n, q.(bid := 0.0)) == WorstSlippage(asks, bids, n, q.(bid := q.mark))
    ensures q.mark == 0.0 ==>
      WorstSlippage(asks, bids, n, q.(ask := 0.0)) == WorstSlippage(asks, bids, n, q.(ask := q.mid))
    ensures q.mark == 0.0 ==>
      WorstSlippage(asks, bids, n, q.(bid := 0.0)) == WorstSlippage(asks, bids, n, q.(bid := q.mid))
  {
  }

  /** Each side on its own: the other side of the book empty, only its touch quote counts, asks against the ask. */
  lemma EachSideItsQuote(levels: seq<Level>, n: real, q: Quotes, other: real)
    ensures WorstSlippage(levels, [], n, q) == WorstSlippage(levels, [], n, q.(bid := other))
    ensures WorstSlippage([], levels, n, q) == WorstSlippage([], levels, n, q.(ask := other))
  {
  }

  /** A probe that fits the first level of both sides, quoted at their prices, costs nothing. */
  lemma WithinTouchIsFree(asks: seq<Level>, bids: seq<Level>, n: real, q: Quotes)
    requires asks != [] && bids != [] && asks[0].Valid() && bids[0].Valid() && n > 0.0
    requires n <= asks[0].Notional() && n <= bids[0].Notional()
    requires q.ask == asks[0].price && q.bid == bids[0].price
    ensures WorstSlippage(asks, bids, n, q) == 0.0
  {
    FilledAt(Top(asks), n, q.ask);
    FilledAt(Top(bids), n, q.bid);
  }

  lemma FilledAt(levels: seq<Level>, n: real, reference: real)
    requires levels != [] && levels[0].Valid() && 0.0 < n <= levels[0].Notional() && reference != 0.0
    ensures Slippage(levels, n, reference) == (levels[0].price - reference) / reference * 10000.0
  {
    var p := levels[0].price;
    WalkHead(levels, n);
    Positive(n, p);
    var q := n / p;
    assert q * p == n;
    assert n / q == p by {
      assert n / q * q == n;
      CancelEqual(n / q, p, q);
    }
  }

  /** The scale: filled at one price a hundredth above a positive quoted ask, a probe reports 100 basis points. */
  lemma OnePercentIsHundred(level: Level, n: real, q: Quotes)
    requires q.ask > 0.0 && level.price == 1.01 * q.ask && level.quantity > 0.0 && 0.0 < n <= level.Notional()
    ensures WorstSlippage([level], [], n, q) == 100.0
  {
    FilledAt([level], n, q.ask);
    var x := (level.price - q.ask) / q.ask;
    assert x * q.ask == 0.01 * q.ask;
    CancelEqual(x, 0.01, q.ask);
  }

  /** Only the first five levels of a side are walked. */
  lemma SixthLevelIgnored(asks: seq<Level>, more: seq<Level>, bids: seq<Level>, n: real, q: Quotes)
    requires |asks| == 5
    ensures WorstSlippage(asks + more, bids, n, q) == WorstSlippage(asks, bids, n, q)
    ensures WorstSlippage(bids, asks + more, n, q) == WorstSlippage(bids, asks, n, q)
  {
    assert (asks + more)[..5] == asks;
    if more == [] { assert asks + more == asks; }
  }

  // ----- how the worst slippage moves with the probe

  /** The price of the first counting level. */
  function BestPrice(levels: seq<Level>): Option<real> {
    if levels == [] then None
    else if levels[0].Valid() then Some(levels[0].price)
    else BestPrice(levels[1..])
  }

  /** How far the best price of a side is from its reference: nothing without a counting level or a reference. */
  function TouchBps(levels: seq<Level>, reference: real): real {
    if BestPrice(levels).None? || reference == 0.0 then 0.0 else Bps(BestPrice(levels).value, reference)
  }

  /**
   * Whether neither best price is in the taker's favour by more than the other one is against it. A reference beyond
   * the touch, as a quote from another call or the mark price can be, puts the best price in the taker's favour.
   */
  predicate FavourCovered(asks: seq<Level>, bids: seq<Level>, q: Quotes) {
    var buy, sell := TouchBps(Top(asks), q.AskReference()), TouchBps(Top(bids), q.BidReference());
    -buy <= MaxR(0.0, -sell) && sell <= MaxR(0.0, buy)
  }

  lemma {:induction false} BestIsNoBetter(levels: seq<Level>, buying: bool)
    requires BestFirst(levels, buying)
    ensures BestPrice(levels).None? <==> Depth(levels) == 0.0
    ensures Depth(levels) >= 0.0
    ensures BestPrice(levels).Some? ==>
      BestPrice(levels).value > 0.0 && AllNoBetter(levels, buying, BestPrice(levels).value)
  {
    if levels != [] {
      assert BestFirst(levels[1..], buying);
      BestIsNoBetter(levels[1..], buying);
      if levels[0].Valid() { ScaleStrict(0.0, levels[0].price, levels[0].quantity); }
    }
  }

  /** The estimate of one side starts at its best price and only worsens from there. */
  lemma SideWorsens(levels: seq<Level>, n1: real, n2: real, reference: real, buying: bool)
    requires 0.0 < n1 <= n2 && reference >= 0.0 && BestFirst(levels, buying)
    ensures NoBetter(buying, Slippage(levels, n1, reference), TouchBps(levels, reference))
    ensures NoBetter(buying, Slippage(levels, n2, reference), Slippage(levels, n1, reference))
  {
    BestIsNoBetter(levels, buying);
    if reference > 0.0 {
      SlippageMonotone(levels, n1, n2, reference, buying);
      if Depth(levels) > 0.0 {
        SlippageFromPrice(levels, n1, BestPrice(levels).value, reference, buying);
      } else {
        PositiveFill(levels, n1);
      }
    }
  }

  lemma TopBestFirst(levels: seq<Level>, buying: bool)
    requires BestFirst(levels, buying)
    ensures BestFirst(Top(levels), buying)
  {
  }

  /**
   * In a sorted book a larger probe reports at least the slippage of a smaller one, exactly when what the smaller one
   * gains on either side is no more than the larger one reports.
   */
  lemma WorstSlippageMonotoneIff(asks: seq<Level>, bids: seq<Level>, n1: real, n2: real, q: Quotes)
    requires 0.0 < n1 <= n2 && q.NonNegative() && BestFirst(asks, true) && BestFirst(bids, false)
    ensures WorstSlippage(asks, bids, n1, q) <= WorstSlippage(asks, bids, n2, q) <==>
      && -Slippage(Top(asks), n1, q.AskReference()) <= WorstSlippage(asks, bids, n2, q)
      && Slippage(Top(bids), n1, q.BidReference()) <= WorstSlippage(asks, bids, n2, q)
  {
    TopBestFirst(asks, true);
    TopBestFirst(bids, false);
    SideWorsens(Top(asks), n1, n2, q.AskReference(), true);
    SideWorsens(Top(bids), n1, n2, q.BidReference(), false);
  }

  /** Known before any probe: it holds for all probes when neither touch is too far in the taker's favour. */
  lemma WorstSlippageMonotone(asks: seq<Level>, bids: seq<Level>, n1: real, n2: real, q: Quotes)
    requires 0.0 < n1 <= n2 && q.NonNegative() && BestFirst(asks, true) && BestFirst(bids, false)
    requires FavourCovered(asks, bids, q)
    ensures WorstSlippage(asks, bids, n1, q) <= WorstSlippage(asks, bids, n2, q)
  {
    TopBestFirst(asks, true);
    TopBestFirst(bids, false);
    SideWorsens(Top(asks), n1, n2, q.AskReference(), true);
    SideWorsens(Top(bids), n1, n2, q.BidReference(), false);
  }

  /** A concrete book whose quoted ask lies above its best one: probing deeper reports less. */
  lemma QuoteAboveTouchReversesOrder()
    ensures exists asks: seq<Level>, q: Quotes ::
      q.NonNegative() && BestFirst(asks, true) && WorstSlippage(asks, [], 300.0, q) < WorstSlippage(asks, [], 100.0, q)
  {
    var asks, q := [Level(100.0, 1.0), Level(200.0, 1.0)], Quotes(150.0, 0.0, 0.0, 150.0);
    assert asks[1..] == [Level(200.0, 1.0)] && asks[1..][1..] == [];
    WalkHead(asks, 100.0);
    WalkHead(asks, 300.0);
    WalkHead(asks[1..], 200.0);
    assert Walk(asks, 100.0) == Fill(1.0, 100.0);
    assert Walk(asks, 300.0) == Fill(2.0, 300.0);
    assert Slippage(asks, 300.0, 150.0) == 0.0;
    assert Slippage(asks, 100.0, 150.0) < 0.0;
    assert Top(asks) == asks && q.AskReference() == 150.0;
    assert WorstSlippage(asks, [], 300.0, q) == 0.0;
  }
}
