/** Indicators over closing prices and the technical exit score, with their mirror symmetry. */
module TechnicalContext {
  import opened Common

  datatype Candle = Candle(close: real, volume: real)

  datatype Trend = Bullish | Bearish | Neutral

  datatype Cross = BullishCross | BearishCross | AboveSlow | BelowSlow | Level

  /** What the exit score reads of one interval; too few candles give no fields at all. */
  datatype Summary =
    | NotReady
    | Ready(volumeRatio: real, rsi: real, priceChange: real, trend: Trend, cross: Cross)

  const RSI_PERIOD: nat := 14
  const EMA_FAST: nat := 20
  const EMA_SLOW: nat := 50
  const REGIME_EXIT_MIN_SCORE := 0.55

  // ----- exponential moving average

  function Alpha(period: int): real {
    2.0 / ((if period < 1 then 1 else period) as real + 1.0)
  }

  function Ema(values: seq<real>, alpha: real, k: nat): real
    requires k < |values|
  {
    if k == 0 then values[0] else Smoothed(alpha, values[k], Ema(values, alpha, k - 1))
  }

  /** One step of the average. */
  function Smoothed(alpha: real, value: real, average: real): real {
    alpha * value + (1.0 - alpha) * average
  }

  method EmaSeries(values: seq<real>, period: int) returns (out: seq<real>)
    ensures |out| == |values|
    ensures forall k :: 0 <= k < |out| ==> out[k] == Ema(values, Alpha(period), k)
  {
    if values == [] { return []; }
    var alpha := Alpha(period);
    out := [values[0]];
    for i := 1 to |values|
      invariant |out| == i
      invariant forall k :: 0 <= k < i ==> out[k] == Ema(values, alpha, k)
    {
      out := out + [Smoothed(alpha, values[i], out[i - 1])];
    }
  }

  lemma AlphaInUnit(period: int)
    ensures 0.0 < Alpha(period) <= 1.0
  {
  }

  /** For any period, no position of the series leaves the range of the values up to it. */
  lemma EmaWithinRange(values: seq<real>, period: int, k: nat, lo: real, hi: real)
    requires k < |values| && forall i :: 0 <= i <= k ==> lo <= values[i] <= hi
    ensures lo <= Ema(values, Alpha(period), k) <= hi
  {
    AlphaInUnit(period);
    AverageWithinRange(values, Alpha(period), k, lo, hi);
  }

  lemma {:induction false} AverageWithinRange(values: seq<real>, alpha: real, k: nat, lo: real, hi: real)
    requires 0.0 <= alpha <= 1.0
    requires k < |values| && forall i :: 0 <= i <= k ==> lo <= values[i] <= hi
    ensures lo <= Ema(values, alpha, k) <= hi
  {
    if k > 0 {
      AverageWithinRange(values, alpha, k - 1, lo, hi);
      Blend(alpha, values[k], Ema(values, alpha, k - 1), lo, hi);
    }
  }

  lemma Blend(alpha: real, x: real, y: real, lo: real, hi: real)
    requires 0.0 <= alpha <= 1.0 && lo <= x <= hi && lo <= y <= hi
    ensures lo <= Smoothed(alpha, x, y) <= hi
  {
    var r := Smoothed(alpha, x, y);
    assert r - lo == alpha * (x - lo) + (1.0 - alpha) * (y - lo);
    assert hi - r == alpha * (hi - x) + (1.0 - alpha) * (hi - y);
    ProductNonNegative(alpha, x - lo);
    ProductNonNegative(1.0 - alpha, y - lo);
    ProductNonNegative(alpha, hi - x);
    ProductNonNegative(1.0 - alpha, hi - y);
  }

  // ----- relative strength index

  /** Total of the rises among the deltas ending at positions from+1 .. to. */
  function Rises(closes: seq<real>, from: nat, to: nat): real
    requires from <= to < |closes|
  {
    if from == to then 0.0
    else Rises(closes, from, to - 1) + MaxR(closes[to] - closes[to - 1], 0.0)
  }

  function Falls(closes: seq<real>, from: nat, to: nat): real
    requires from <= to < |closes|
  {
    if from == to then 0.0
    else Falls(closes, from, to - 1) + MaxR(-(closes[to] - closes[to - 1]), 0.0)
  }

  /** Reference definition: the share of rises in all movement over the last `period` deltas. */
  function RsiShare(closes: seq<real>, period: nat): real
    requires period > 0
  {
    if |closes| <= period then 50.0
    else
      var last := |closes| - 1;
      var up, down := Rises(closes, last - period, last), Falls(closes, last - period, last);
      if up + down == 0.0 then 50.0 else 100.0 * up / (up + down)
  }

  method RelativeStrength(closes: seq<real>, period: nat) returns (rsi: real)
    requires period > 0
    ensures rsi == RsiShare(closes, period)
  {
    if |closes| <= period { return 50.0; }
    var gains, losses: seq<real> := [], [];
    for idx := 1 to |closes|
      invariant |gains| == |losses| == idx - 1
      invariant forall k :: 0 <= k < idx - 1 ==> gains[k] == MaxR(closes[k + 1] - closes[k], 0.0)
      invariant forall k :: 0 <= k < idx - 1 ==> losses[k] == MaxR(-(closes[k + 1] - closes[k]), 0.0)
    {
      var delta := closes[idx] - closes[idx - 1];
      gains := gains + [MaxR(delta, 0.0)];
      losses := losses + [MaxR(-delta, 0.0)];
    }
    var first := |gains| - period;
    var gain, loss := 0.0, 0.0;
    for k := first to |gains|
      invariant gain == Rises(closes, first, k) && loss == Falls(closes, first, k)
    {
      gain := gain + gains[k];
      loss := loss + losses[k];
    }
    MovementNonNegative(closes, first, |gains|);
    rsi := FromTotals(gain, loss, period);
  }

  method FromTotals(gain: real, loss: real, period: nat) returns (rsi: real)
    requires period > 0 && gain >= 0.0 && loss >= 0.0
    ensures rsi == if gain + loss == 0.0 then 50.0 else 100.0 * gain / (gain + loss)
  {
    var avgGain, avgLoss := gain / period as real, loss / period as real;
    Averages(gain, loss, period as real);
    if avgLoss <= 0.0 { return if avgGain > 0.0 then 100.0 else 50.0; }
    var rs := avgGain / avgLoss;
    rsi := 100.0 - 100.0 / (1.0 + rs);
    RatioForm(gain, loss, period as real);
  }

  lemma {:induction false} MovementNonNegative(closes: seq<real>, from: nat, to: nat)
    requires from <= to < |closes|
    ensures Rises(closes, from, to) >= 0.0 && Falls(closes, from, to) >= 0.0
  {
    if from < to { MovementNonNegative(closes, from, to - 1); }
  }

  lemma Averages(gain: real, loss: real, n: real)
    requires n > 0.0 && gain >= 0.0 && loss >= 0.0
    ensures gain / n > 0.0 <==> gain > 0.0
    ensures loss / n <= 0.0 <==> loss == 0.0
    ensures gain > 0.0 ==> 100.0 * gain / (gain + 0.0) == 100.0
  {
    assert gain / n * n == gain && loss / n * n == loss;
  }

  lemma RatioForm(gain: real, loss: real, n: real)
    requires n > 0.0 && gain >= 0.0 && loss > 0.0 && loss / n > 0.0
    ensures 1.0 + gain / n / (loss / n) > 0.0
    ensures 100.0 - 100.0 / (1.0 + gain / n / (loss / n)) == 100.0 * gain / (gain + loss)
  {
    var g, l := gain / n, loss / n;
    assert g * n == gain && l * n == loss;
    var rs := g / l;
    assert rs * l == g;
    assert rs * loss == gain by { assert rs * (l * n) == (rs * l) * n; }
    assert rs >= 0.0 by { if rs < 0.0 { ProductNegative(rs, loss); } }
    assert (1.0 + rs) * loss == gain + loss;
    Quotients(rs, loss, gain);
  }

  lemma Quotients(rs: real, loss: real, gain: real)
    requires rs >= 0.0 && loss > 0.0 && (1.0 + rs) * loss == gain + loss && gain + loss > 0.0
    ensures 100.0 - 100.0 / (1.0 + rs) == 100.0 * gain / (gain + loss)
  {
    var x, y := 100.0 / (1.0 + rs), 100.0 * gain / (gain + loss);
    assert x * (1.0 + rs) == 100.0;
    assert y * (gain + loss) == 100.0 * gain;
    assert x * (gain + loss) == 100.0 * loss by { assert x * ((1.0 + rs) * loss) == (x * (1.0 + rs)) * loss; }
    assert (x + y) * (gain + loss) == 100.0 * (gain + loss);
    CancelEqual(x + y, 100.0, gain + loss);
  }

  // ----- trend, cross, summary

  function TrendBias(close: real, fast: real, slow: real): Trend {
    if close > fast > slow then Bullish else if close < fast < slow then Bearish else Neutral
  }

  function EmaCross(fastPrev: real, fast: real, slowPrev: real, slow: real): Cross {
    if fastPrev <= slowPrev && fast > slow then BullishCross
    else if fastPrev >= slowPrev && fast < slow then BearishCross
    else if fast > slow then AboveSlow
    else if fast < slow then BelowSlow
    else Level
  }

  function Closes(candles: seq<Candle>): seq<real> {
    seq(|candles|, i requires 0 <= i < |candles| => candles[i].close)
  }

  /** Sum of the volumes from position `from` on. */
  function VolumeSum(candles: seq<Candle>, from: nat): real
    requires from <= |candles|
    decreases |candles| - from
  {
    if from == |candles| then 0.0 else candles[from].volume + VolumeSum(candles, from + 1)
  }

  function VolumeRatio(candles: seq<Candle>): real
    requires candles != []
  {
    var window := if |candles| < 20 then |candles| else 20;
    var average := VolumeSum(candles, |candles| - window) / window as real;
    if average > 0.0 then candles[|candles| - 1].volume / average else 1.0
  }

  function PriceChange(closes: seq<real>): real
    requires |closes| >= 5
  {
    var lookback := if |closes| - 1 < 10 then |closes| - 1 else 10;
    var base := closes[|closes| - 1 - lookback];
    if base > 0.0 then (closes[|closes| - 1] - base) / base else 0.0
  }

  /** What one interval's candles come to, in terms of the reference definitions. */
  function Summarized(candles: seq<Candle>): Summary {
    if |candles| < 5 then NotReady
    else
      var closes := Closes(candles);
      var last := |closes| - 1;
      var fast, slow := Alpha(EMA_FAST), Alpha(EMA_SLOW);
      Ready(
        VolumeRatio(candles),
        RsiShare(closes, RSI_PERIOD),
        PriceChange(closes),
        TrendBias(closes[last], Ema(closes, fast, last), Ema(closes, slow, last)),
        EmaCross(Ema(closes, fast, last - 1), Ema(closes, fast, last),
                 Ema(closes, slow, last - 1), Ema(closes, slow, last)))
  }

  method SummarizeInterval(candles: seq<Candle>) returns (s: Summary)
    ensures s == Summarized(candles)
  {
    if |candles| < 5 { return NotReady; }
    var closes := Closes(candles);
    var fast := EmaSeries(closes, EMA_FAST);
    var slow := EmaSeries(closes, EMA_SLOW);
    var rsi := RelativeStrength(closes, RSI_PERIOD);
    var last := |closes| - 1;
    s := Ready(VolumeRatio(candles), rsi, PriceChange(closes),
               TrendBias(closes[last], fast[last], slow[last]),
               EmaCross(fast[last - 1], fast[last], slow[last - 1], slow[last]));
  }

  // ----- exit score

  datatype Side = Long | Short | Unsided

  /** An interval without fields has no bias at all, which differs from every bias there is. */
  predicate SameBias(primary: Summary, fast: Summary) {
    if primary.NotReady? || fast.NotReady? then primary == fast else primary.trend == fast.trend
  }

  /** The weighted evidence against holding a position, before the floor and the ceiling. */
  function Evidence(side: Side, primary: Summary, fast: Summary): real
    requires primary.Ready?
  {
    var rsi := OrElse(primary.rsi, 50.0);
    var change := if fast.Ready? then fast.priceChange else 0.0;
    var surge := (if fast.Ready? then OrElse(fast.volumeRatio, 1.0) else 1.0) >= 1.25;
    match side
    case Long =>
      (if primary.trend == Bearish then 0.35 else 0.0)
      + (if primary.cross in {BelowSlow, BearishCross} then 0.25 else 0.0)
      + (if rsi < 45.0 then 0.2 else 0.0)
      + (if surge && change < 0.0 then 0.2 else 0.0)
    case Short =>
      (if primary.trend == Bullish then 0.35 else 0.0)
      + (if primary.cross in {AboveSlow, BullishCross} then 0.25 else 0.0)
      + (if rsi > 55.0 then 0.2 else 0.0)
      + (if surge && change > 0.0 then 0.2 else 0.0)
    case Unsided =>
      (if primary.trend != Neutral then 0.2 else 0.0)
      + (if primary.cross in {BullishCross, BearishCross} then 0.25 else 0.0)
  }

  function Bounded(score: real, disagree: bool): real {
    MinR(1.0, if score < REGIME_EXIT_MIN_SCORE && disagree then MaxR(score, 0.45) else score)
  }

  function ExitScore(side: Side, primary: Summary, fast: Summary): real
    requires primary.Ready?
  {
    Bounded(Evidence(side, primary, fast), !SameBias(primary, fast))
  }

  method TechnicalExitScore(side: Side, primary: Summary, fast: Summary) returns (score: real)
    requires primary.Ready?
    ensures score == ExitScore(side, primary, fast)
    ensures 0.0 <= score <= 1.0
  {
    score := 0.0;
    var rsi := OrElse(primary.rsi, 50.0);
    var fastChange := if fast.Ready? then fast.priceChange else 0.0;
    var volumeRatio := if fast.Ready? then OrElse(fast.volumeRatio, 1.0) else 1.0;
    match side {
      case Long =>
        if primary.trend == Bearish { score := score + 0.35; }
        if primary.cross == BelowSlow || primary.cross == BearishCross { score := score + 0.25; }
        if rsi < 45.0 { score := score + 0.2; }
        if volumeRatio >= 1.25 && fastChange < 0.0 { score := score + 0.2; }
      case Short =>
        if primary.trend == Bullish { score := score + 0.35; }
        if primary.cross == AboveSlow || primary.cross == BullishCross { score := score + 0.25; }
        if rsi > 55.0 { score := score + 0.2; }
        if volumeRatio >= 1.25 && fastChange > 0.0 { score := score + 0.2; }
      case Unsided =>
        if primary.trend != Neutral { score := score + 0.2; }
        if primary.cross == BullishCross || primary.cross == BearishCross { score := score + 0.25; }
    }
    if score < REGIME_EXIT_MIN_SCORE && !SameBias(primary, fast) {
      score := MaxR(score, 0.45);
    }
    score := MinR(1.0, score);
  }

  // ----- the mirror

  /** The market upside down: every close p becomes c - p, volumes stay. */
  function Mirror(candles: seq<Candle>, c: real): seq<Candle> {
    seq(|candles|, i requires 0 <= i < |candles| => Candle(c - candles[i].close, candles[i].volume))
  }

  function MirrorTrend(t: Trend): Trend {
    match t case Bullish => Bearish case Bearish => Bullish case Neutral => Neutral
  }

  function MirrorCross(x: Cross): Cross {
    match x
    case BullishCross => BearishCross
    case BearishCross => BullishCross
    case AboveSlow => BelowSlow
    case BelowSlow => AboveSlow
    case Level => Level
  }

  ghost predicate PricedBelow(candles: seq<Candle>, c: real) {
    forall i :: 0 <= i < |candles| ==> 0.0 < candles[i].close < c
  }

  lemma {:induction false} EmaMirror(values: seq<real>, mirrored: seq<real>, alpha: real, c: real, k: nat)
    requires |values| == |mirrored| && k < |values|
    requires forall i :: 0 <= i < |values| ==> mirrored[i] == c - values[i]
    ensures Ema(mirrored, alpha, k) == c - Ema(values, alpha, k)
  {
    if k > 0 {
      EmaMirror(values, mirrored, alpha, c, k - 1);
      var x, y := values[k], Ema(values, alpha, k - 1);
      assert Smoothed(alpha, c - x, c - y) == c - Smoothed(alpha, x, y);
    }
  }

  lemma {:induction false} MovementMirror(values: seq<real>, mirrored: seq<real>, c: real, from: nat, to: nat)
    requires |values| == |mirrored| && from <= to < |values|
    requires forall i :: 0 <= i < |values| ==> mirrored[i] == c - values[i]
    ensures Rises(mirrored, from, to) == Falls(values, from, to)
    ensures Falls(mirrored, from, to) == Rises(values, from, to)
  {
    if from < to { MovementMirror(values, mirrored, c, from, to - 1); }
  }

  lemma RsiMirror(values: seq<real>, mirrored: seq<real>, c: real, period: nat)
    requires |values| == |mirrored| && period > 0
    requires forall i :: 0 <= i < |values| ==> mirrored[i] == c - values[i]
    ensures RsiShare(mirrored, period) == 100.0 - RsiShare(values, period)
  {
    if |values| > period {
      var last := |values| - 1;
      MovementMirror(values, mirrored, c, last - period, last);
      MovementNonNegative(values, last - period, last);
      var up, down := Rises(values, last - period, last), Falls(values, last - period, last);
      if up + down > 0.0 { Complement(up, down); }
    }
  }

  lemma Complement(up: real, down: real)
    requires up + down > 0.0
    ensures 100.0 * down / (down + up) == 100.0 - 100.0 * up / (up + down)
  {
    var x, y := 100.0 * down / (down + up), 100.0 * up / (up + down);
    AddUp(x, y, up + down, 100.0 * down, 100.0 * up);
  }

  /** Two shares of one whole add up to the whole. */
  lemma AddUp(x: real, y: real, all: real, a: real, b: real)
    requires all > 0.0 && x * all == a && y * all == b && a + b == 100.0 * all
    ensures x + y == 100.0
  {
    Distribute(all, x, y);
    CancelEqual(x + y, 100.0, all);
  }

  /** How a summary must change when the market is turned upside down. */
  ghost predicate Mirrored(s: Summary, m: Summary) {
    if s.NotReady? then m.NotReady?
    else
      && m.Ready?
      && m.volumeRatio == s.volumeRatio
      && m.rsi == 100.0 - s.rsi
      && (m.priceChange < 0.0 <==> s.priceChange > 0.0)
      && (m.priceChange > 0.0 <==> s.priceChange < 0.0)
      && m.trend == MirrorTrend(s.trend)
      && m.cross == MirrorCross(s.cross)
  }

  lemma {:induction false} VolumeMirror(candles: seq<Candle>, c: real, from: nat)
    requires from <= |candles|
    ensures VolumeSum(Mirror(candles, c), from) == VolumeSum(candles, from)
    decreases |candles| - from
  {
    if from < |candles| { VolumeMirror(candles, c, from + 1); }
  }

  lemma ChangeSign(last: real, base: real)
    requires base > 0.0
    ensures (last - base) / base > 0.0 <==> last > base
    ensures (last - base) / base < 0.0 <==> last < base
  {
    assert (last - base) / base * base == last - base;
  }

  lemma AveragesMirror(v: seq<real>, m: seq<real>, c: real)
    requires |v| == |m| >= 2 && forall i :: 0 <= i < |v| ==> m[i] == c - v[i]
    ensures var last, fast, slow := |v| - 1, Alpha(EMA_FAST), Alpha(EMA_SLOW);
      && Ema(m, fast, last) == c - Ema(v, fast, last) && Ema(m, fast, last - 1) == c - Ema(v, fast, last - 1)
      && Ema(m, slow, last) == c - Ema(v, slow, last) && Ema(m, slow, last - 1) == c - Ema(v, slow, last - 1)
  {
    EmaMirror(v, m, Alpha(EMA_FAST), c, |v| - 1);
    EmaMirror(v, m, Alpha(EMA_SLOW), c, |v| - 1);
    EmaMirror(v, m, Alpha(EMA_FAST), c, |v| - 2);
    EmaMirror(v, m, Alpha(EMA_SLOW), c, |v| - 2);
  }

  lemma PriceChangeMirror(v: seq<real>, m: seq<real>, c: real)
    requires |v| == |m| >= 5 && forall i :: 0 <= i < |v| ==> m[i] == c - v[i] && 0.0 < v[i] < c
    ensures PriceChange(m) < 0.0 <==> PriceChange(v) > 0.0
    ensures PriceChange(m) > 0.0 <==> PriceChange(v) < 0.0
  {
    var last := |v| - 1;
    var base := last - (if last < 10 then last else 10);
    ChangeSign(v[last], v[base]);
    ChangeSign(m[last], m[base]);
  }

  /** Every indicator of the mirrored candles is the mirror of the original one. */
  lemma SummaryMirror(candles: seq<Candle>, c: real)
    requires PricedBelow(candles, c)
    ensures Mirrored(Summarized(candles), Summarized(Mirror(candles, c)))
  {
    if |candles| >= 5 {
      var v, m := Closes(candles), Closes(Mirror(candles, c));
      AveragesMirror(v, m, c);
      RsiMirror(v, m, c, RSI_PERIOD);
      VolumeMirror(candles, c, |candles| - (if |candles| < 20 then |candles| else 20));
      PriceChangeMirror(v, m, c);
    }
  }

  /** When the two scores can differ: a zero RSI is read as the neutral 50, and nothing hides the lost 0.2. */
  predicate ZeroRsiShows(primary: Summary, fast: Summary)
    requires primary.Ready?
  {
    && primary.rsi == 0.0
    && !(!SameBias(primary, fast) && Evidence(Long, primary, fast) <= 0.25)
  }

  /**
   * Main result: the LONG exit score of a market equals the SHORT exit score of the market upside down,
   * except exactly when the original RSI is zero and the 0.2 this loses is not covered by the 0.45 floor.
   */
  lemma LongScoreMirrorsShort(primary: seq<Candle>, fast: seq<Candle>, c: real)
    requires |primary| >= 5 && PricedBelow(primary, c) && PricedBelow(fast, c)
    ensures
      ExitScore(Long, Summarized(primary), Summarized(fast))
        == ExitScore(Short, Summarized(Mirror(primary, c)), Summarized(Mirror(fast, c)))
      <==> !ZeroRsiShows(Summarized(primary), Summarized(fast))
  {
    SummaryMirror(primary, c);
    SummaryMirror(fast, c);
    ReadyWhenLong(primary);
    ReadyWhenLong(Mirror(primary, c));
    ScoresOfMirror(Summarized(primary), Summarized(fast), Summarized(Mirror(primary, c)), Summarized(Mirror(fast, c)));
  }

  lemma ReadyWhenLong(candles: seq<Candle>)
    ensures Summarized(candles).Ready? <==> |candles| >= 5
  {
  }

  lemma ScoresOfMirror(p: Summary, f: Summary, p': Summary, f': Summary)
    requires p.Ready? && Mirrored(p, p') && Mirrored(f, f')
    ensures ExitScore(Long, p, f) == ExitScore(Short, p', f') <==> !ZeroRsiShows(p, f)
    ensures ExitScore(Unsided, p, f) == ExitScore(Unsided, p', f')
  {
    assert SameBias(p', f') == SameBias(p, f);
    if p.rsi == 0.0 {
      assert Evidence(Short, p', f') == Evidence(Long, p, f) + 0.2;
    } else {
      assert Evidence(Short, p', f') == Evidence(Long, p, f);
    }
  }

  /** The other direction, by mirroring the mirror: here it is an RSI of exactly 100 that can break the match. */
  lemma ShortScoreMirrorsLong(primary: seq<Candle>, fast: seq<Candle>, c: real)
    requires |primary| >= 5 && PricedBelow(primary, c) && PricedBelow(fast, c)
    ensures
      ExitScore(Short, Summarized(primary), Summarized(fast))
        == ExitScore(Long, Summarized(Mirror(primary, c)), Summarized(Mirror(fast, c)))
      <==> !ZeroRsiShows(Summarized(Mirror(primary, c)), Summarized(Mirror(fast, c)))
  {
    MirrorTwice(primary, c);
    MirrorTwice(fast, c);
    LongScoreMirrorsShort(Mirror(primary, c), Mirror(fast, c), c);
  }

  /** Without a position side the score does not see the mirror at all. */
  lemma UnsidedScoreMirrors(primary: seq<Candle>, fast: seq<Candle>, c: real)
    requires |primary| >= 5 && PricedBelow(primary, c) && PricedBelow(fast, c)
    ensures ExitScore(Unsided, Summarized(primary), Summarized(fast))
         == ExitScore(Unsided, Summarized(Mirror(primary, c)), Summarized(Mirror(fast, c)))
  {
    SummaryMirror(primary, c);
    SummaryMirror(fast, c);
    ReadyWhenLong(primary);
    ReadyWhenLong(Mirror(primary, c));
    ScoresOfMirror(Summarized(primary), Summarized(fast), Summarized(Mirror(primary, c)), Summarized(Mirror(fast, c)));
  }

  /** RSI stays within 0..100, and is zero exactly when its window holds falls and no rise. */
  lemma RsiZeroMeansOnlyFalls(closes: seq<real>, period: nat)
    requires 0 < period
    ensures 0.0 <= RsiShare(closes, period) <= 100.0
    ensures RsiShare(closes, period) == 0.0 <==>
      && |closes| > period
      && var last := |closes| - 1;
         Rises(closes, last - period, last) == 0.0 && Falls(closes, last - period, last) > 0.0
  {
    if |closes| > period {
      var last := |closes| - 1;
      MovementNonNegative(closes, last - period, last);
      var up, down := Rises(closes, last - period, last), Falls(closes, last - period, last);
      if up + down > 0.0 { Share(up, down); }
    }
  }

  lemma Share(up: real, down: real)
    requires up >= 0.0 && down >= 0.0 && up + down > 0.0
    ensures 0.0 <= 100.0 * up / (up + down) <= 100.0
    ensures 100.0 * up / (up + down) == 0.0 <==> up == 0.0
  {
    assert 100.0 * up / (up + down) * (up + down) == 100.0 * up;
  }

  // ----- what the exit score responds to

  function TrendRank(t: Trend): int {
    match t case Bullish => 1 case Neutral => 0 case Bearish => -1
  }

  /** Which average is on top. */
  function CrossRank(x: Cross): int {
    match x
    case BullishCross => 1
    case AboveSlow => 1
    case Level => 0
    case BelowSlow => -1
    case BearishCross => -1
  }

  /** From `a` to `b` a figure moved against a position of the side: down for a long one, up for a short one. */
  predicate Against(side: Side, a: real, b: real) {
    match side case Long => b <= a case Short => a <= b case Unsided => true
  }

  /** `q` and `g` are worse for the side than `p` and `f` in every respect, on no less volume. */
  predicate Adverse(side: Side, p: Summary, f: Summary, q: Summary, g: Summary) {
    && p.Ready? && q.Ready? && f.Ready? && g.Ready?
    && Against(side, TrendRank(p.trend) as real, TrendRank(q.trend) as real)
    && Against(side, CrossRank(p.cross) as real, CrossRank(q.cross) as real)
    && p.rsi != 0.0 && q.rsi != 0.0 && Against(side, p.rsi, q.rsi)
    && Against(side, f.priceChange, g.priceChange)
    && 0.0 < f.volumeRatio <= g.volumeRatio
  }

  /** The trend or the order of the averages is against the side, and a second signal is with it. */
  predicate Confirmed(side: Side, p: Summary, f: Summary)
    requires side != Unsided && p.Ready? && f.Ready?
  {
    var trend := p.trend == if side == Long then Bearish else Bullish;
    var cross := p.cross in if side == Long then {BelowSlow, BearishCross} else {AboveSlow, BullishCross};
    var strength := if side == Long then p.rsi < 45.0 else p.rsi > 55.0;
    var surge := f.volumeRatio >= 1.25 && if side == Long then f.priceChange < 0.0 else f.priceChange > 0.0;
    (trend && (cross || strength || surge)) || (cross && (strength || surge))
  }

  /**
   * Worse indicators never lower the exit score, except exactly when they take away the disagreement of the two
   * intervals, and with it the floor of 0.45, without confirming each other.
   */
  lemma AdverseNeverLowersIff(side: Side, p: Summary, f: Summary, q: Summary, g: Summary)
    requires side != Unsided && Adverse(side, p, f, q, g)
    ensures ExitScore(side, p, f) <= ExitScore(side, q, g) <==>
      p.trend == f.trend || q.trend != g.trend || Confirmed(side, q, g)
  {
  }

  /** In particular while both trends stay, whatever else turns against the position. */
  lemma AdverseNeverLowers(side: Side, p: Summary, f: Summary, q: Summary, g: Summary)
    requires side != Unsided && Adverse(side, p, f, q, g) && p.trend == q.trend && f.trend == g.trend
    ensures ExitScore(side, p, f) <= ExitScore(side, q, g)
  {
    AdverseNeverLowersIff(side, p, f, q, g);
  }

  /** A concrete case of the exception: the bearish trend that replaces a bullish one agrees with the fast interval. */
  lemma AgreementLowersScore()
    ensures exists p: Summary, q: Summary, f: Summary ::
      Adverse(Long, p, f, q, f) && ExitScore(Long, q, f) < ExitScore(Long, p, f)
  {
    var f := Ready(1.0, 50.0, 0.0, Bearish, Level);
    var p, q := f.(trend := Bullish), f;
    assert Adverse(Long, p, f, q, f);
    assert ExitScore(Long, p, f) == 0.45 && ExitScore(Long, q, f) == 0.35;
  }

  /** The same interval with a trend. */
  function Trending(s: Summary, t: Trend): Summary
    requires s.Ready?
  {
    s.(trend := t)
  }

  /** What each signal against a long position weighs while the two intervals agree. */
  lemma LongWeights(p: Summary, f: Summary, low: real, high: real)
    requires p.Ready? && f.Ready? && p.trend == f.trend && 0.0 < low < 45.0 <= high
    ensures ExitScore(Long, Trending(p, Bearish), Trending(f, Bearish))
         == ExitScore(Long, Trending(p, Neutral), Trending(f, Neutral)) + 0.35
    ensures ExitScore(Long, Trending(p, Bullish), Trending(f, Bullish))
         == ExitScore(Long, Trending(p, Neutral), Trending(f, Neutral))
    ensures forall x :: x in {BelowSlow, BearishCross} ==>
      ExitScore(Long, p.(cross := x), f) == ExitScore(Long, p.(cross := Level), f) + 0.25
    ensures forall x :: x in {AboveSlow, BullishCross} ==>
      ExitScore(Long, p.(cross := x), f) == ExitScore(Long, p.(cross := Level), f)
    ensures ExitScore(Long, p.(rsi := low), f) == ExitScore(Long, p.(rsi := high), f) + 0.2
    ensures ExitScore(Long, p.(rsi := 0.0), f) == ExitScore(Long, p.(rsi := high), f)
    ensures ExitScore(Long, Ready(p.volumeRatio, high, p.priceChange, Neutral, Level),
                      Ready(1.0, f.rsi, f.priceChange, Neutral, f.cross)) == 0.0
  {
  }

  /** The same for a short position. */
  lemma ShortWeights(p: Summary, f: Summary, low: real, high: real)
    requires p.Ready? && f.Ready? && p.trend == f.trend && 0.0 < low <= 55.0 < high
    ensures ExitScore(Short, Trending(p, Bullish), Trending(f, Bullish))
         == ExitScore(Short, Trending(p, Neutral), Trending(f, Neutral)) + 0.35
    ensures ExitScore(Short, Trending(p, Bearish), Trending(f, Bearish))
         == ExitScore(Short, Trending(p, Neutral), Trending(f, Neutral))
    ensures forall x :: x in {AboveSlow, BullishCross} ==>
      ExitScore(Short, p.(cross := x), f) == ExitScore(Short, p.(cross := Level), f) + 0.25
    ensures forall x :: x in {BelowSlow, BearishCross} ==>
      ExitScore(Short, p.(cross := x), f) == ExitScore(Short, p.(cross := Level), f)
    ensures ExitScore(Short, p.(rsi := high), f) == ExitScore(Short, p.(rsi := low), f) + 0.2
    ensures ExitScore(Short, Ready(p.volumeRatio, low, p.priceChange, Neutral, Level),
                      Ready(1.0, f.rsi, f.priceChange, Neutral, f.cross)) == 0.0
  {
  }

  /** Without a side a trend and a fresh cross weigh, either way, and nothing else does. */
  lemma UnsidedWeights(p: Summary, f: Summary)
    requires p.Ready? && f.Ready? && p.trend == f.trend
    ensures ExitScore(Unsided, p, f) ==
      (if p.trend in {Bullish, Bearish} then 0.2 else 0.0)
      + (if p.cross in {BullishCross, BearishCross} then 0.25 else 0.0)
  {
  }

  /** Disagreement lifts a score below 0.55 to at least 0.45; an interval that is not ready always disagrees. */
  lemma DisagreementFloors(side: Side, p: Summary, f: Summary)
    requires p.Ready? && f.Ready?
    ensures var agreeing := ExitScore(side, p, f.(trend := p.trend));
      f.trend != p.trend ==> ExitScore(side, p, f) == if agreeing < 0.55 then MaxR(agreeing, 0.45) else agreeing
    ensures var other := if p.trend == Neutral then Bullish else Neutral;
      ExitScore(side, p, NotReady) == ExitScore(side, p, Ready(1.0, 50.0, 0.0, other, Level))
  {
  }

  // ----- the surge, on candles

  /** The close that the price change of an interval is measured from. */
  function LookbackClose(candles: seq<Candle>): real
    requires |candles| >= 5
  {
    if |candles| <= 10 then candles[0].close else candles[|candles| - 11].close
  }

  /** The last volume is at least a quarter above the mean of up to twenty, where there is volume at all. */
  predicate Surging(candles: seq<Candle>)
    requires |candles| >= 5
  {
    var n := if |candles| < 20 then |candles| else 20;
    var total := VolumeSum(candles, |candles| - n);
    total > 0.0 && candles[|candles| - 1].volume * n as real >= 1.25 * total
  }

  /** What `Surging` adds up, for a window of one even volume before the last candle. */
  lemma {:induction false} EvenVolumes(candles: seq<Candle>, from: nat, volume: real)
    requires from < |candles| && forall i :: from <= i < |candles| - 1 ==> candles[i].volume == volume
    ensures VolumeSum(candles, from) == (|candles| - 1 - from) as real * volume + candles[|candles| - 1].volume
    decreases |candles| - from
  {
    if from < |candles| - 1 { EvenVolumes(candles, from + 1, volume); }
  }

  /** The last close is on the losing side of the close it is measured from, if that is a price. */
  predicate Losing(side: Side, candles: seq<Candle>)
    requires |candles| >= 5
  {
    var now, base := candles[|candles| - 1].close, LookbackClose(candles);
    base > 0.0 && match side case Long => now < base case Short => now > base case Unsided => false
  }

  lemma SurgeRead(candles: seq<Candle>)
    requires |candles| >= 5
    ensures var f, close, base := Summarized(candles), candles[|candles| - 1].close, LookbackClose(candles);
      && f.Ready?
      && (f.priceChange < 0.0 <==> base > 0.0 && close < base)
      && (f.priceChange > 0.0 <==> base > 0.0 && close > base)
      && (Surging(candles) <==> OrElse(f.volumeRatio, 1.0) >= 1.25)
  {
    if LookbackClose(candles) > 0.0 { ChangeSign(candles[|candles| - 1].close, LookbackClose(candles)); }
    var n := if |candles| < 20 then |candles| else 20;
    RatioAtLeast(candles[|candles| - 1].volume, VolumeSum(candles, |candles| - n), n as real);
  }

  lemma RatioAtLeast(volume: real, total: real, n: real)
    requires n > 0.0
    ensures total > 0.0 <==> total / n > 0.0
    ensures total > 0.0 ==> (volume / (total / n) >= 1.25 <==> volume * n >= 1.25 * total)
  {
    var mean := total / n;
    assert mean * n == total;
    if total > 0.0 {
      assert mean > 0.0 by { if mean <= 0.0 { Scale(mean, 0.0, n); } }
      var ratio := volume / mean;
      assert ratio * mean == volume;
      assert ratio * total == volume * n by { assert ratio * (mean * n) == (ratio * mean) * n; }
      if ratio >= 1.25 {
        Scale(1.25, ratio, total);
      } else {
        ScaleStrict(ratio, 1.25, total);
      }
    } else if mean > 0.0 {
      ScaleStrict(0.0, mean, n);
    }
  }

  /** Volume moving against the position adds exactly 0.2 over the same primary with a fast interval that does not. */
  lemma SurgeAddsWeight(side: Side, primary: seq<Candle>, against: seq<Candle>, other: seq<Candle>)
    requires |primary| >= 5 && |against| >= 5 && |other| >= 5 && side != Unsided
    requires Summarized(primary).trend == Summarized(against).trend == Summarized(other).trend
    requires Surging(against)
    requires Losing(side, against) && (!Surging(other) || !Losing(side, other))
    ensures ExitScore(side, Summarized(primary), Summarized(against))
         == ExitScore(side, Summarized(primary), Summarized(other)) + 0.2
  {
    SurgeRead(against);
    SurgeRead(other);
  }

  // ----- crosses over time

  predicate Above(s: Summary)
    requires s.Ready?
  {
    s.cross in {AboveSlow, BullishCross}
  }

  predicate Below(s: Summary)
    requires s.Ready?
  {
    s.cross in {BelowSlow, BearishCross}
  }

  lemma {:induction false} EmaPrefix(values: seq<real>, n: nat, alpha: real, k: nat)
    requires k < n <= |values|
    ensures Ema(values[..n], alpha, k) == Ema(values, alpha, k)
  {
    if k > 0 { EmaPrefix(values, n, alpha, k - 1); }
  }

  /** Trend and cross by the order of the last close and the two averages. */
  lemma OrderOfAverages(candles: seq<Candle>)
    requires |candles| >= 5
    ensures var s, last := Summarized(candles), |candles| - 1;
      var close := candles[last].close;
      var quick, slow := Ema(Closes(candles), 2.0 / 21.0, last), Ema(Closes(candles), 2.0 / 51.0, last);
      && (s.trend == Bullish <==> close > quick && quick > slow)
      && (s.trend == Bearish <==> close < quick && quick < slow)
      && (Above(s) <==> quick > slow) && (Below(s) <==> quick < slow)
  {
  }

  /** A cross is reported exactly at the candle at which the faster average changes sides. */
  lemma CrossReportsChange(candles: seq<Candle>)
    requires |candles| >= 6
    ensures var now, before := Summarized(candles), Summarized(candles[..|candles| - 1]);
      && (now.cross == BullishCross <==> Above(now) && !Above(before))
      && (now.cross == BearishCross <==> Below(now) && !Below(before))
  {
    var values, n := Closes(candles), |candles| - 1;
    assert Closes(candles[..n]) == values[..n];
    EmaPrefix(values, n, Alpha(EMA_FAST), n - 1);
    EmaPrefix(values, n, Alpha(EMA_SLOW), n - 1);
  }

  /** The first step of an average closes two parts of the gap out of `period + 1`, all of it for no period. */
  lemma AlphaIsTwoParts(period: int)
    ensures var first := Ema([0.0, 1.0], Alpha(period), 1);
      if period >= 1 then first * (period + 1) as real == 2.0 else first == 1.0
  {
  }

  // ----- markets that only fall

  ghost predicate Falling(closes: seq<real>) {
    forall i, j :: 0 <= i < j < |closes| ==> closes[j] < closes[i]
  }

  lemma {:induction false} FallingMovement(closes: seq<real>, from: nat, to: nat)
    requires Falling(closes) && from <= to < |closes|
    ensures Rises(closes, from, to) == 0.0 && (from < to ==> Falls(closes, from, to) > 0.0)
  {
    if from < to { FallingMovement(closes, from, to - 1); }
  }

  /** Behind falling prices the slower average stays above the faster one, and both above the price. */
  lemma {:induction false} FallingAverages(closes: seq<real>, quick: real, slow: real, k: nat)
    requires Falling(closes) && 0.0 < slow < quick < 1.0 && k < |closes|
    ensures closes[k] <= Ema(closes, quick, k) <= Ema(closes, slow, k)
    ensures k > 0 ==> closes[k] < Ema(closes, quick, k) < Ema(closes, slow, k)
  {
    if k > 0 {
      FallingAverages(closes, quick, slow, k - 1);
      Lagging(closes[k], Ema(closes, quick, k - 1), Ema(closes, slow, k - 1), quick, slow);
    }
  }

  /** One step of two averages below which the price falls. */
  lemma Lagging(price: real, e: real, f: real, quick: real, slow: real)
    requires price < e <= f && 0.0 < slow < quick < 1.0
    ensures price < Smoothed(quick, price, e) < Smoothed(slow, price, f)
  {
    var x, y := Smoothed(quick, price, e), Smoothed(slow, price, f);
    assert x - price == (1.0 - quick) * (e - price);
    assert y - x == (1.0 - slow) * (f - e) + (quick - slow) * (e - price);
    ScaleStrict(0.0, 1.0 - quick, e - price);
    ScaleStrict(0.0, quick - slow, e - price);
    ProductNonNegative(1.0 - slow, f - e);
  }

  lemma FallingSummary(candles: seq<Candle>)
    requires |candles| > 14 && Falling(Closes(candles))
    ensures var s := Summarized(candles);
      s.Ready? && s.rsi == 0.0 && s.trend == Bearish && s.cross in {BelowSlow, BearishCross}
  {
    var closes, last := Closes(candles), |candles| - 1;
    FallingMovement(closes, last - RSI_PERIOD, last);
    RsiZeroMeansOnlyFalls(closes, RSI_PERIOD);
    FallingAverages(closes, Alpha(EMA_FAST), Alpha(EMA_SLOW), last);
  }

  /** Fifteen candles make an RSI: up to fourteen it is the neutral 50. */
  lemma RsiNeedsFifteen(candles: seq<Candle>)
    requires 5 <= |candles| <= 14
    ensures Summarized(candles).rsi == 50.0
  {
  }

  /**
   * Every market of more than 14 candles that only falls breaks the mirror, whatever the fast interval does: its RSI of
   * 0 hides the weakness from the LONG score but not from the SHORT score of the market upside down.
   */
  lemma FallingMarketBreaksMirror(primary: seq<Candle>, fast: seq<Candle>, c: real)
    requires |primary| > 14 && Falling(Closes(primary)) && PricedBelow(primary, c) && PricedBelow(fast, c)
    ensures ExitScore(Long, Summarized(primary), Summarized(fast))
          < ExitScore(Short, Summarized(Mirror(primary, c)), Summarized(Mirror(fast, c)))
  {
    FallingSummary(primary);
    SummaryMirror(primary, c);
    SummaryMirror(fast, c);
    FallingScores(Summarized(primary), Summarized(fast), Summarized(Mirror(primary, c)), Summarized(Mirror(fast, c)));
  }

  lemma FallingScores(p: Summary, f: Summary, p': Summary, f': Summary)
    requires p.Ready? && Mirrored(p, p') && Mirrored(f, f')
    requires p.rsi == 0.0 && p.trend == Bearish && p.cross in {BelowSlow, BearishCross}
    ensures ExitScore(Long, p, f) < ExitScore(Short, p', f')
  {
    assert Evidence(Short, p', f') == Evidence(Long, p, f) + 0.2;
    assert 0.6 <= Evidence(Long, p, f) <= 0.8;
  }

  /** Turning the market upside down twice gives the market back, and keeps prices within bounds. */
  lemma MirrorTwice(candles: seq<Candle>, c: real)
    ensures Mirror(Mirror(candles, c), c) == candles
    ensures PricedBelow(candles, c) ==> PricedBelow(Mirror(candles, c), c)
  {
    forall i | 0 <= i < |candles| ensures Mirror(Mirror(candles, c), c)[i] == candles[i] {
      assert Mirror(candles, c)[i].close == c - candles[i].close;
    }
  }
}
