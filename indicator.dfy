/**
  * The order-flow indicators of `IndicatorService`: one record of price,
  * volume, trade and order-book metrics per snapshot window, every division
  * guarded, plus a divergence flag between book imbalance and price
  * momentum.
  */
module OrderFlowIndicators {
  import opened Util
  import opened MarketSnapshot

  /**
    * A JS number that may have overflowed to an infinity. Only
    * `orderFlowPressure` can be infinite; its NaN case is mapped to 0 by the
    * source's `|| 0`.
    */
  datatype ExtReal = Fin(r: real) | PosInf | NegInf

  datatype IndicatorResult = IndicatorResult(
    timeframe: string,
    priceChange: real,
    priceMomentum: real,
    priceVolatility: real,
    avgVolume: real,
    volumeDelta: real,
    volumeImbalance: real,
    maxTradeSize: real,
    aggressiveVolumeRatio: real,
    depthImbalance: real,
    spreadAvg: real,
    orderFlowPressure: ExtReal,
    obVolatility: real,
    wallDetectionScore: real,
    slope: real,
    acceleration: real,
    earlyReversal: nat)

  /** The tags of the eight windows, in the order they are combined. */
  const Tags: seq<string> := ["1s", "5s", "15s", "30s", "1m", "3m", "5m", "15m"]

  /** `avg`: the arithmetic mean, 0 for an empty list. */
  function Avg(xs: seq<real>): (m: real)
    ensures |xs| == 0 ==> m == 0.0
  {
    if |xs| > 0 then Sum(xs) / |xs| as real else 0.0
  }

  /** `stddev`: the population standard deviation; `sqrt` stands for `Math.sqrt`. */
  function Stddev(xs: seq<real>, sqrt: real -> real): real
  {
    var mean := Avg(xs);
    sqrt(Avg(seq(|xs|, i requires 0 <= i < |xs| => (xs[i] - mean) * (xs[i] - mean))))
  }

  // ---------------------------------------------------------------------------
  // linearSlope
  // ---------------------------------------------------------------------------

  /** The x values `0, 1, …, n-1` of the regression. */
  function Indices(n: nat): (x: seq<real>)
    ensures |x| == n && forall i | 0 <= i < n :: x[i] == i as real
  {
    seq(n, i requires 0 <= i < n => i as real)
  }

  /** The numerator fold `Σ (x_i - meanX) * (y_i - meanY)` over the first k points. */
  function CrossSum(values: seq<real>, meanX: real, meanY: real, k: nat): real
    requires k <= |values|
  {
    if k == 0 then 0.0
    else CrossSum(values, meanX, meanY, k - 1) + ((k - 1) as real - meanX) * (values[k - 1] - meanY)
  }

  /** The denominator fold `Σ (x_i - meanX)^2` over the first k points. */
  function SquareSum(meanX: real, k: nat): real
  {
    if k == 0 then 0.0
    else SquareSum(meanX, k - 1) + ((k - 1) as real - meanX) * ((k - 1) as real - meanX)
  }

  /** `linearSlope`: the least-squares slope of the values against their indices, 0 when undefined. */
  function LinearSlope(values: seq<real>): (b: real)
    ensures |values| < 2 ==> b == 0.0
  {
    var n := |values|;
    if n < 2 then 0.0
    else
      var meanX := Avg(Indices(n));
      var meanY := Avg(values);
      Ratio(CrossSum(values, meanX, meanY, n), SquareSum(meanX, n))
  }

  /** `den !== 0 ? num / den : 0` */
  function Ratio(num: real, den: real): real
  {
    if den != 0.0 then num / den else 0.0
  }

  lemma {:induction false} SumOfLine(values: seq<real>, a: real, b: real)
    requires forall i | 0 <= i < |values| :: values[i] == a + b * i as real
    ensures Sum(values) == |values| as real * a + b * Sum(Indices(|values|))
  {
    if |values| > 0 {
      var n := |values|;
      SumOfLine(values[..n - 1], a, b);
      assert Indices(n)[..n - 1] == Indices(n - 1);
    }
  }

  lemma {:induction false} CrossSumOfLine(values: seq<real>, a: real, b: real, meanX: real, meanY: real, k: nat)
    requires k <= |values|
    requires forall i | 0 <= i < |values| :: values[i] == a + b * i as real
    requires meanY == a + b * meanX
    ensures CrossSum(values, meanX, meanY, k) == b * SquareSum(meanX, k)
  {
    if k > 0 {
      CrossSumOfLine(values, a, b, meanX, meanY, k - 1);
      var d := (k - 1) as real - meanX;
      assert values[k - 1] - meanY == b * d;
      assert d * (b * d) == b * (d * d);
    }
  }

  lemma {:induction false} SquareSumMonotone(meanX: real, k: nat)
    ensures SquareSum(meanX, k) >= 0.0
    ensures k >= 2 ==> SquareSum(meanX, k) >= SquareSum(meanX, 2)
  {
    if k > 0 {
      SquareSumMonotone(meanX, k - 1);
      var d := (k - 1) as real - meanX;
      assert d * d >= 0.0;
    }
  }

  /** The squared deviations of two or more distinct x values do not sum to 0. */
  lemma SquareSumPositive(meanX: real, k: nat)
    requires k >= 2
    ensures SquareSum(meanX, k) > 0.0
  {
    SquareSumMonotone(meanX, k);
    var d0, d1 := 0.0 - meanX, 1.0 - meanX;
    assert SquareSum(meanX, 1) == d0 * d0;
    assert SquareSum(meanX, 2) == d0 * d0 + d1 * d1;
    assert d1 * d1 >= 0.0;
    if meanX == 0.0 {
      assert d1 * d1 == 1.0;
    } else {
      assert d0 * d0 > 0.0;
    }
  }

  /** The mean of points on a line is the line at the mean index. */
  lemma MeanOfLine(values: seq<real>, a: real, b: real)
    requires |values| > 0
    requires forall i | 0 <= i < |values| :: values[i] == a + b * i as real
    ensures Avg(values) == a + b * Avg(Indices(|values|))
  {
    SumOfLine(values, a, b);
    var nr := |values| as real;
    var s := Sum(Indices(|values|));
    assert (nr * a + b * s) / nr == a + b * (s / nr);
  }

  /** On points of a line `a + b*i` the regression recovers the line's slope. */
  lemma LinearSlopeOfLine(values: seq<real>, a: real, b: real)
    requires |values| >= 2
    requires forall i | 0 <= i < |values| :: values[i] == a + b * i as real
    ensures LinearSlope(values) == b
  {
    var n := |values|;
    var meanX, meanY := Avg(Indices(n)), Avg(values);
    MeanOfLine(values, a, b);
    CrossSumOfLine(values, a, b, meanX, meanY, n);
    SquareSumPositive(meanX, n);
    RatioOfMultiple(CrossSum(values, meanX, meanY, n), SquareSum(meanX, n), b);
  }

  lemma RatioOfMultiple(num: real, den: real, b: real)
    requires den != 0.0 && num == b * den
    ensures Ratio(num, den) == b
  {
  }

  // ---------------------------------------------------------------------------
  // calc
  // ---------------------------------------------------------------------------

  /** `snaps.flatMap(s => s.volume?.recentTrades || [])` */
  function Trades(snaps: seq<Snapshot>): seq<Trade>
  {
    if |snaps| == 0 then [] else Trades(snaps[..|snaps| - 1]) + snaps[|snaps| - 1].volume.recentTrades
  }

  /** `Math.max(...sizes, 0)`: the largest trade size, and never below 0. */
  function MaxTradeSize(trades: seq<Trade>): (m: real)
    ensures m >= 0.0
    ensures forall i | 0 <= i < |trades| :: trades[i].size <= m
    ensures m == 0.0 || exists i | 0 <= i < |trades| :: trades[i].size == m
  {
    if |trades| == 0 then 0.0
    else
      var m := MaxTradeSize(trades[..|trades| - 1]);
      if trades[|trades| - 1].size > m then trades[|trades| - 1].size else m
  }

  /** `trades.filter(t => t.size > threshold).length` */
  function CountAbove(trades: seq<Trade>, threshold: real): (c: nat)
    ensures c <= |trades|
  {
    if |trades| == 0 then 0
    else CountAbove(trades[..|trades| - 1], threshold) + (if trades[|trades| - 1].size > threshold then 1 else 0)
  }

  function TotalSizes(snaps: seq<Snapshot>): seq<real>
  {
    seq(|snaps|, i requires 0 <= i < |snaps| => snaps[i].volume.totalSize)
  }

  function BuySizes(snaps: seq<Snapshot>): seq<real>
  {
    seq(|snaps|, i requires 0 <= i < |snaps| => snaps[i].volume.buySize)
  }

  function SellSizes(snaps: seq<Snapshot>): seq<real>
  {
    seq(|snaps|, i requires 0 <= i < |snaps| => snaps[i].volume.sellSize)
  }

  function BuyDepths(snaps: seq<Snapshot>): seq<real>
  {
    seq(|snaps|, i requires 0 <= i < |snaps| => snaps[i].orderBook.buyDepth)
  }

  function SellDepths(snaps: seq<Snapshot>): seq<real>
  {
    seq(|snaps|, i requires 0 <= i < |snaps| => snaps[i].orderBook.sellDepth)
  }

  /** `s.orderBook?.spread || 0`: an absent spread counts as 0. */
  function Spreads(snaps: seq<Snapshot>): seq<real>
  {
    seq(|snaps|, i requires 0 <= i < |snaps| =>
      var sp := snaps[i].orderBook.spread; if sp.Some? then sp.value else 0.0)
  }

  /** `x?.size || 0` for a top-of-book row. */
  function TopSize(o: Option<Order>): real
  {
    if o.Some? then o.value.size else 0.0
  }

  /** `[topBid size, topAsk size]` per snapshot, flattened. */
  function TopSizes(snaps: seq<Snapshot>): (xs: seq<real>)
    ensures |xs| == 2 * |snaps|
  {
    if |snaps| == 0 then []
    else
      var s := snaps[|snaps| - 1];
      TopSizes(snaps[..|snaps| - 1]) + [TopSize(s.orderBook.topBid), TopSize(s.orderBook.topAsk)]
  }

  /**
    * `(priceChange / spreadAvg) * depthImbalance || 0` in IEEE arithmetic: a
    * zero average spread sends a non-zero change to an infinity whose sign
    * the imbalance sets; 0/0 and ∞·0 are NaN, which `|| 0` turns into 0.
    */
  function Pressure(priceChange: real, spreadAvg: real, depthImbalance: real): (p: ExtReal)
    ensures spreadAvg != 0.0 ==> p.Fin?
    ensures p.PosInf? <==> spreadAvg == 0.0 && priceChange * depthImbalance > 0.0
    ensures p.NegInf? <==> spreadAvg == 0.0 && priceChange * depthImbalance < 0.0
    ensures spreadAvg == 0.0 && p.Fin? ==> p.r == 0.0
  {
    if spreadAvg != 0.0 then Fin(priceChange / spreadAvg * depthImbalance)
    else if priceChange == 0.0 || depthImbalance == 0.0 then Fin(0.0)
    else if (priceChange > 0.0) == (depthImbalance > 0.0) then PosInf
    else NegInf
  }

  /** The record for a window of fewer than two snapshots: every metric 0. */
  function Empty(tf: string): IndicatorResult
  {
    IndicatorResult(tf, 0.0, 0.0, 0.0, 0.0, 0.0, 0.0, 0.0, 0.0, 0.0, 0.0, Fin(0.0), 0.0, 0.0, 0.0, 0.0, 0)
  }

  /** Every size of every snapshot in the window is non-negative. */
  predicate NonNegativeVolumes(snaps: seq<Snapshot>)
  {
    forall i | 0 <= i < |snaps| :: snaps[i].volume.buySize >= 0.0 && snaps[i].volume.sellSize >= 0.0
  }

  /** `volumeImbalance`: the buy share of the traded size, in percent; 0 without volume. */
  function VolumeImbalance(snaps: seq<Snapshot>): (v: real)
    ensures NonNegativeVolumes(snaps) ==> 0.0 <= v <= 100.0
    ensures Sum(BuySizes(snaps)) + Sum(SellSizes(snaps)) <= 0.0 ==> v == 0.0
  {
    var totalBuy := Sum(BuySizes(snaps));
    var totalSell := Sum(SellSizes(snaps));
    SumNonNegative(BuySizes(snaps));
    SumNonNegative(SellSizes(snaps));
    PercentBounds(totalBuy, totalBuy + totalSell);
    if totalBuy + totalSell > 0.0 then totalBuy / (totalBuy + totalSell) * 100.0 else 0.0
  }

  /** `aggressiveVolumeRatio`: the share of trades larger than the average volume, in percent; 0 without trades. */
  function AggressiveRatio(trades: seq<Trade>, avgVolume: real): (v: real)
    ensures 0.0 <= v <= 100.0
    ensures |trades| == 0 ==> v == 0.0
  {
    var large := CountAbove(trades, avgVolume);
    PercentBounds(large as real, |trades| as real);
    if |trades| > 0 then large as real / |trades| as real * 100.0 else 0.0
  }

  /** `earlyReversal`: book imbalance and price momentum point opposite ways. */
  function EarlyReversal(depthImbalance: real, priceMomentum: real): (flag: nat)
    ensures flag <= 1
    ensures flag == 1 <==> (depthImbalance - 1.0) * priceMomentum < 0.0
    ensures depthImbalance == 1.0 || priceMomentum == 0.0 ==> flag == 0
  {
    if (depthImbalance > 1.0 && priceMomentum < 0.0) || (depthImbalance < 1.0 && priceMomentum > 0.0) then 1 else 0
  }

  /** `priceChange`: the change from the first to the last price, in percent of the first. */
  function PriceChange(first: Snapshot, last: Snapshot): (c: real)
    requires first.price != 0.0
    ensures c == 0.0 <==> last.price == first.price
    ensures first.price > 0.0 ==> (c > 0.0 <==> last.price > first.price)
    ensures first.price < 0.0 ==> (c > 0.0 <==> last.price < first.price)
  {
    (last.price - first.price) / first.price * 100.0
  }

  /** `priceMomentum`: price change per second, 0 when both snapshots share a timestamp. */
  function Momentum(first: Snapshot, last: Snapshot): (m: real)
    ensures first.timestamp == last.timestamp ==> m == 0.0
  {
    var deltaT := (last.timestamp - first.timestamp) as real / 1000.0;
    if deltaT != 0.0 then (last.price - first.price) / deltaT else 0.0
  }

  /** `wallDetectionScore`: the largest top-of-book size in percent of the total depth; 0 without depth. */
  function WallScore(topSizes: seq<real>, totalDepth: real): (w: real)
    ensures totalDepth == 0.0 ==> w == 0.0
  {
    if totalDepth != 0.0 && |topSizes| > 0 then MaxOf(topSizes) / totalDepth * 100.0 else 0.0
  }

  /** `acceleration`: the second difference of first, middle and last price over n squared. */
  function Acceleration(first: real, middle: real, last: real, n: nat): real
    requires n > 0
  {
    (last - 2.0 * middle + first) / (n * n) as real
  }

  /**
    * `calc(tf, snaps)`. The first price must be non-zero for a window of two
    * or more: `priceChange` divides by it.
    */
  function Calc(tf: string, snaps: seq<Snapshot>, sqrt: real -> real): (r: IndicatorResult)
    requires |snaps| < 2 || snaps[0].price != 0.0
    ensures r.timeframe == tf
    ensures |snaps| < 2 ==> r == Empty(tf)
    ensures |snaps| >= 2 ==>
      (r.priceChange > 0.0 <==> (snaps[|snaps| - 1].price - snaps[0].price) / snaps[0].price > 0.0)
    ensures |snaps| >= 2 && snaps[0].timestamp == snaps[|snaps| - 1].timestamp ==> r.priceMomentum == 0.0
    ensures NonNegativeVolumes(snaps) ==> 0.0 <= r.volumeImbalance <= 100.0
    ensures Sum(BuySizes(snaps)) + Sum(SellSizes(snaps)) <= 0.0 ==> r.volumeImbalance == 0.0
    ensures 0.0 <= r.aggressiveVolumeRatio <= 100.0
    ensures |Trades(snaps)| == 0 ==> r.aggressiveVolumeRatio == 0.0
    ensures r.maxTradeSize >= 0.0
    ensures |snaps| >= 2 ==> forall i | 0 <= i < |Trades(snaps)| :: Trades(snaps)[i].size <= r.maxTradeSize
    ensures Avg(SellDepths(snaps)) == 0.0 ==> r.depthImbalance == 0.0
    ensures Avg(BuyDepths(snaps)) + Avg(SellDepths(snaps)) == 0.0 ==> r.wallDetectionScore == 0.0
    ensures r.orderFlowPressure.Fin? || r.spreadAvg == 0.0
    ensures r.earlyReversal <= 1
    ensures r.earlyReversal == 1 <==> (r.depthImbalance > 1.0 && r.priceMomentum < 0.0) || (r.depthImbalance < 1.0 && r.priceMomentum > 0.0)
    ensures |snaps| >= 2 ==> r.slope == LinearSlope(Prices(snaps))
  {
    var n := |snaps|;
    if n < 2 then Empty(tf)
    else
      var priceChange := PriceChange(snaps[0], snaps[n - 1]);
      var priceMomentum := Momentum(snaps[0], snaps[n - 1]);
      var avgVolume := Sum(TotalSizes(snaps)) / n as real;
      var buyDepth := Avg(BuyDepths(snaps));
      var sellDepth := Avg(SellDepths(snaps));
      var depthImbalance := Ratio(buyDepth, sellDepth);
      var spreadAvg := Avg(Spreads(snaps));
      var trades := Trades(snaps);
      IndicatorResult(
        tf,
        priceChange,
        priceMomentum,
        Stddev(Prices(snaps), sqrt),
        avgVolume,
        Sum(BuySizes(snaps)) - Sum(SellSizes(snaps)),
        VolumeImbalance(snaps),
        MaxTradeSize(trades),
        AggressiveRatio(trades, avgVolume),
        depthImbalance,
        spreadAvg,
        Pressure(priceChange, spreadAvg, depthImbalance),
        (Stddev(BuyDepths(snaps), sqrt) + Stddev(SellDepths(snaps), sqrt)) / 2.0,
        WallScore(TopSizes(snaps), buyDepth + sellDepth),
        LinearSlope(Prices(snaps)),
        Acceleration(snaps[0].price, snaps[n / 2].price, snaps[n - 1].price, n),
        EarlyReversal(depthImbalance, priceMomentum))
  }

  /** `indicators$`: one record per window, tagged in the order of `Tags`. */
  function AllIndicators(windows: seq<seq<Snapshot>>, sqrt: real -> real): (rs: seq<IndicatorResult>)
    requires |windows| == |Tags|
    requires forall i | 0 <= i < |windows| :: |windows[i]| < 2 || windows[i][0].price != 0.0
    ensures |rs| == |Tags|
    ensures forall i | 0 <= i < |rs| :: rs[i].timeframe == Tags[i] && rs[i] == Calc(Tags[i], windows[i], sqrt)
  {
    seq(|Tags|, i requires 0 <= i < |Tags| => Calc(Tags[i], windows[i], sqrt))
  }
}
