/**
  * The classic indicators of `TechnicalIndicatorsService`, computed over a
  * candle series: SMA, EMA and MACD, RSI, momentum and ROC, ATR, Bollinger
  * bands, OBV and MFI, and the summary record `compute` builds from their
  * latest values.
  *
  * A series entry is `None` where the source leaves an array hole or
  * produces `NaN` (the warm-up positions, RSI with no movement at all, a
  * ROC over a zero price).
  */
module TechnicalIndicators {
  import opened Util
  import opened CandleAggregator

  /** `avg` of this service: the mean of a non-empty list (the source yields NaN for an empty one). */
  function Mean(xs: seq<real>): (m: real)
    requires |xs| > 0
    ensures m * |xs| as real == Sum(xs)
  {
    Sum(xs) / |xs| as real
  }

  // ---------------------------------------------------------------------------
  // sma
  // ---------------------------------------------------------------------------

  /** `sma(prices, period)`: the mean of the last `period` prices, from the first full window on. */
  function Sma(prices: seq<real>, period: nat): (r: seq<Option<real>>)
    requires period >= 1
    ensures |r| == |prices|
    ensures forall i | 0 <= i < |r| :: r[i].None? <==> i < period - 1
  {
    seq(|prices|, i requires 0 <= i < |prices| =>
      if i < period - 1 then None else Some(Mean(prices[i - period + 1..i + 1])))
  }

  /** Each SMA value lies within the range of the prices. */
  lemma SmaWithinRange(prices: seq<real>, period: nat, lo: real, hi: real)
    requires period >= 1
    requires forall i | 0 <= i < |prices| :: lo <= prices[i] <= hi
    ensures forall i | 0 <= i < |prices| && Sma(prices, period)[i].Some? :: lo <= Sma(prices, period)[i].value <= hi
  {
    forall i | 0 <= i < |prices| && Sma(prices, period)[i].Some?
      ensures lo <= Sma(prices, period)[i].value <= hi
    {
      var w := prices[i - period + 1..i + 1];
      assert forall j | 0 <= j < |w| :: w[j] == prices[i - period + 1 + j];
      MeanBetween(w, lo, hi);
    }
  }

  // ---------------------------------------------------------------------------
  // ema and macd
  // ---------------------------------------------------------------------------

  /** The smoothing factor `2 / (period + 1)`. */
  function Alpha(period: nat): (k: real)
    ensures 0.0 < k <= 2.0
    ensures period >= 1 ==> k <= 1.0
  {
    2.0 / (period as real + 1.0)
  }

  /** One EMA step: `p * k + previous * (1 - k)`. */
  function Blend(p: real, previous: real, k: real): real
  {
    p * k + previous * (1.0 - k)
  }

  /** The EMA series: the first price, then a blend of the price and the previous value at each later point. */
  function EmaSeries(prices: seq<real>, k: real): (r: seq<real>)
    ensures |r| == |prices|
    ensures |r| > 0 ==> r[0] == prices[0]
  {
    if |prices| <= 1 then prices
    else
      var prev := EmaSeries(prices[..|prices| - 1], k);
      prev + [Blend(prices[|prices| - 1], prev[|prev| - 1], k)]
  }

  /** Extending the prices by one extends the EMA series by one step of the recurrence. */
  lemma EmaAppend(prices: seq<real>, p: real, k: real)
    requires |prices| >= 1
    ensures EmaSeries(prices + [p], k) == EmaSeries(prices, k) + [Blend(p, EmaSeries(prices, k)[|prices| - 1], k)]
  {
    assert (prices + [p])[..|prices|] == prices;
  }

  /** The EMA recurrence, point by point. */
  lemma {:induction false} EmaStep(prices: seq<real>, k: real, i: nat)
    requires 1 <= i < |prices|
    ensures EmaSeries(prices, k)[i] == Blend(prices[i], EmaSeries(prices, k)[i - 1], k)
  {
    var n := |prices|;
    if i < n - 1 {
      EmaStep(prices[..n - 1], k, i);
      assert prices[..n - 1][i] == prices[i];
    }
  }

  /** With `0 <= k <= 1` each EMA value is a convex mix of prices, so a lower bound of the prices bounds it. */
  lemma {:induction false} EmaLowerBound(prices: seq<real>, k: real, lo: real)
    requires 0.0 <= k <= 1.0
    requires forall i | 0 <= i < |prices| :: lo <= prices[i]
    ensures forall i | 0 <= i < |prices| :: lo <= EmaSeries(prices, k)[i]
  {
    if |prices| > 1 {
      var n := |prices|;
      EmaLowerBound(prices[..n - 1], k, lo);
      var prev := EmaSeries(prices[..n - 1], k);
      var e := prev[n - 2];
      assert prices[n - 1] * k + e * (1.0 - k) - lo == k * (prices[n - 1] - lo) + (1.0 - k) * (e - lo);
      assert k * (prices[n - 1] - lo) >= 0.0;
      assert (1.0 - k) * (e - lo) >= 0.0;
    }
  }

  lemma {:induction false} EmaUpperBound(prices: seq<real>, k: real, hi: real)
    requires 0.0 <= k <= 1.0
    requires forall i | 0 <= i < |prices| :: prices[i] <= hi
    ensures forall i | 0 <= i < |prices| :: EmaSeries(prices, k)[i] <= hi
  {
    if |prices| > 1 {
      var n := |prices|;
      EmaUpperBound(prices[..n - 1], k, hi);
      var prev := EmaSeries(prices[..n - 1], k);
      var e := prev[n - 2];
      assert hi - (prices[n - 1] * k + e * (1.0 - k)) == k * (hi - prices[n - 1]) + (1.0 - k) * (hi - e);
      assert k * (hi - prices[n - 1]) >= 0.0;
      assert (1.0 - k) * (hi - e) >= 0.0;
    }
  }

  /** One more price extends the series over a prefix by one blended step. */
  lemma EmaExtend(prices: seq<real>, k: real, i: nat)
    requires 1 <= i < |prices|
    ensures EmaSeries(prices[..i + 1], k) == EmaSeries(prices[..i], k) + [Blend(prices[i], EmaSeries(prices[..i], k)[i - 1], k)]
  {
    assert prices[..i + 1] == prices[..i] + [prices[i]];
    EmaAppend(prices[..i], prices[i], k);
  }

  /** `ema(prices, period)`: one pass threading the previous value. */
  method Ema(prices: seq<real>, period: nat) returns (r: seq<real>)
    ensures r == EmaSeries(prices, Alpha(period))
  {
    var k := 2.0 / (period as real + 1.0);
    if |prices| == 0 {
      return [];
    }
    var emaPrev := prices[0];
    r := [prices[0]];
    var i := 1;
    while i < |prices|
      invariant 1 <= i <= |prices|
      invariant r == EmaSeries(prices[..i], k)
      invariant emaPrev == r[i - 1]
    {
      EmaExtend(prices, k, i);
      var next := prices[i] * k + emaPrev * (1.0 - k);
      assert next == Blend(prices[i], emaPrev, k);
      emaPrev := next;
      r := r + [emaPrev];
      i := i + 1;
    }
    assert prices[..i] == prices;
  }

  datatype Macd = Macd(macdLine: seq<real>, signalLine: seq<real>, histogram: seq<real>)

  /** `macd(prices)` with the default periods 12, 26 and 9. */
  function MacdOf(prices: seq<real>): (m: Macd)
    ensures |m.macdLine| == |prices| && |m.signalLine| == |prices| && |m.histogram| == |prices|
    ensures forall i | 0 <= i < |prices| ::
      m.macdLine[i] == EmaSeries(prices, Alpha(12))[i] - EmaSeries(prices, Alpha(26))[i] &&
      m.histogram[i] == m.macdLine[i] - m.signalLine[i]
    ensures m.signalLine == EmaSeries(m.macdLine, Alpha(9))
  {
    var fast := EmaSeries(prices, Alpha(12));
    var slow := EmaSeries(prices, Alpha(26));
    var macdLine := seq(|prices|, i requires 0 <= i < |prices| => fast[i] - slow[i]);
    var signalLine := EmaSeries(macdLine, Alpha(9));
    Macd(macdLine, signalLine, seq(|prices|, i requires 0 <= i < |prices| => macdLine[i] - signalLine[i]))
  }

  /** A flat price series has a zero MACD line, signal line and histogram. */
  lemma MacdFlat(prices: seq<real>, c: real)
    requires forall i | 0 <= i < |prices| :: prices[i] == c
    ensures forall i | 0 <= i < |prices| ::
      MacdOf(prices).macdLine[i] == 0.0 && MacdOf(prices).signalLine[i] == 0.0 && MacdOf(prices).histogram[i] == 0.0
  {
    EmaLowerBound(prices, Alpha(12), c);
    EmaUpperBound(prices, Alpha(12), c);
    EmaLowerBound(prices, Alpha(26), c);
    EmaUpperBound(prices, Alpha(26), c);
    var m := MacdOf(prices);
    EmaLowerBound(m.macdLine, Alpha(9), 0.0);
    EmaUpperBound(m.macdLine, Alpha(9), 0.0);
  }

  // ---------------------------------------------------------------------------
  // rsi
  // ---------------------------------------------------------------------------

  /** The summed gains and losses of the first m price moves (the seeding loop). */
  function SeedSums(prices: seq<real>, m: nat): (gl: (real, real))
    requires m < |prices|
    ensures gl.0 >= 0.0 && gl.1 >= 0.0
  {
    if m == 0 then (0.0, 0.0)
    else
      var prev := SeedSums(prices, m - 1);
      var diff := prices[m] - prices[m - 1];
      if diff >= 0.0 then (prev.0 + diff, prev.1) else (prev.0, prev.1 - diff)
  }

  /** Wilder's smoothing step: `(average * (p - 1) + move) / p`. */
  function Wilder(average: real, move: real, p: real): real
    requires p != 0.0
  {
    (average * (p - 1.0) + move) / p
  }

  /** A step from a non-negative average by a non-negative move stays non-negative. */
  lemma WilderNonNegative(average: real, move: real, p: real)
    requires p >= 1.0 && average >= 0.0 && move >= 0.0
    ensures Wilder(average, move, p) >= 0.0
  {
    var t := average * (p - 1.0) + move;
    assert average * (p - 1.0) >= 0.0;
    DivBetween(t, p, 0.0, t);
  }

  /** The smoothed average gain and loss after price i. */
  function Smoothed(prices: seq<real>, period: nat, i: nat): (gl: (real, real))
    requires 1 <= period <= i < |prices|
    ensures gl.0 >= 0.0 && gl.1 >= 0.0
    decreases i
  {
    var p := period as real;
    if i == period then
      var s := SeedSums(prices, period);
      DivBetween(s.0, p, 0.0, s.0);
      DivBetween(s.1, p, 0.0, s.1);
      (s.0 / p, s.1 / p)
    else
      var prev := Smoothed(prices, period, i - 1);
      var diff := prices[i] - prices[i - 1];
      if diff >= 0.0 then
        WilderNonNegative(prev.0, diff, p);
        WilderNonNegative(prev.1, 0.0, p);
        (Wilder(prev.0, diff, p), Wilder(prev.1, 0.0, p))
      else
        WilderNonNegative(prev.0, 0.0, p);
        WilderNonNegative(prev.1, -diff, p);
        (Wilder(prev.0, 0.0, p), Wilder(prev.1, -diff, p))
  }

  /**
    * `100 - 100 / (1 + gains / losses)` in IEEE arithmetic: no losses but
    * some gains gives 100 (the ratio is infinite), no movement at all is NaN.
    */
  function RsiValue(gains: real, losses: real): (r: Option<real>)
    requires gains >= 0.0 && losses >= 0.0
    ensures r.None? <==> gains == 0.0 && losses == 0.0
    ensures r.Some? ==> 0.0 <= r.value <= 100.0
    ensures losses > 0.0 ==> r.Some? && r.value < 100.0
    ensures losses == 0.0 && gains > 0.0 ==> r == Some(100.0)
  {
    if losses > 0.0 then
      var q := 1.0 + gains / losses;
      DivBetween(gains, losses, 0.0, gains / losses);
      DivBetween(100.0, q, 0.0, 100.0);
      assert 100.0 / q > 0.0;
      Some(100.0 - 100.0 / q)
    else if gains > 0.0 then Some(100.0)
    else None
  }

  /** `rsi(prices, period)`: holes before `period`, then the RSI of the smoothed averages. */
  function RsiSeries(prices: seq<real>, period: nat): (r: seq<Option<real>>)
    requires 1 <= period < |prices|
    ensures |r| == |prices|
    ensures forall i | 0 <= i < |prices| :: r[i] == RsiAt(prices, period, i)
  {
    seq(|prices|, i requires 0 <= i < |prices| => RsiAt(prices, period, i))
  }

  /** One entry of the RSI series. */
  function RsiAt(prices: seq<real>, period: nat, i: nat): Option<real>
    requires 1 <= period && i < |prices|
  {
    if i < period then None
    else var gl := Smoothed(prices, period, i); RsiValue(gl.0, gl.1)
  }

  /** Every defined RSI value is in [0, 100], and below 100 whenever the average loss is positive. */
  lemma RsiBounds(prices: seq<real>, period: nat, i: nat)
    requires 1 <= period <= i < |prices|
    ensures RsiSeries(prices, period)[i].Some? ==> 0.0 <= RsiSeries(prices, period)[i].value <= 100.0
    ensures Smoothed(prices, period, i).1 > 0.0 ==>
      RsiSeries(prices, period)[i].Some? && RsiSeries(prices, period)[i].value < 100.0
  {
  }

  /** `rsi(prices, period)`: the seeding loop over the first `period` moves, then one smoothing step per price. */
  method Rsi(prices: seq<real>, period: nat) returns (rsi: seq<Option<real>>)
    requires 1 <= period < |prices|
    ensures rsi == RsiSeries(prices, period)
  {
    var gains, losses := RsiSeed(prices, period);
    rsi := seq(period, _ => None) + [RsiValue(gains, losses)];
    var i := period + 1;
    while i < |prices|
      invariant period + 1 <= i <= |prices|
      invariant (gains, losses) == Smoothed(prices, period, i - 1)
      invariant |rsi| == i
      invariant forall j | 0 <= j < i :: rsi[j] == RsiAt(prices, period, j)
    {
      gains, losses := SmoothStep(gains, losses, prices[i] - prices[i - 1], period as real);
      assert (gains, losses) == Smoothed(prices, period, i);
      rsi := rsi + [RsiValue(gains, losses)];
      i := i + 1;
    }
  }

  /** One iteration of the smoothing loop of `rsi`: the move goes to the gains or to the losses. */
  method SmoothStep(gains: real, losses: real, diff: real, p: real) returns (g: real, l: real)
    requires p >= 1.0
    ensures diff >= 0.0 ==> g == Wilder(gains, diff, p) && l == Wilder(losses, 0.0, p)
    ensures diff < 0.0 ==> g == Wilder(gains, 0.0, p) && l == Wilder(losses, -diff, p)
  {
    if diff >= 0.0 {
      g := (gains * (p - 1.0) + diff) / p;
      l := (losses * (p - 1.0)) / p;
    } else {
      g := (gains * (p - 1.0)) / p;
      l := (losses * (p - 1.0) - diff) / p;
    }
  }

  /** The seeding loop of `rsi`: the average gain and loss over the first `period` moves. */
  method RsiSeed(prices: seq<real>, period: nat) returns (gains: real, losses: real)
    requires 1 <= period < |prices|
    ensures (gains, losses) == Smoothed(prices, period, period)
  {
    gains, losses := 0.0, 0.0;
    var i := 1;
    while i <= period
      invariant 1 <= i <= period + 1
      invariant (gains, losses) == SeedSums(prices, i - 1)
    {
      var diff := prices[i] - prices[i - 1];
      if diff >= 0.0 {
        gains := gains + diff;
      } else {
        losses := losses - diff;
      }
      i := i + 1;
    }
    gains := gains / period as real;
    losses := losses / period as real;
  }

  // ---------------------------------------------------------------------------
  // momentum and roc
  // ---------------------------------------------------------------------------

  /** `momentum(prices, period)`: the change over `period` steps. */
  function Momentum(prices: seq<real>, period: nat): (r: seq<Option<real>>)
    ensures |r| == |prices|
    ensures forall i | 0 <= i < |r| :: r[i].None? <==> i < period
    ensures forall i {:trigger r[i]} | period <= i < |r| :: r[i].value + prices[i - period] == prices[i]
  {
    seq(|prices|, i requires 0 <= i < |prices| => if i < period then None else Some(prices[i] - prices[i - period]))
  }

  /** `roc(prices, period)`: the change over `period` steps in percent of the older price; a zero older price is non-finite. */
  function Roc(prices: seq<real>, period: nat): (r: seq<Option<real>>)
    ensures |r| == |prices|
    ensures forall i | 0 <= i < |r| :: r[i].None? <==> i < period || prices[i - period] == 0.0
  {
    seq(|prices|, i requires 0 <= i < |prices| =>
      if i < period || prices[i - period] == 0.0 then None
      else Some((prices[i] - prices[i - period]) / prices[i - period] * 100.0))
  }

  /** The rate of change is the momentum scaled by the older price. */
  lemma RocIsScaledMomentum(prices: seq<real>, period: nat, i: nat)
    requires period <= i < |prices| && prices[i - period] != 0.0
    ensures Roc(prices, period)[i].value * prices[i - period] == Momentum(prices, period)[i].value * 100.0
  {
    var base := prices[i - period];
    var m := prices[i] - base;
    assert m / base * base == m;
    assert m / base * 100.0 * base == m / base * base * 100.0;
  }

  // ---------------------------------------------------------------------------
  // atr
  // ---------------------------------------------------------------------------

  function Max3(a: real, b: real, c: real): (m: real)
    ensures m >= a && m >= b && m >= c
    ensures m == a || m == b || m == c
  {
    if a >= b && a >= c then a else if b >= c then b else c
  }

  /** The true range at i; `closes[i - 1] || closes[0]` falls back to the first close at i = 0 and when the previous close is 0. */
  function TrueRange(highs: seq<real>, lows: seq<real>, closes: seq<real>, i: nat): (tr: real)
    requires i < |highs| == |lows| == |closes|
    ensures tr >= 0.0
  {
    var prevClose := if i >= 1 && closes[i - 1] != 0.0 then closes[i - 1] else closes[0];
    Max3(highs[i] - lows[i], Abs(highs[i] - prevClose), Abs(lows[i] - prevClose))
  }

  /** `atr(highs, lows, closes, period)`: the EMA of the true ranges. */
  function Atr(highs: seq<real>, lows: seq<real>, closes: seq<real>, period: nat): (r: seq<real>)
    requires |highs| == |lows| == |closes|
    ensures |r| == |highs|
    ensures period >= 1 ==> forall i | 0 <= i < |r| :: r[i] >= 0.0
  {
    var tr := seq(|highs|, i requires 0 <= i < |highs| => TrueRange(highs, lows, closes, i));
    if period >= 1 then
      EmaLowerBound(tr, Alpha(period), 0.0);
      EmaSeries(tr, Alpha(period))
    else EmaSeries(tr, Alpha(period))
  }

  // ---------------------------------------------------------------------------
  // bollingerBands
  // ---------------------------------------------------------------------------

  datatype Band = Band(upper: real, middle: real, lower: real)

  /** `bollingerBands(prices, period, multiplier)`: mean ± multiplier standard deviations over each full window; `sqrt` stands for `Math.sqrt`. */
  function Bollinger(prices: seq<real>, period: nat, multiplier: real, sqrt: real -> real): (r: seq<Option<Band>>)
    requires period >= 1
    ensures |r| == |prices|
    ensures forall i | 0 <= i < |r| :: r[i].None? <==> i < period - 1
    ensures forall i | 0 <= i < |r| && r[i].Some? ::
      r[i].value.middle == Mean(prices[i - period + 1..i + 1]) &&
      r[i].value.upper - r[i].value.middle == r[i].value.middle - r[i].value.lower
  {
    seq(|prices|, i requires 0 <= i < |prices| =>
      if i < period - 1 then None
      else
        var slice := prices[i - period + 1..i + 1];
        var mean := Mean(slice);
        var std := sqrt(Mean(seq(|slice|, j requires 0 <= j < |slice| => (slice[j] - mean) * (slice[j] - mean))));
        Some(Band(mean + multiplier * std, mean, mean - multiplier * std)))
  }

  // ---------------------------------------------------------------------------
  // obv
  // ---------------------------------------------------------------------------

  /** The OBV series: 0, then the volume added on an up-close, subtracted on a down-close, carried on a tie. */
  function ObvSeries(prices: seq<real>, volumes: seq<real>): (r: seq<real>)
    requires |volumes| >= |prices|
    ensures |r| == if |prices| == 0 then 1 else |prices|
    ensures r[0] == 0.0
  {
    if |prices| <= 1 then [0.0]
    else
      var i := |prices| - 1;
      var prev := ObvSeries(prices[..i], volumes);
      var o := prev[i - 1];
      prev + [if prices[i] > prices[i - 1] then o + volumes[i] else if prices[i] < prices[i - 1] then o - volumes[i] else o]
  }

  /** Each later OBV value adds the volume on an up-close, subtracts it on a down-close and carries the previous value on a tie. */
  lemma {:induction false} ObvStep(prices: seq<real>, volumes: seq<real>, i: nat)
    requires |volumes| >= |prices| && 1 <= i < |prices|
    ensures var r := ObvSeries(prices, volumes);
      (prices[i] > prices[i - 1] ==> r[i] == r[i - 1] + volumes[i]) &&
      (prices[i] < prices[i - 1] ==> r[i] == r[i - 1] - volumes[i]) &&
      (prices[i] == prices[i - 1] ==> r[i] == r[i - 1])
  {
    var n := |prices|;
    if i < n - 1 {
      ObvStep(prices[..n - 1], volumes, i);
      assert prices[..n - 1][i] == prices[i] && prices[..n - 1][i - 1] == prices[i - 1];
    }
  }

  /** With non-negative volumes the OBV never moves further from 0 than the volume traded since the start. */
  lemma {:induction false} ObvBounded(prices: seq<real>, volumes: seq<real>)
    requires |volumes| >= |prices| >= 1
    requires forall i | 0 <= i < |volumes| :: volumes[i] >= 0.0
    ensures -Sum(volumes[1..|prices|]) <= ObvSeries(prices, volumes)[|prices| - 1] <= Sum(volumes[1..|prices|])
  {
    var n := |prices|;
    if n > 1 {
      ObvBounded(prices[..n - 1], volumes);
      assert volumes[1..n][..n - 2] == volumes[1..n - 1];
    }
  }

  /** `obv(prices, volumes)`: one pass from the second price on. */
  method Obv(prices: seq<real>, volumes: seq<real>) returns (obv: seq<real>)
    requires |volumes| >= |prices|
    ensures obv == ObvSeries(prices, volumes)
  {
    obv := [0.0];
    if |prices| == 0 {
      return;
    }
    var i := 1;
    while i < |prices|
      invariant 1 <= i <= |prices|
      invariant obv == ObvSeries(prices[..i], volumes)
    {
      assert prices[..i + 1][..i] == prices[..i];
      if prices[i] > prices[i - 1] {
        obv := obv + [obv[i - 1] + volumes[i]];
      } else if prices[i] < prices[i - 1] {
        obv := obv + [obv[i - 1] - volumes[i]];
      } else {
        obv := obv + [obv[i - 1]];
      }
      i := i + 1;
    }
    assert prices[..i] == prices;
  }

  // ---------------------------------------------------------------------------
  // mfi
  // ---------------------------------------------------------------------------

  /** `(high + low + close) / 3` */
  function TypicalPrice(highs: seq<real>, lows: seq<real>, closes: seq<real>, j: nat): real
    requires j < |highs| == |lows| == |closes|
  {
    (highs[j] + lows[j] + closes[j]) / 3.0
  }

  /** `typicalPrice[j] * volumes[j]` */
  function MoneyFlow(highs: seq<real>, lows: seq<real>, closes: seq<real>, volumes: seq<real>, j: nat): real
    requires j < |highs| == |lows| == |closes| == |volumes|
  {
    TypicalPrice(highs, lows, closes, j) * volumes[j]
  }

  /** The positive and negative money flow over the points `lo .. hi-1`, each compared with the point before it. */
  function Flows(highs: seq<real>, lows: seq<real>, closes: seq<real>, volumes: seq<real>, lo: nat, hi: nat): (pn: (real, real))
    requires 1 <= lo <= hi <= |highs| == |lows| == |closes| == |volumes|
    decreases hi - lo
  {
    if hi == lo then (0.0, 0.0)
    else
      var prev := Flows(highs, lows, closes, volumes, lo, hi - 1);
      var j := hi - 1;
      var mf := MoneyFlow(highs, lows, closes, volumes, j);
      if TypicalPrice(highs, lows, closes, j) > TypicalPrice(highs, lows, closes, j - 1) then (prev.0 + mf, prev.1) else (prev.0, prev.1 + mf)
  }

  /** Money flows are non-negative when prices and volumes are. */
  lemma {:induction false} FlowsNonNegative(highs: seq<real>, lows: seq<real>, closes: seq<real>, volumes: seq<real>, lo: nat, hi: nat)
    requires 1 <= lo <= hi <= |highs| == |lows| == |closes| == |volumes|
    requires forall j | 0 <= j < |highs| :: highs[j] >= 0.0 && lows[j] >= 0.0 && closes[j] >= 0.0 && volumes[j] >= 0.0
    ensures Flows(highs, lows, closes, volumes, lo, hi).0 >= 0.0 && Flows(highs, lows, closes, volumes, lo, hi).1 >= 0.0
    decreases hi - lo
  {
    if hi > lo {
      FlowsNonNegative(highs, lows, closes, volumes, lo, hi - 1);
      assert MoneyFlow(highs, lows, closes, volumes, hi - 1) >= 0.0;
    }
  }

  /** `100 - 100 / (1 + pos / (neg || 1))`; None where that is not finite. */
  function MfiValue(pos: real, neg: real): (r: Option<real>)
    ensures pos >= 0.0 && neg >= 0.0 ==> r.Some? && 0.0 <= r.value < 100.0
  {
    var ratio := pos / (if neg != 0.0 then neg else 1.0);
    if 1.0 + ratio == 0.0 then None
    else
      if pos >= 0.0 && neg >= 0.0 then
        DivBetween(pos, if neg != 0.0 then neg else 1.0, 0.0, ratio);
        DivBetween(100.0, 1.0 + ratio, 0.0, 100.0);
        assert 100.0 / (1.0 + ratio) > 0.0;
        Some(100.0 - 100.0 / (1.0 + ratio))
      else Some(100.0 - 100.0 / (1.0 + ratio))
  }

  /** `mfi(highs, lows, closes, volumes, period)`: empty when there is no full window, otherwise holes before `period`. */
  function MfiSeries(highs: seq<real>, lows: seq<real>, closes: seq<real>, volumes: seq<real>, period: nat): (r: seq<Option<real>>)
    requires |highs| == |lows| == |closes| == |volumes|
    ensures |r| == if |closes| <= period then 0 else |closes|
  {
    if |closes| <= period then []
    else
      seq(|closes|, i requires 0 <= i < |closes| =>
        if i < period then None
        else
          var pn := Flows(highs, lows, closes, volumes, i - period + 1, i + 1);
          MfiValue(pn.0, pn.1))
  }

  /** From `period` on, MFI is defined and in [0, 100) for non-negative prices and volumes. */
  lemma MfiBounds(highs: seq<real>, lows: seq<real>, closes: seq<real>, volumes: seq<real>, period: nat, i: nat)
    requires |highs| == |lows| == |closes| == |volumes|
    requires period <= i < |closes|
    ensures (forall j | 0 <= j < |highs| :: highs[j] >= 0.0 && lows[j] >= 0.0 && closes[j] >= 0.0 && volumes[j] >= 0.0) ==>
      MfiSeries(highs, lows, closes, volumes, period)[i].Some? &&
      0.0 <= MfiSeries(highs, lows, closes, volumes, period)[i].value < 100.0
  {
    if forall j | 0 <= j < |highs| :: highs[j] >= 0.0 && lows[j] >= 0.0 && closes[j] >= 0.0 && volumes[j] >= 0.0 {
      var pn := Flows(highs, lows, closes, volumes, i - period + 1, i + 1);
      FlowsNonNegative(highs, lows, closes, volumes, i - period + 1, i + 1);
      assert MfiSeries(highs, lows, closes, volumes, period)[i] == MfiValue(pn.0, pn.1);
    }
  }

  /** `mfi`: for each full window, one inner pass summing the money flows by direction. */
  method Mfi(highs: seq<real>, lows: seq<real>, closes: seq<real>, volumes: seq<real>, period: nat) returns (mfi: seq<Option<real>>)
    requires |highs| == |lows| == |closes| == |volumes|
    ensures mfi == MfiSeries(highs, lows, closes, volumes, period)
  {
    if |closes| <= period {
      return [];
    }
    ghost var target := MfiSeries(highs, lows, closes, volumes, period);
    mfi := seq(period, _ => None);
    var i := period;
    while i < |closes|
      invariant period <= i <= |closes|
      invariant |mfi| == i
      invariant forall k | 0 <= k < i :: mfi[k] == target[k]
    {
      var posMF, negMF := 0.0, 0.0;
      var j := i - period + 1;
      while j <= i
        invariant i - period + 1 <= j <= i + 1
        invariant (posMF, negMF) == Flows(highs, lows, closes, volumes, i - period + 1, j)
      {
        if TypicalPrice(highs, lows, closes, j) > TypicalPrice(highs, lows, closes, j - 1) {
          posMF := posMF + MoneyFlow(highs, lows, closes, volumes, j);
        } else {
          negMF := negMF + MoneyFlow(highs, lows, closes, volumes, j);
        }
        j := j + 1;
      }
      assert target[i] == MfiValue(posMF, negMF);
      mfi := mfi + [MfiValue(posMF, negMF)];
      i := i + 1;
    }
  }

  // ---------------------------------------------------------------------------
  // compute
  // ---------------------------------------------------------------------------

  /** The fewest candles `compute` works on. */
  const MinCandles: nat := 30

  /**
    * The record `compute` returns: `{}` for a short series, whose fields all
    * read as undefined, or the latest value of each indicator.
    */
  datatype TechSnapshot =
    | Insufficient
    | Indicators(
        rsi: Option<real>,
        macdHist: real,
        momentum: real,
        roc: Option<real>,
        atr: real,
        bollingerBandWidth: Option<real>,
        obv: real,
        mfi: Option<real>,
        volumeSpike: bool)

  function Closes(candles: seq<Candle>): seq<real>
  {
    seq(|candles|, i requires 0 <= i < |candles| => candles[i].close)
  }

  function Highs(candles: seq<Candle>): seq<real>
  {
    seq(|candles|, i requires 0 <= i < |candles| => candles[i].high)
  }

  function Lows(candles: seq<Candle>): seq<real>
  {
    seq(|candles|, i requires 0 <= i < |candles| => candles[i].low)
  }

  function Volumes(candles: seq<Candle>): seq<real>
  {
    seq(|candles|, i requires 0 <= i < |candles| => candles[i].volume)
  }

  /** `volumes[n-1] > avg(volumes.slice(-10, -1)) * 1.5`: the last volume against the mean of the nine before it. */
  predicate VolumeSpike(volumes: seq<real>)
    requires |volumes| >= 10
  {
    volumes[|volumes| - 1] > Mean(volumes[|volumes| - 10..|volumes| - 1]) * 1.5
  }

  /** `bbLatest && bbLatest.upper && bbLatest.lower ? upper - lower : undefined` */
  function BandWidth(b: Option<Band>): Option<real>
  {
    if b.Some? && b.value.upper != 0.0 && b.value.lower != 0.0 then Some(b.value.upper - b.value.lower) else None
  }

  /** All OHLCV values of the candles are non-negative. */
  predicate NonNegativeCandles(candles: seq<Candle>)
  {
    forall i | 0 <= i < |candles| ::
      candles[i].high >= 0.0 && candles[i].low >= 0.0 && candles[i].close >= 0.0 && candles[i].volume >= 0.0
  }

  /** The latest RSI(14): undefined (NaN) or in [0, 100]. */
  function LatestRsi(closes: seq<real>): (r: Option<real>)
    requires |closes| >= MinCandles
    ensures r.Some? ==> 0.0 <= r.value <= 100.0
  {
    RsiBounds(closes, 14, |closes| - 1);
    RsiSeries(closes, 14)[|closes| - 1]
  }

  /** The latest MFI(14): defined and in [0, 100) when prices and volumes are non-negative. */
  function LatestMfi(highs: seq<real>, lows: seq<real>, closes: seq<real>, volumes: seq<real>): (r: Option<real>)
    requires |highs| == |lows| == |closes| == |volumes| >= MinCandles
    ensures (forall j | 0 <= j < |highs| :: highs[j] >= 0.0 && lows[j] >= 0.0 && closes[j] >= 0.0 && volumes[j] >= 0.0) ==>
      r.Some? && 0.0 <= r.value < 100.0
  {
    MfiBounds(highs, lows, closes, volumes, 14, |closes| - 1);
    MfiSeries(highs, lows, closes, volumes, 14)[|closes| - 1]
  }

  /** The latest MACD histogram bar. */
  function LatestHistogram(closes: seq<real>): real
    requires |closes| >= MinCandles
  {
    MacdOf(closes).histogram[|closes| - 1]
  }

  /** The latest ROC(10). */
  function LatestRoc(closes: seq<real>): Option<real>
    requires |closes| >= MinCandles
  {
    Roc(closes, 10)[|closes| - 1]
  }

  /** The width of the latest Bollinger band (20 candles, 2 deviations). */
  function LatestBandWidth(closes: seq<real>, sqrt: real -> real): Option<real>
    requires |closes| >= MinCandles
  {
    BandWidth(Bollinger(closes, 20, 2.0, sqrt)[|closes| - 1])
  }

  /** The latest OBV. */
  function LatestObv(closes: seq<real>, volumes: seq<real>): real
    requires |closes| == |volumes| >= MinCandles
  {
    ObvSeries(closes, volumes)[|closes| - 1]
  }

  /** The latest momentum(10): the last close minus the close ten candles earlier. */
  function LatestMomentum(closes: seq<real>): (m: real)
    requires |closes| >= MinCandles
    ensures m + closes[|closes| - 11] == closes[|closes| - 1]
  {
    Momentum(closes, 10)[|closes| - 1].value
  }

  /** The latest ATR(14), never negative. */
  function LatestAtr(highs: seq<real>, lows: seq<real>, closes: seq<real>): (a: real)
    requires |highs| == |lows| == |closes| >= MinCandles
    ensures a >= 0.0
  {
    Atr(highs, lows, closes, 14)[|closes| - 1]
  }

  /** Non-negative candles give non-negative columns, and each column reads its field of the candle. */
  lemma ColumnsOf(candles: seq<Candle>)
    ensures |Highs(candles)| == |Lows(candles)| == |Closes(candles)| == |Volumes(candles)| == |candles|
    ensures forall j | 0 <= j < |candles| :: Closes(candles)[j] == candles[j].close
    ensures NonNegativeCandles(candles) ==>
      forall j | 0 <= j < |candles| ::
        Highs(candles)[j] >= 0.0 && Lows(candles)[j] >= 0.0 && Closes(candles)[j] >= 0.0 && Volumes(candles)[j] >= 0.0
  {
  }

  /** `compute(candles)`, with RSI, ATR and MFI over 14 candles and momentum and ROC over 10. */
  function Compute(candles: seq<Candle>, sqrt: real -> real): (t: TechSnapshot)
    ensures t.Insufficient? <==> |candles| < MinCandles
    ensures t.Indicators? ==> (t.volumeSpike <==> VolumeSpike(Volumes(candles)))
    ensures t.Indicators? && t.rsi.Some? ==> 0.0 <= t.rsi.value <= 100.0
    ensures t.Indicators? ==> t.atr >= 0.0
    ensures t.Indicators? ==> t.momentum + candles[|candles| - 11].close == candles[|candles| - 1].close
    ensures t.Indicators? && NonNegativeCandles(candles) ==> t.mfi.Some? && 0.0 <= t.mfi.value < 100.0
    ensures t.Indicators? ==> t.macdHist == LatestHistogram(Closes(candles)) && t.roc == LatestRoc(Closes(candles))
    ensures t.Indicators? ==>
      t.obv == LatestObv(Closes(candles), Volumes(candles)) && t.bollingerBandWidth == LatestBandWidth(Closes(candles), sqrt)
  {
    var n := |candles|;
    if n < MinCandles then Insufficient
    else
      ColumnsOf(candles);
      var closes, highs, lows, volumes := Closes(candles), Highs(candles), Lows(candles), Volumes(candles);
      Indicators(
        LatestRsi(closes),
        LatestHistogram(closes),
        LatestMomentum(closes),
        LatestRoc(closes),
        LatestAtr(highs, lows, closes),
        LatestBandWidth(closes, sqrt),
        LatestObv(closes, volumes),
        LatestMfi(highs, lows, closes, volumes),
        VolumeSpike(volumes))
  }
}
