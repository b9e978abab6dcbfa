/**
  * The candle aggregator (`CandleAggregatorService`): every published
  * snapshot is pushed onto five per-timeframe buffers; once a second each
  * buffer's recent snapshots are folded into one OHLC candle, appended to
  * that timeframe's candle list (at most 100 kept), and the buffer is
  * emptied.
  */
module CandleAggregator {
  import opened Util
  import opened MarketSnapshot
  import opened SnapshotState

  /** An OHLC candle; `timestamp` is the start of its window. */
  datatype Candle = Candle(timestamp: int, open: real, high: real, low: real, close: real, volume: real)

  /** The five cache keys `'1s'`, `'5s'`, `'15s'`, `'1m'`, `'5m'`. */
  datatype Frame = S1 | S5 | S15 | M1 | M5

  /** The keys in the cache's insertion order. */
  const Frames: seq<Frame> := [S1, S5, S15, M1, M5]

  /** The cache key string of each frame. */
  function KeyOf(f: Frame): string
  {
    match f
    case S1 => "1s"
    case S5 => "5s"
    case S15 => "15s"
    case M1 => "1m"
    case M5 => "5m"
  }

  /**
    * The `switch` of `getSubjectForKey`: the frame a key string names, or
    * None where the source throws `Invalid key`.
    */
  function FrameOfKey(key: string): (f: Option<Frame>)
    ensures f.Some? ==> KeyOf(f.value) == key
    ensures f.None? <==> forall g: Frame :: KeyOf(g) != key
  {
    if key == "1s" then Some(S1)
    else if key == "5s" then Some(S5)
    else if key == "15s" then Some(S15)
    else if key == "1m" then Some(M1)
    else if key == "5m" then Some(M5)
    else None
  }

  /** Every frame's key selects that frame's subject. */
  lemma KeyRoundTrip(f: Frame)
    ensures FrameOfKey(KeyOf(f)) == Some(f)
  {
  }

  /** The position of a key in `Frames`. */
  function IndexOf(f: Frame): (i: nat)
    ensures i < |Frames| && Frames[i] == f
  {
    match f
    case S1 => 0
    case S5 => 1
    case S15 => 2
    case M1 => 3
    case M5 => 4
  }

  /** The interval each key is aggregated over, in seconds. */
  function Seconds(f: Frame): nat
  {
    match f
    case S1 => 1
    case S5 => 5
    case S15 => 15
    case M1 => 60
    case M5 => 300
  }

  /** The most candles a timeframe keeps. */
  const MaxCandles: nat := 100

  /** `volumes.reduce((a, b) => a + b, 0)` over the snapshots' total sizes. */
  function VolumeSum(snaps: seq<Snapshot>): real
  {
    if |snaps| == 0 then 0.0 else VolumeSum(snaps[..|snaps| - 1]) + snaps[|snaps| - 1].volume.totalSize
  }

  lemma {:induction false} VolumeSumNonNegative(snaps: seq<Snapshot>)
    ensures (forall i | 0 <= i < |snaps| :: snaps[i].volume.totalSize >= 0.0) ==> VolumeSum(snaps) >= 0.0
  {
    if |snaps| > 0 {
      VolumeSumNonNegative(snaps[..|snaps| - 1]);
    }
  }

  /** The OHLC shape: the opening and closing prices lie between the low and the high. */
  predicate WellFormed(c: Candle)
  {
    c.low <= c.open <= c.high && c.low <= c.close <= c.high
  }

  /** `buildCandle`: open and close are the first and last prices, high and low the extremes, volume the summed sizes. */
  function BuildCandle(snaps: seq<Snapshot>, startTime: int): (c: Candle)
    requires |snaps| > 0
    ensures c.timestamp == startTime && c.open == snaps[0].price && c.close == snaps[|snaps| - 1].price
    ensures WellFormed(c)
    ensures forall i | 0 <= i < |snaps| :: c.low <= snaps[i].price <= c.high
    ensures (exists i | 0 <= i < |snaps| :: snaps[i].price == c.high) && (exists i | 0 <= i < |snaps| :: snaps[i].price == c.low)
    ensures (forall i | 0 <= i < |snaps| :: snaps[i].volume.totalSize >= 0.0) ==> c.volume >= 0.0
  {
    VolumeSumNonNegative(snaps);
    Candle(startTime, snaps[0].price, MaxOf(Prices(snaps)), MinOf(Prices(snaps)), snaps[|snaps| - 1].price, VolumeSum(snaps))
  }

  /** `[...current.slice(-99), candle]`: the new candle last, after at most the 99 newest old ones. */
  function NextCandles(current: seq<Candle>, candle: Candle): (r: seq<Candle>)
    ensures |r| == if |current| < MaxCandles then |current| + 1 else MaxCandles
    ensures r[|r| - 1] == candle
    ensures forall i | 0 <= i < |r| - 1 :: r[i] == current[|current| - (|r| - 1) + i]
  {
    TakeLast(current, MaxCandles - 1) + [candle]
  }

  /** The candle list of a timeframe after one aggregation at time `now`. */
  function StepCandles(cached: seq<Snapshot>, current: seq<Candle>, now: int, seconds: nat): seq<Candle>
  {
    var valid := Window(cached, now, seconds);
    if |valid| == 0 then current else NextCandles(current, BuildCandle(valid, now - seconds * 1000))
  }

  /** The buffer of a timeframe after one aggregation: emptied only when it produced a candle. */
  function StepCache(cached: seq<Snapshot>, now: int, seconds: nat): seq<Snapshot>
  {
    if |Window(cached, now, seconds)| == 0 then cached else []
  }

  predicate AllWellFormed(candles: seq<Candle>)
  {
    forall i | 0 <= i < |candles| :: WellFormed(candles[i])
  }

  /** Appending a well-formed candle keeps a well-formed list of at most 100 candles so. */
  lemma NextKeepsShape(current: seq<Candle>, candle: Candle)
    requires AllWellFormed(current) && WellFormed(candle)
    ensures AllWellFormed(NextCandles(current, candle))
  {
    var r := NextCandles(current, candle);
    forall i | 0 <= i < |r| ensures WellFormed(r[i]) {
      if i < |r| - 1 {
        var j := |current| - (|r| - 1) + i;
        assert r[i] == current[j];
        assert WellFormed(current[j]);
      }
    }
  }

  /** Aggregation keeps every candle well formed and the list within 100 candles. */
  lemma StepKeepsShape(cached: seq<Snapshot>, current: seq<Candle>, now: int, seconds: nat)
    requires AllWellFormed(current) && |current| <= MaxCandles
    ensures AllWellFormed(StepCandles(cached, current, now, seconds))
    ensures |StepCandles(cached, current, now, seconds)| <= MaxCandles
  {
    var valid := Window(cached, now, seconds);
    if |valid| > 0 {
      NextKeepsShape(current, BuildCandle(valid, now - seconds * 1000));
    }
  }

  /**
    * A buffer with no recent snapshot produces no candle and is not emptied,
    * so its stale snapshots stay in it; a buffer with one produces exactly
    * one candle and is emptied.
    */
  lemma StepEffect(cached: seq<Snapshot>, current: seq<Candle>, now: int, seconds: nat)
    ensures (forall k | 0 <= k < |cached| :: cached[k].timestamp < now - seconds * 1000) ==>
      StepCandles(cached, current, now, seconds) == current && StepCache(cached, now, seconds) == cached
    ensures (exists k | 0 <= k < |cached| :: cached[k].timestamp >= now - seconds * 1000) ==>
      StepCache(cached, now, seconds) == [] &&
      StepCandles(cached, current, now, seconds)[..|StepCandles(cached, current, now, seconds)| - 1] == TakeLast(current, MaxCandles - 1)
  {
    if forall k | 0 <= k < |cached| :: cached[k].timestamp < now - seconds * 1000 {
      WindowEmpty(cached, now, seconds);
    }
    if exists k | 0 <= k < |cached| :: cached[k].timestamp >= now - seconds * 1000 {
      var k :| 0 <= k < |cached| && cached[k].timestamp >= now - seconds * 1000;
      WindowMembers(cached, now, seconds, cached[k]);
      var valid := Window(cached, now, seconds);
      assert |valid| > 0;
      var r := StepCandles(cached, current, now, seconds);
      assert r == TakeLast(current, MaxCandles - 1) + [BuildCandle(valid, now - seconds * 1000)];
    }
  }

  class Aggregator {
    /** The per-key buffers of pushed snapshots. */
    var cache: map<Frame, seq<Snapshot>>
    /** The values of `candles1s$` … `candles5m$`, by key: `getSubjectForKey(key).value` is `candles[key]`. */
    var candles: map<Frame, seq<Candle>>

    /** Every key has a buffer and a candle list. */
    ghost predicate Valid()
      reads this
    {
      forall f: Frame :: f in cache && f in candles
    }

    constructor ()
      ensures Valid()
      ensures forall f: Frame :: cache[f] == [] && candles[f] == []
    {
      cache := map f: Frame | f in Frames :: [];
      candles := map f: Frame | f in Frames :: [];
      forall f: Frame ensures f in Frames {
        assert Frames[IndexOf(f)] == f;
      }
    }

    /** The `latestSnapshot$` subscription: a present snapshot is pushed onto every buffer, key by key. */
    method OnSnapshot(snap: Option<Snapshot>)
      requires Valid()
      modifies this
      ensures Valid()
      ensures snap.None? ==> cache == old(cache)
      ensures snap.Some? ==> forall f: Frame :: cache[f] == old(cache)[f] + [snap.value]
      ensures candles == old(candles)
    {
      if snap.None? {
        return;
      }
      var i := 0;
      while i < |Frames|
        invariant 0 <= i <= |Frames|
        invariant Valid() && candles == old(candles)
        invariant forall j | 0 <= j < |Frames| :: cache[Frames[j]] == if j < i then old(cache)[Frames[j]] + [snap.value] else old(cache)[Frames[j]]
      {
        cache := cache[Frames[i] := cache[Frames[i]] + [snap.value]];
        i := i + 1;
      }
      forall f: Frame ensures cache[f] == old(cache)[f] + [snap.value] {
        assert Frames[IndexOf(f)] == f;
      }
    }

    /**
      * `aggregate(key, intervalInSec)`: fold the buffer's recent snapshots
      * into a candle that starts `intervalInSec` seconds ago, publish it and
      * empty the buffer; with no recent snapshot nothing changes.
      */
    method Aggregate(f: Frame, seconds: nat, now: int)
      requires Valid()
      modifies this
      ensures Valid()
      ensures cache == old(cache)[f := StepCache(old(cache)[f], now, seconds)]
      ensures candles == old(candles)[f := StepCandles(old(cache)[f], old(candles)[f], now, seconds)]
    {
      var valid := Window(cache[f], now, seconds);
      if |valid| == 0 {
        return;
      }
      var candle := BuildCandle(valid, now - seconds * 1000);
      var current := candles[f];
      candles := candles[f := TakeLast(current, MaxCandles - 1) + [candle]];
      cache := cache[f := []];
    }

    /** The one-second interval callback: aggregate every key in turn over its own interval. */
    method Tick(now: int)
      requires Valid()
      modifies this
      ensures Valid()
      ensures forall f: Frame :: cache[f] == StepCache(old(cache)[f], now, Seconds(f))
      ensures forall f: Frame :: candles[f] == StepCandles(old(cache)[f], old(candles)[f], now, Seconds(f))
    {
      ghost var cache0, candles0 := cache, candles;
      Aggregate(S1, 1, now);
      Aggregate(S5, 5, now);
      Aggregate(S15, 15, now);
      Aggregate(M1, 60, now);
      Aggregate(M5, 300, now);
      forall f: Frame ensures cache[f] == StepCache(cache0[f], now, Seconds(f)) {
        match f
        case S1 =>
        case S5 =>
        case S15 =>
        case M1 =>
        case M5 =>
      }
      forall f: Frame ensures candles[f] == StepCandles(cache0[f], candles0[f], now, Seconds(f)) {
        match f
        case S1 =>
        case S5 =>
        case S15 =>
        case M1 =>
        case M5 =>
      }
    }
  }
}
