/**
  * The signal log (`AnalysisService`): on every update of the 1-minute candle
  * list it scores the latest indicators and the detected pattern names under
  * each strategy configuration and appends the signals to a rolling log of
  * 100 entries.
  */
module AnalysisLog {
  import opened Util
  import opened CandleAggregator
  import opened TechnicalIndicators
  import opened PatternDetection
  import opened AnalysisEngine

  /** The length of the rolling signal log. */
  const MaxSignals: nat := 100

  /** The one strategy configuration the service is built with. */
  const DefaultConfig: StrategyConfig :=
    StrategyConfig("1m", 2.0, Weights(1.0, 1.0, 1.0, 1.0, 1.0), ["rsi", "macd", "pattern", "volumeSpike"], Some(LongOnly))

  // ---------------------------------------------------------------------------
  // The log
  // ---------------------------------------------------------------------------

  /** `[...current.slice(-99), signal]` */
  function Appended(signals: seq<AnalysisSignal>, signal: AnalysisSignal): (r: seq<AnalysisSignal>)
    ensures |r| <= MaxSignals
    ensures |r| == if |signals| < MaxSignals then |signals| + 1 else MaxSignals
    ensures r[|r| - 1] == signal
  {
    TakeLast(signals, MaxSignals - 1) + [signal]
  }

  /** Appending keeps exactly the most recent 100 of all signals ever appended. */
  lemma AppendedKeepsLast(signals: seq<AnalysisSignal>, signal: AnalysisSignal)
    ensures Appended(signals, signal) == TakeLast(signals + [signal], MaxSignals)
  {
    var all := signals + [signal];
    if |all| > MaxSignals {
      assert all[|all| - MaxSignals..] == signals[|signals| - (MaxSignals - 1)..] + [signal];
    } else {
      assert TakeLast(signals, MaxSignals - 1) == signals;
    }
  }

  /** The signals of a timeframe, in log order (`filter`). */
  function OfTimeframe(signals: seq<AnalysisSignal>, timeframe: string): (r: seq<AnalysisSignal>)
    ensures |r| <= |signals|
    ensures forall k | 0 <= k < |r| :: r[k].timeframe == timeframe
  {
    if |signals| == 0 then []
    else
      var rest := OfTimeframe(signals[..|signals| - 1], timeframe);
      if signals[|signals| - 1].timeframe == timeframe then rest + [signals[|signals| - 1]] else rest
  }

  /** `filter(s => s.timeframe === timeframe).at(-1)` */
  function LatestOf(signals: seq<AnalysisSignal>, timeframe: string): Option<AnalysisSignal>
  {
    var matching := OfTimeframe(signals, timeframe);
    if |matching| == 0 then None else Some(matching[|matching| - 1])
  }

  /**
    * The lookup finds the last signal of the timeframe: the answer is absent
    * exactly when no signal has it, and otherwise it sits at some position
    * after which no signal has that timeframe.
    */
  lemma {:induction false} LatestIsLastMatch(signals: seq<AnalysisSignal>, timeframe: string)
    ensures LatestOf(signals, timeframe).None? <==> forall k | 0 <= k < |signals| :: signals[k].timeframe != timeframe
    ensures LatestOf(signals, timeframe).Some? ==>
      exists i | 0 <= i < |signals| ::
        signals[i] == LatestOf(signals, timeframe).value && signals[i].timeframe == timeframe &&
        forall k | i < k < |signals| :: signals[k].timeframe != timeframe
  {
    if |signals| > 0 {
      var n := |signals| - 1;
      var init := signals[..n];
      LatestIsLastMatch(init, timeframe);
      if signals[n].timeframe != timeframe {
        assert OfTimeframe(signals, timeframe) == OfTimeframe(init, timeframe);
        assert LatestOf(signals, timeframe) == LatestOf(init, timeframe);
        if LatestOf(init, timeframe).Some? {
          var i :| 0 <= i < |init| && init[i] == LatestOf(init, timeframe).value && init[i].timeframe == timeframe &&
            forall k | i < k < |init| :: init[k].timeframe != timeframe;
          assert signals[i] == init[i];
          forall k | i < k < |signals|
            ensures signals[k].timeframe != timeframe
          {
            if k < n {
              assert signals[k] == init[k];
            }
          }
        } else {
          forall k | 0 <= k < |signals|
            ensures signals[k].timeframe != timeframe
          {
            if k < n {
              assert signals[k] == init[k];
            }
          }
        }
      } else {
        assert LatestOf(signals, timeframe) == Some(signals[n]);
      }
    }
  }

  /** After a signal is appended, the lookup for its timeframe returns it. */
  lemma LatestAfterAppend(signals: seq<AnalysisSignal>, signal: AnalysisSignal)
    ensures LatestOf(Appended(signals, signal), signal.timeframe) == Some(signal)
  {
    var r := Appended(signals, signal);
    assert r[..|r| - 1] == TakeLast(signals, MaxSignals - 1);
  }

  /** The signals of a whole update, appended one after another. */
  function AppendedAll(signals: seq<AnalysisSignal>, news: seq<AnalysisSignal>): seq<AnalysisSignal>
  {
    if |news| == 0 then signals
    else Appended(AppendedAll(signals, news[..|news| - 1]), news[|news| - 1])
  }

  /** However many signals are appended, the log holds the most recent 100 of everything, the new ones last. */
  lemma {:induction false} AppendedAllKeepsLast(signals: seq<AnalysisSignal>, news: seq<AnalysisSignal>)
    requires |signals| <= MaxSignals
    ensures AppendedAll(signals, news) == TakeLast(signals + news, MaxSignals)
  {
    if |news| == 0 {
      assert signals + news == signals;
    } else {
      var init := news[..|news| - 1];
      AppendedAllKeepsLast(signals, init);
      assert news == init + [news[|news| - 1]];
      AppendedAllStep(signals, init, news[|news| - 1]);
    }
  }

  lemma AppendedAllStep(signals: seq<AnalysisSignal>, init: seq<AnalysisSignal>, last: AnalysisSignal)
    requires AppendedAll(signals, init) == TakeLast(signals + init, MaxSignals)
    ensures AppendedAll(signals, init + [last]) == TakeLast(signals + (init + [last]), MaxSignals)
  {
    var before := signals + init;
    assert (init + [last])[..|init|] == init;
    AppendedKeepsLast(TakeLast(before, MaxSignals), last);
    TakeLastOfTakeLast(before, last);
    assert before + [last] == signals + (init + [last]);
  }

  /** Logging the signals one at a time: the prefix of k + 1 signals is the prefix of k and then the next one. */
  lemma AppendedAllPrefix(signals: seq<AnalysisSignal>, news: seq<AnalysisSignal>, k: nat)
    requires k < |news|
    ensures AppendedAll(signals, news[..k + 1]) == Appended(AppendedAll(signals, news[..k]), news[k])
  {
    assert news[..k + 1][..k] == news[..k];
  }

  lemma TakeLastOfTakeLast(s: seq<AnalysisSignal>, x: AnalysisSignal)
    ensures TakeLast(TakeLast(s, MaxSignals) + [x], MaxSignals) == TakeLast(s + [x], MaxSignals)
  {
    var t := TakeLast(s, MaxSignals);
    if |s| > MaxSignals {
      assert (t + [x])[1..] == (s + [x])[|s| + 1 - MaxSignals..];
    }
  }

  // ---------------------------------------------------------------------------
  // The candle-update handler
  // ---------------------------------------------------------------------------

  /**
    * The fields `analyzeData` reads from the record `compute` returns; the
    * empty record `{}` leaves all three undefined.
    */
  function Input(t: TechSnapshot): (ind: IndicatorInput)
    ensures t.Insufficient? ==> ind == IndicatorInput(None, None, false)
    ensures t.Indicators? ==> ind.rsi == t.rsi && ind.macdHist == Some(t.macdHist) && ind.volumeSpike == t.volumeSpike
  {
    match t
    case Insufficient => IndicatorInput(None, None, false)
    case Indicators(rsi, macdHist, _, _, _, _, _, _, volumeSpike) => IndicatorInput(rsi, Some(macdHist), volumeSpike)
  }

  /** `detectAll(candleList).map(p => p.name)` */
  function Names(patterns: seq<DetectedPattern>): (names: seq<string>)
    ensures |names| == |patterns|
    ensures forall k | 0 <= k < |names| :: names[k] == Name(patterns[k].rule)
  {
    seq(|patterns|, k requires 0 <= k < |patterns| => Name(patterns[k].rule))
  }

  /** One signal per configuration, in order, each under the configuration's own timeframe. */
  function SignalsFor(configs: seq<StrategyConfig>, ind: IndicatorInput, names: seq<string>, now: int): (r: seq<AnalysisSignal>)
    ensures |r| == |configs|
    ensures forall k | 0 <= k < |r| :: r[k] == Analysis(ind, names, configs[k], configs[k].timeframe, now)
  {
    seq(|configs|, k requires 0 <= k < |configs| => Analysis(ind, names, configs[k], configs[k].timeframe, now))
  }

  /** What one candle update appends: nothing below three candles, else the signals of every configuration. */
  function UpdateSignals(configs: seq<StrategyConfig>, candleList: seq<Candle>, now: int, sqrt: real -> real): seq<AnalysisSignal>
  {
    if |candleList| < 3 then []
    else SignalsFor(configs, Input(Compute(TakeLast(candleList, 3), sqrt)), Names(Detected(candleList)), now)
  }

  /** `compute` only ever sees three candles, so the indicator fields are all undefined. */
  lemma IndicatorsAlwaysEmpty(candleList: seq<Candle>, sqrt: real -> real)
    requires |candleList| >= 3
    ensures Input(Compute(TakeLast(candleList, 3), sqrt)) == IndicatorInput(None, None, false)
  {
  }

  /** A string lacking one letter of `sub` does not contain `sub`. */
  lemma MissingLetter(s: string, sub: string, c: char)
    requires c in sub && c !in s
    ensures !Contains(s, sub)
  {
    ContainsLetters(s, sub);
  }

  /** Lower-casing cannot produce a lower-case letter whose two cases are both absent. */
  lemma LowerLacks(s: string, c: char, upper: char)
    requires 'A' <= upper <= 'Z' && c as int == upper as int + 32
    requires c !in s && upper !in s
    ensures c !in ToLower(s)
  {
    forall k | 0 <= k < |s|
      ensures ToLower(s)[k] != c
    {
      assert s[k] != c && s[k] != upper;
    }
  }

  /** Every name but "Three Black Crows" lacks a b in either case. */
  lemma NameLacksB(r: Rule)
    requires r != ThreeBlackCrows
    ensures 'b' !in ToLower(Name(r))
  {
    var name := Name(r);
    match r
    case Doji => assert name == "Doji"; LowerLacks(name, 'b', 'B');
    case Hammer => assert name == "Hammer"; LowerLacks(name, 'b', 'B');
    case InvertedHammer => assert name == "Inverted Hammer"; LowerLacks(name, 'b', 'B');
    case Engulfing => assert name == "Engulfing"; LowerLacks(name, 'b', 'B');
    case MorningStar => assert name == "Morning Star"; LowerLacks(name, 'b', 'B');
    case EveningStar => assert name == "Evening Star"; LowerLacks(name, 'b', 'B');
    case ThreeWhiteSoldiers => assert name == "Three White Soldiers"; LowerLacks(name, 'b', 'B');
  }

  /** "Three Black Crows" has a b, but neither a u nor an i. */
  lemma CrowsLackUAndI()
    ensures 'u' !in ToLower(Name(ThreeBlackCrows)) && 'i' !in ToLower(Name(ThreeBlackCrows))
  {
    LowerLacks("Three Black Crows", 'u', 'U');
    LowerLacks("Three Black Crows", 'i', 'I');
  }

  /** No pattern name mentions either polarity. */
  lemma NamesHaveNoPolarity(r: Rule)
    ensures !IsBullishName(Name(r)) && !IsBearishName(Name(r))
  {
    var up, down := 'b', 'b';
    if r == ThreeBlackCrows {
      up, down := 'u', 'i';
      CrowsLackUAndI();
    } else {
      NameLacksB(r);
    }
    assert up in "bullish" && down in "bearish";
    MissingLetter(ToLower(Name(r)), "bullish", up);
    MissingLetter(ToLower(Name(r)), "bearish", down);
  }

  /**
    * As wired (the default configuration alone, `compute` on three candles,
    * pattern names without "bullish" or "bearish"), every update of three or
    * more candles appends one NEUTRAL signal with score 0 and no reasons.
    */
  lemma AsWiredAlwaysNeutral(candleList: seq<Candle>, now: int, sqrt: real -> real)
    requires |candleList| >= 3
    ensures UpdateSignals([DefaultConfig], candleList, now, sqrt) == [AnalysisSignal(NeutralAction, 0.0, [], now, "1m")]
  {
    var names := Names(Detected(candleList));
    forall k | 0 <= k < |names|
      ensures !IsBullishName(names[k]) && !IsBearishName(names[k])
    {
      NamesHaveNoPolarity(Detected(candleList)[k].rule);
    }
    IndicatorsAlwaysEmpty(candleList, sqrt);
    NeutralWithoutEvidence(names, DefaultConfig, "1m", now);
  }

  /** `AnalysisService`: the signal log and the strategy configurations. */
  class AnalysisService {
    /** The value of `signals$`. */
    var signals: seq<AnalysisSignal>
    var strategyConfigs: seq<StrategyConfig>

    constructor ()
      ensures signals == [] && strategyConfigs == [DefaultConfig]
    {
      signals := [];
      strategyConfigs := [DefaultConfig];
    }

    /** `getCurrentPrice`: a fixed placeholder of 1. */
    function GetCurrentPrice(): (p: real)
      ensures p == 1.0
    {
      1.0
    }

    /** `appendSignal`: the log keeps its last 99 entries and the new signal. */
    method AppendSignal(signal: AnalysisSignal)
      modifies this
      ensures signals == Appended(old(signals), signal)
      ensures strategyConfigs == old(strategyConfigs)
    {
      var current := signals;
      var updated := TakeLast(current, MaxSignals - 1) + [signal];
      signals := updated;
    }

    /** `getLatestSignal` */
    function GetLatestSignal(timeframe: string): (r: Option<AnalysisSignal>)
      reads this
      ensures r.None? <==> forall k | 0 <= k < |signals| :: signals[k].timeframe != timeframe
      ensures r.Some? ==> r.value.timeframe == timeframe
      ensures r.Some? ==>
        exists i | 0 <= i < |signals| ::
          signals[i] == r.value && signals[i].timeframe == timeframe &&
          forall k | i < k < |signals| :: signals[k].timeframe != timeframe
    {
      LatestIsLastMatch(signals, timeframe);
      LatestOf(signals, timeframe)
    }

    /** The `candles1m$` subscription: score the candle list under every configuration and log each signal. */
    method OnCandles(candleList: seq<Candle>, now: int, sqrt: real -> real)
      modifies this
      ensures signals == AppendedAll(old(signals), UpdateSignals(strategyConfigs, candleList, now, sqrt))
      ensures strategyConfigs == old(strategyConfigs)
    {
      if |candleList| < 3 {
        return;
      }
      var lastCandles := TakeLast(candleList, 3);
      var t := Compute(lastCandles, sqrt);
      var indicatorData := Input(t);
      var detected := DetectAll(candleList);
      var foundPatterns := Names(detected);
      ghost var start := signals;
      ghost var news := SignalsFor(strategyConfigs, indicatorData, foundPatterns, now);
      assert news == UpdateSignals(strategyConfigs, candleList, now, sqrt);
      var k := 0;
      while k < |strategyConfigs|
        invariant 0 <= k <= |strategyConfigs|
        invariant strategyConfigs == old(strategyConfigs)
        invariant signals == AppendedAll(start, news[..k])
      {
        var config := strategyConfigs[k];
        var signal := AnalyzeData(indicatorData, foundPatterns, config, config.timeframe, now);
        AppendedAllPrefix(start, news, k);
        AppendSignal(signal);
        k := k + 1;
      }
      assert news[..k] == news;
    }
  }
}
