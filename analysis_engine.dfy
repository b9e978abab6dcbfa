/**
  * The signal scorer (`analyzeData`): a weighted score built from the RSI,
  * MACD, volume-spike and pattern rules that a strategy enables, turned into
  * BUY, SELL or NEUTRAL by the strategy's minimum score and then filtered by
  * its trading direction.
  */
module AnalysisEngine {
  import opened Util

  datatype Weights = Weights(rsi: real, macd: real, volumeSpike: real, pattern: real, momentum: real)

  datatype DirectionFilter = LongOnly | ShortOnly

  /** `StrategyConfig`; an absent `directionFilter` is `None`. */
  datatype StrategyConfig = StrategyConfig(
    timeframe: string,
    minScore: real,
    weights: Weights,
    enabledIndicators: seq<string>,
    directionFilter: Option<DirectionFilter>)

  datatype Action = Buy | Sell | NeutralAction

  datatype AnalysisSignal = AnalysisSignal(
    action: Action,
    score: real,
    reasons: seq<string>,
    timestamp: int,
    timeframe: string)

  /**
    * The fields of the indicator record the scorer reads. `None` is an
    * undefined field; an RSI of NaN is also `None`, which scores the same
    * (NaN passes the `!== undefined` test but neither comparison).
    */
  datatype IndicatorInput = IndicatorInput(rsi: Option<real>, macdHist: Option<real>, volumeSpike: bool)

  /** The score change and the reasons one rule contributes. */
  datatype Part = Part(delta: real, reasons: seq<string>)

  const NoPart := Part(0.0, [])

  function Join(a: Part, b: Part): Part
  {
    Part(a.delta + b.delta, a.reasons + b.reasons)
  }

  lemma JoinAssociative(a: Part, b: Part, c: Part)
    ensures Join(a, Join(b, c)) == Join(Join(a, b), c)
  {
    assert a.reasons + (b.reasons + c.reasons) == (a.reasons + b.reasons) + c.reasons;
  }

  // ---------------------------------------------------------------------------
  // Case-insensitive substring search
  // ---------------------------------------------------------------------------

  /** `toLowerCase` on the ASCII letters. */
  function LowerChar(c: char): char
  {
    if 'A' <= c <= 'Z' then (c as int + 32) as char else c
  }

  function ToLower(s: string): (r: string)
    ensures |r| == |s|
    ensures forall j | 0 <= j < |s| :: r[j] == LowerChar(s[j])
  {
    seq(|s|, j requires 0 <= j < |s| => LowerChar(s[j]))
  }

  /** `sub` occurs in `s` starting at position i. */
  predicate OccursAt(s: string, sub: string, i: int)
  {
    0 <= i && i + |sub| <= |s| && s[i..i + |sub|] == sub
  }

  /** `s.includes(sub)` */
  predicate Contains(s: string, sub: string)
  {
    exists i | 0 <= i <= |s| - |sub| :: OccursAt(s, sub, i)
  }

  /** Every letter of a contained string is a letter of the containing one. */
  lemma ContainsLetters(s: string, sub: string)
    ensures Contains(s, sub) ==> forall j | 0 <= j < |sub| :: sub[j] in s
  {
    if Contains(s, sub) {
      var i :| 0 <= i <= |s| - |sub| && OccursAt(s, sub, i);
      forall j | 0 <= j < |sub|
        ensures sub[j] in s
      {
        assert s[i..i + |sub|][j] == s[i + j];
      }
    }
  }

  predicate IsBullishName(name: string)
  {
    Contains(ToLower(name), "bullish")
  }

  predicate IsBearishName(name: string)
  {
    Contains(ToLower(name), "bearish")
  }

  // ---------------------------------------------------------------------------
  // The rules
  // ---------------------------------------------------------------------------

  /** The RSI rule: below 30 adds the weight ("RSI Oversold"), above 70 subtracts it ("RSI Overbought"). */
  function RsiPart(ind: IndicatorInput, config: StrategyConfig): (p: Part)
    ensures p.reasons == [] ==> p.delta == 0.0
    ensures |p.reasons| <= 1
    ensures p.reasons != [] <==> "rsi" in config.enabledIndicators && ind.rsi.Some? && (ind.rsi.value < 30.0 || ind.rsi.value > 70.0)
  {
    if "rsi" in config.enabledIndicators && ind.rsi.Some? then
      if ind.rsi.value < 30.0 then Part(config.weights.rsi, ["RSI Oversold"])
      else if ind.rsi.value > 70.0 then Part(-config.weights.rsi, ["RSI Overbought"])
      else NoPart
    else NoPart
  }

  /** The MACD rule: a defined histogram always votes, up when positive and down otherwise. */
  function MacdPart(ind: IndicatorInput, config: StrategyConfig): (p: Part)
    ensures p.reasons == [] <==> !("macd" in config.enabledIndicators && ind.macdHist.Some?)
    ensures p.reasons == [] ==> p.delta == 0.0
    ensures |p.reasons| <= 1
  {
    if "macd" in config.enabledIndicators && ind.macdHist.Some? then
      if ind.macdHist.value > 0.0 then Part(config.weights.macd, ["MACD Bullish Crossover"])
      else Part(-config.weights.macd, ["MACD Bearish Crossover"])
    else NoPart
  }

  /** The volume rule: a spike adds the weight. */
  function VolumePart(ind: IndicatorInput, config: StrategyConfig): (p: Part)
    ensures p.reasons == [] <==> !("volumeSpike" in config.enabledIndicators && ind.volumeSpike)
    ensures p.reasons == [] ==> p.delta == 0.0
    ensures |p.reasons| <= 1
  {
    if "volumeSpike" in config.enabledIndicators && ind.volumeSpike then
      Part(config.weights.volumeSpike, ["Volume Spike Detected"])
    else NoPart
  }

  /** One pattern name: "bullish" in it adds the weight, "bearish" subtracts it; both can apply. */
  function NamePart(name: string, weight: real): Part
  {
    var up := if IsBullishName(name) then Part(weight, ["Pattern: " + name]) else NoPart;
    var down := if IsBearishName(name) then Part(-weight, ["Pattern: " + name]) else NoPart;
    Join(up, down)
  }

  /** The pattern rule over the names in order. */
  function PatternsPart(names: seq<string>, weight: real): Part
  {
    if |names| == 0 then NoPart
    else Join(PatternsPart(names[..|names| - 1], weight), NamePart(names[|names| - 1], weight))
  }

  function PatternPart(names: seq<string>, config: StrategyConfig): Part
  {
    if "pattern" in config.enabledIndicators then PatternsPart(names, config.weights.pattern) else NoPart
  }

  /** `score >= minScore` buys; otherwise `score <= -minScore` sells; otherwise neutral. */
  function FinalAction(score: real, minScore: real): (a: Action)
    ensures a == Buy <==> score >= minScore
    ensures a == Sell <==> score < minScore && score <= -minScore
  {
    if score >= minScore then Buy else if score <= -minScore then Sell else NeutralAction
  }

  /** Long-only turns a SELL into NEUTRAL, short-only a BUY. */
  function Filtered(filter: Option<DirectionFilter>, a: Action): (r: Action)
    ensures r == a || r == NeutralAction
    ensures r != a <==> (filter == Some(LongOnly) && a == Sell) || (filter == Some(ShortOnly) && a == Buy)
  {
    if filter == Some(LongOnly) && a == Sell then NeutralAction
    else if filter == Some(ShortOnly) && a == Buy then NeutralAction
    else a
  }

  /** All four rules, in the order the scorer applies them. */
  function Total(ind: IndicatorInput, names: seq<string>, config: StrategyConfig): Part
  {
    Join(Join(Join(RsiPart(ind, config), MacdPart(ind, config)), VolumePart(ind, config)), PatternPart(names, config))
  }

  /** What `analyzeData` returns at clock reading `now`. */
  function Analysis(ind: IndicatorInput, names: seq<string>, config: StrategyConfig, timeframe: string, now: int): AnalysisSignal
  {
    var total := Total(ind, names, config);
    AnalysisSignal(Filtered(config.directionFilter, FinalAction(total.delta, config.minScore)), total.delta, total.reasons, now, timeframe)
  }

  /** The RSI, MACD and volume-spike steps of `analyzeData`, starting from score 0 and no reasons. */
  method ScoreIndicators(ind: IndicatorInput, config: StrategyConfig) returns (score: real, reasons: seq<string>)
    ensures Part(score, reasons) == Join(Join(RsiPart(ind, config), MacdPart(ind, config)), VolumePart(ind, config))
  {
    score := 0.0;
    reasons := [];
    if "rsi" in config.enabledIndicators && ind.rsi.Some? {
      if ind.rsi.value < 30.0 {
        score := score + config.weights.rsi;
        reasons := reasons + ["RSI Oversold"];
      }
      if ind.rsi.value > 70.0 {
        score := score - config.weights.rsi;
        reasons := reasons + ["RSI Overbought"];
      }
    }
    assert Part(score, reasons) == RsiPart(ind, config);
    if "macd" in config.enabledIndicators && ind.macdHist.Some? {
      if ind.macdHist.value > 0.0 {
        score := score + config.weights.macd;
        reasons := reasons + ["MACD Bullish Crossover"];
      } else {
        score := score - config.weights.macd;
        reasons := reasons + ["MACD Bearish Crossover"];
      }
    }
    assert Part(score, reasons) == Join(RsiPart(ind, config), MacdPart(ind, config));
    if "volumeSpike" in config.enabledIndicators && ind.volumeSpike {
      score := score + config.weights.volumeSpike;
      reasons := reasons + ["Volume Spike Detected"];
    }
  }

  /** One pass of the pattern loop: the name's polarity tests applied to the running score and reasons. */
  method ScoreName(score0: real, reasons0: seq<string>, name: string, weight: real) returns (score: real, reasons: seq<string>)
    ensures Part(score, reasons) == Join(Part(score0, reasons0), NamePart(name, weight))
  {
    score, reasons := score0, reasons0;
    if IsBullishName(name) {
      score := score + weight;
      reasons := reasons + ["Pattern: " + name];
    }
    if IsBearishName(name) {
      score := score - weight;
      reasons := reasons + ["Pattern: " + name];
    }
  }

  /** The pattern loop of `analyzeData` over the names in order. */
  method ScorePatterns(score0: real, reasons0: seq<string>, names: seq<string>, weight: real) returns (score: real, reasons: seq<string>)
    ensures Part(score, reasons) == Join(Part(score0, reasons0), PatternsPart(names, weight))
  {
    score, reasons := score0, reasons0;
    ghost var base := Part(score0, reasons0);
    var j := 0;
    while j < |names|
      invariant 0 <= j <= |names|
      invariant Part(score, reasons) == Join(base, PatternsPart(names[..j], weight))
    {
      ghost var before := PatternsPart(names[..j], weight);
      assert names[..j + 1][..j] == names[..j];
      assert PatternsPart(names[..j + 1], weight) == Join(before, NamePart(names[j], weight));
      score, reasons := ScoreName(score, reasons, names[j], weight);
      JoinAssociative(base, before, NamePart(names[j], weight));
      j := j + 1;
    }
    assert names[..j] == names;
  }

  /** `analyzeData`: the score and reasons accumulated rule by rule, then the decision and the filter. */
  method AnalyzeData(ind: IndicatorInput, names: seq<string>, config: StrategyConfig, timeframe: string, now: int)
    returns (signal: AnalysisSignal)
    ensures signal == Analysis(ind, names, config, timeframe, now)
  {
    var score, reasons := ScoreIndicators(ind, config);
    if "pattern" in config.enabledIndicators {
      score, reasons := ScorePatterns(score, reasons, names, config.weights.pattern);
    }
    var finalAction := if score >= config.minScore then Buy else if score <= -config.minScore then Sell else NeutralAction;
    var action :=
      if config.directionFilter == Some(LongOnly) && finalAction == Sell then NeutralAction
      else if config.directionFilter == Some(ShortOnly) && finalAction == Buy then NeutralAction
      else finalAction;
    signal := AnalysisSignal(action, score, reasons, now, timeframe);
  }

  // ---------------------------------------------------------------------------
  // Properties
  // ---------------------------------------------------------------------------

  /** Every score change of the pattern rule comes with a reason. */
  lemma {:induction false} PatternsPartReasons(names: seq<string>, weight: real)
    ensures PatternsPart(names, weight).reasons == [] ==> PatternsPart(names, weight).delta == 0.0
  {
    if |names| > 0 {
      PatternsPartReasons(names[..|names| - 1], weight);
    }
  }

  /** Names mentioning neither polarity contribute nothing. */
  lemma {:induction false} PatternsPartNeutral(names: seq<string>, weight: real)
    requires forall j | 0 <= j < |names| :: !IsBullishName(names[j]) && !IsBearishName(names[j])
    ensures PatternsPart(names, weight) == NoPart
  {
    if |names| > 0 {
      PatternsPartNeutral(names[..|names| - 1], weight);
    }
  }

  /** Each contribution pushes a reason, so a signal without reasons has score 0. */
  lemma NoReasonsNoScore(ind: IndicatorInput, names: seq<string>, config: StrategyConfig)
    ensures Total(ind, names, config).reasons == [] ==> Total(ind, names, config).delta == 0.0
  {
    PatternsPartReasons(names, config.weights.pattern);
  }

  /** With none of the four rules enabled the score is 0 and there are no reasons. */
  lemma NothingEnabled(ind: IndicatorInput, names: seq<string>, config: StrategyConfig, timeframe: string, now: int)
    requires forall key | key in config.enabledIndicators :: key != "rsi" && key != "macd" && key != "volumeSpike" && key != "pattern"
    ensures Analysis(ind, names, config, timeframe, now).score == 0.0
    ensures Analysis(ind, names, config, timeframe, now).reasons == []
  {
  }

  /** The filter never creates a trade: the action is the unfiltered decision or NEUTRAL, and the score is untouched. */
  lemma FilterOnlyNeutralises(ind: IndicatorInput, names: seq<string>, config: StrategyConfig, timeframe: string, now: int)
    ensures var s := Analysis(ind, names, config, timeframe, now);
      var raw := FinalAction(s.score, config.minScore);
      (s.action == raw || s.action == NeutralAction) &&
      (config.directionFilter == Some(LongOnly) ==> s.action != Sell) &&
      (config.directionFilter == Some(ShortOnly) ==> s.action != Buy)
  {
  }

  /** Without bullish or bearish names and with the indicator fields undefined, the signal is neutral with score 0. */
  lemma NeutralWithoutEvidence(names: seq<string>, config: StrategyConfig, timeframe: string, now: int)
    requires config.minScore > 0.0
    requires forall j | 0 <= j < |names| :: !IsBullishName(names[j]) && !IsBearishName(names[j])
    ensures var s := Analysis(IndicatorInput(None, None, false), names, config, timeframe, now);
      s.score == 0.0 && s.reasons == [] && s.action == NeutralAction
  {
    PatternsPartNeutral(names, config.weights.pattern);
  }
}
