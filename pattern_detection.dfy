/**
  * The candlestick pattern detector (`PatternDetectionService`): a scan over
  * every candle from the third on, testing eight comparison-only rules
  * against the candle and the one or two before it.
  */
module PatternDetection {
  import opened Util
  import opened CandleAggregator

  datatype Direction = Bullish | Bearish | Neutral

  /** The eight rules, in the order `detectAll` tests them. */
  datatype Rule =
    | Doji
    | Hammer
    | InvertedHammer
    | Engulfing
    | MorningStar
    | EveningStar
    | ThreeWhiteSoldiers
    | ThreeBlackCrows

  const Rules: seq<Rule> :=
    [Doji, Hammer, InvertedHammer, Engulfing, MorningStar, EveningStar, ThreeWhiteSoldiers, ThreeBlackCrows]

  /** The position of a rule in the scan order. */
  function Rank(r: Rule): (k: nat)
    ensures k < |Rules| && Rules[k] == r
  {
    match r
    case Doji => 0
    case Hammer => 1
    case InvertedHammer => 2
    case Engulfing => 3
    case MorningStar => 4
    case EveningStar => 5
    case ThreeWhiteSoldiers => 6
    case ThreeBlackCrows => 7
  }

  /** The `name` each rule reports. */
  function Name(r: Rule): string
  {
    match r
    case Doji => "Doji"
    case Hammer => "Hammer"
    case InvertedHammer => "Inverted Hammer"
    case Engulfing => "Engulfing"
    case MorningStar => "Morning Star"
    case EveningStar => "Evening Star"
    case ThreeWhiteSoldiers => "Three White Soldiers"
    case ThreeBlackCrows => "Three Black Crows"
  }

  /** The fixed strength of each rule. */
  function Strength(r: Rule): nat
  {
    match r
    case Doji => 3
    case Hammer => 6
    case InvertedHammer => 5
    case Engulfing => 7
    case MorningStar => 8
    case EveningStar => 8
    case ThreeWhiteSoldiers => 9
    case ThreeBlackCrows => 9
  }

  /** How many candles, ending at the scan index, a rule looks at. */
  function Span(r: Rule): nat
  {
    match r
    case Doji => 1
    case Hammer => 1
    case InvertedHammer => 1
    case Engulfing => 2
    case _ => 3
  }

  /** `DetectedPattern`; its `name` is `Name(rule)`. */
  datatype DetectedPattern = DetectedPattern(
    rule: Rule,
    strength: nat,
    direction: Direction,
    candleIndexes: seq<nat>,
    timestamp: int)

  // ---------------------------------------------------------------------------
  // The rules
  // ---------------------------------------------------------------------------

  /** A body of at most a tenth of the range. */
  predicate IsDoji(c: Candle)
  {
    Abs(c.close - c.open) <= 0.1 * (c.high - c.low)
  }

  /** A green candle whose "lower shadow" (measured as low minus the body bottom) exceeds twice the body. */
  predicate IsHammer(c: Candle)
  {
    var body := Abs(c.close - c.open);
    var lowerShadow := if c.open > c.close then c.low - c.close else c.low - c.open;
    lowerShadow > 2.0 * body && c.close > c.open
  }

  /** A green candle whose "upper shadow" (body top minus high, taken absolutely) exceeds twice the body. */
  predicate IsInvertedHammer(c: Candle)
  {
    var body := Abs(c.close - c.open);
    var upperShadow := if c.open > c.close then c.open - c.high else c.close - c.high;
    Abs(upperShadow) > 2.0 * body && c.close > c.open
  }

  predicate IsBullishEngulfing(c1: Candle, c2: Candle)
  {
    c1.close < c1.open && c2.close > c2.open && c2.open < c1.close && c2.close > c1.open
  }

  predicate IsBearishEngulfing(c1: Candle, c2: Candle)
  {
    c1.close > c1.open && c2.close < c2.open && c2.open > c1.close && c2.close < c1.open
  }

  predicate IsEngulfing(c1: Candle, c2: Candle)
  {
    IsBullishEngulfing(c1, c2) || IsBearishEngulfing(c1, c2)
  }

  /** `engulfingDirection`: bullish exactly when the second candle closes above its open. */
  function EngulfingDirection(c1: Candle, c2: Candle): Direction
  {
    if c2.close > c2.open then Bullish else Bearish
  }

  predicate IsMorningStar(c1: Candle, c2: Candle, c3: Candle)
  {
    c1.close < c1.open && IsDoji(c2) && c3.close > c3.open && c3.close > c1.open
  }

  predicate IsEveningStar(c1: Candle, c2: Candle, c3: Candle)
  {
    c1.close > c1.open && IsDoji(c2) && c3.close < c3.open && c3.close < c1.open
  }

  predicate IsThreeWhiteSoldiers(candles: seq<Candle>, i: nat)
    requires 2 <= i < |candles|
  {
    candles[i - 2].close < candles[i - 2].open &&
    candles[i - 1].close > candles[i - 1].open &&
    candles[i].close > candles[i].open &&
    candles[i].close > candles[i - 1].close
  }

  predicate IsThreeBlackCrows(candles: seq<Candle>, i: nat)
    requires 2 <= i < |candles|
  {
    candles[i - 2].close > candles[i - 2].open &&
    candles[i - 1].close < candles[i - 1].open &&
    candles[i].close < candles[i].open &&
    candles[i].close < candles[i - 1].close
  }

  /** Whether rule r fires at scan index i. */
  predicate Matches(candles: seq<Candle>, r: Rule, i: nat)
    requires 2 <= i < |candles|
  {
    match r
    case Doji => IsDoji(candles[i])
    case Hammer => IsHammer(candles[i])
    case InvertedHammer => IsInvertedHammer(candles[i])
    case Engulfing => IsEngulfing(candles[i - 1], candles[i])
    case MorningStar => IsMorningStar(candles[i - 2], candles[i - 1], candles[i])
    case EveningStar => IsEveningStar(candles[i - 2], candles[i - 1], candles[i])
    case ThreeWhiteSoldiers => IsThreeWhiteSoldiers(candles, i)
    case ThreeBlackCrows => IsThreeBlackCrows(candles, i)
  }

  /** The direction each rule reports at index i. */
  function DirectionOf(candles: seq<Candle>, r: Rule, i: nat): Direction
    requires 2 <= i < |candles|
  {
    match r
    case Doji => Neutral
    case Engulfing => EngulfingDirection(candles[i - 1], candles[i])
    case EveningStar => Bearish
    case ThreeBlackCrows => Bearish
    case _ => Bullish
  }

  /** The indexes a rule reports: the last `Span(r)` indexes up to i. */
  function IndexesOf(r: Rule, i: nat): seq<nat>
    requires i >= 2
  {
    match r
    case Doji => [i]
    case Hammer => [i]
    case InvertedHammer => [i]
    case Engulfing => [i - 1, i]
    case _ => [i - 2, i - 1, i]
  }

  /** `buildPattern` with the arguments `detectAll` passes for rule r at index i. */
  function Build(candles: seq<Candle>, r: Rule, i: nat): DetectedPattern
    requires 2 <= i < |candles|
  {
    DetectedPattern(r, Strength(r), DirectionOf(candles, r, i), IndexesOf(r, i), candles[i].timestamp)
  }

  // ---------------------------------------------------------------------------
  // The scan
  // ---------------------------------------------------------------------------

  /** Rule r's contribution at index i: its pattern when it fires, nothing otherwise. */
  function Hit(candles: seq<Candle>, r: Rule, i: nat): seq<DetectedPattern>
    requires 2 <= i < |candles|
  {
    if Matches(candles, r, i) then [Build(candles, r, i)] else []
  }

  /** Each rule's contribution, with `buildPattern`'s arguments written out as `detectAll` passes them. */
  lemma HitsAt(candles: seq<Candle>, i: nat)
    requires 2 <= i < |candles|
    ensures var c, c1, c2 := candles[i], candles[i - 1], candles[i - 2];
      && Hit(candles, Rules[0], i) == (if IsDoji(c) then [DetectedPattern(Doji, 3, Neutral, [i], c.timestamp)] else [])
      && Hit(candles, Rules[1], i) == (if IsHammer(c) then [DetectedPattern(Hammer, 6, Bullish, [i], c.timestamp)] else [])
      && Hit(candles, Rules[2], i) == (if IsInvertedHammer(c) then [DetectedPattern(InvertedHammer, 5, Bullish, [i], c.timestamp)] else [])
      && Hit(candles, Rules[3], i) == (if IsEngulfing(c1, c) then [DetectedPattern(Engulfing, 7, EngulfingDirection(c1, c), [i - 1, i], c.timestamp)] else [])
      && Hit(candles, Rules[4], i) == (if IsMorningStar(c2, c1, c) then [DetectedPattern(MorningStar, 8, Bullish, [i - 2, i - 1, i], c.timestamp)] else [])
      && Hit(candles, Rules[5], i) == (if IsEveningStar(c2, c1, c) then [DetectedPattern(EveningStar, 8, Bearish, [i - 2, i - 1, i], c.timestamp)] else [])
      && Hit(candles, Rules[6], i) == (if IsThreeWhiteSoldiers(candles, i) then [DetectedPattern(ThreeWhiteSoldiers, 9, Bullish, [i - 2, i - 1, i], c.timestamp)] else [])
      && Hit(candles, Rules[7], i) == (if IsThreeBlackCrows(candles, i) then [DetectedPattern(ThreeBlackCrows, 9, Bearish, [i - 2, i - 1, i], c.timestamp)] else [])
  {
  }

  /**
    * The scan up to a point: the matches at every index from 2 below i,
    * then those of the first k rules at index i.
    */
  function ScanTo(candles: seq<Candle>, i: nat, k: nat): seq<DetectedPattern>
    requires 2 <= i < |candles| && k <= |Rules|
    decreases i, k
  {
    if k > 0 then ScanTo(candles, i, k - 1) + Hit(candles, Rules[k - 1], i)
    else if i == 2 then []
    else ScanTo(candles, i - 1, |Rules|)
  }

  /** What `detectAll` returns: nothing for fewer than five candles, otherwise the whole scan. */
  function Detected(candles: seq<Candle>): seq<DetectedPattern>
  {
    if |candles| < 5 then [] else ScanTo(candles, |candles| - 1, |Rules|)
  }

  /** `detectAll`: the scan loop, pushing each match as it is found. */
  method DetectAll(candles: seq<Candle>) returns (patterns: seq<DetectedPattern>)
    ensures patterns == Detected(candles)
    ensures |candles| < 5 ==> patterns == []
  {
    patterns := [];
    if |candles| < 5 {
      return;
    }
    var i := 2;
    while i < |candles|
      invariant 2 <= i <= |candles|
      invariant patterns == if i == 2 then [] else ScanTo(candles, i - 1, |Rules|)
    {
      assert patterns == ScanTo(candles, i, 0);
      patterns := DetectAt(candles, i, patterns);
      i := i + 1;
    }
  }

  /** The body of `detectAll`'s loop at index i: the eight rule tests, each pushing its pattern when it fires. */
  method DetectAt(candles: seq<Candle>, i: nat, patterns: seq<DetectedPattern>) returns (ps: seq<DetectedPattern>)
    requires 2 <= i < |candles|
    requires patterns == ScanTo(candles, i, 0)
    ensures ps == ScanTo(candles, i, |Rules|)
  {
    ps := patterns;
    var c, c1, c2 := candles[i], candles[i - 1], candles[i - 2];
    HitsAt(candles, i);
    if IsDoji(c) {
      ps := ps + [DetectedPattern(Doji, 3, Neutral, [i], c.timestamp)];
    }
    assert ps == ScanTo(candles, i, 1);
    if IsHammer(c) {
      ps := ps + [DetectedPattern(Hammer, 6, Bullish, [i], c.timestamp)];
    }
    assert ps == ScanTo(candles, i, 2);
    if IsInvertedHammer(c) {
      ps := ps + [DetectedPattern(InvertedHammer, 5, Bullish, [i], c.timestamp)];
    }
    assert ps == ScanTo(candles, i, 3);
    if IsEngulfing(c1, c) {
      ps := ps + [DetectedPattern(Engulfing, 7, EngulfingDirection(c1, c), [i - 1, i], c.timestamp)];
    }
    assert ps == ScanTo(candles, i, 4);
    if IsMorningStar(c2, c1, c) {
      ps := ps + [DetectedPattern(MorningStar, 8, Bullish, [i - 2, i - 1, i], c.timestamp)];
    }
    assert ps == ScanTo(candles, i, 5);
    if IsEveningStar(c2, c1, c) {
      ps := ps + [DetectedPattern(EveningStar, 8, Bearish, [i - 2, i - 1, i], c.timestamp)];
    }
    assert ps == ScanTo(candles, i, 6);
    if IsThreeWhiteSoldiers(candles, i) {
      ps := ps + [DetectedPattern(ThreeWhiteSoldiers, 9, Bullish, [i - 2, i - 1, i], c.timestamp)];
    }
    assert ps == ScanTo(candles, i, 7);
    if IsThreeBlackCrows(candles, i) {
      ps := ps + [DetectedPattern(ThreeBlackCrows, 9, Bearish, [i - 2, i - 1, i], c.timestamp)];
    }
  }

  // ---------------------------------------------------------------------------
  // Properties of the scan
  // ---------------------------------------------------------------------------

  function LastIndex(p: DetectedPattern): int
  {
    if |p.candleIndexes| == 0 then -1 else p.candleIndexes[|p.candleIndexes| - 1]
  }

  /**
    * A reported pattern is well formed: its indexes are consecutive, end at
    * a scan index inside the series, cover the rule's span and carry that
    * candle's timestamp; its strength and direction are the rule's; and the
    * rule really fires there.
    */
  predicate WellFormed(candles: seq<Candle>, p: DetectedPattern)
  {
    var idx := p.candleIndexes;
    |idx| == Span(p.rule) &&
    (forall k | 0 <= k < |idx| - 1 :: idx[k + 1] == idx[k] + 1) &&
    2 <= LastIndex(p) < |candles| &&
    p.timestamp == candles[LastIndex(p)].timestamp &&
    p.strength == Strength(p.rule) && 3 <= p.strength <= 9 &&
    p.direction == DirectionOf(candles, p.rule, LastIndex(p)) &&
    Matches(candles, p.rule, LastIndex(p))
  }

  /** Scan order: by ascending index, and by rule order within one index. */
  predicate Before(p: DetectedPattern, q: DetectedPattern)
  {
    LastIndex(p) < LastIndex(q) || (LastIndex(p) == LastIndex(q) && Rank(p.rule) < Rank(q.rule))
  }

  predicate Ordered(ps: seq<DetectedPattern>)
  {
    forall a, b | 0 <= a < b < |ps| :: Before(ps[a], ps[b])
  }

  /** Everything the scan has reported up to (i, k) is well formed. */
  lemma {:induction false} ScanToWellFormed(candles: seq<Candle>, i: nat, k: nat)
    requires 2 <= i < |candles| && k <= |Rules|
    ensures forall p | p in ScanTo(candles, i, k) :: WellFormed(candles, p)
    decreases i, k
  {
    if k > 0 {
      ScanToWellFormed(candles, i, k - 1);
    } else if i > 2 {
      ScanToWellFormed(candles, i - 1, |Rules|);
    }
  }

  /** Everything the scan has reported up to (i, k) lies before that point: at a lower index, or at i with a rule before the k-th. */
  lemma {:induction false} ScanToBefore(candles: seq<Candle>, i: nat, k: nat)
    requires 2 <= i < |candles| && k <= |Rules|
    ensures forall p | p in ScanTo(candles, i, k) :: LastIndex(p) < i || (LastIndex(p) == i && Rank(p.rule) < k)
    decreases i, k
  {
    if k > 0 {
      ScanToBefore(candles, i, k - 1);
    } else if i > 2 {
      ScanToBefore(candles, i - 1, |Rules|);
    }
  }

  /** The scan reports in order. */
  lemma {:induction false} ScanToOrdered(candles: seq<Candle>, i: nat, k: nat)
    requires 2 <= i < |candles| && k <= |Rules|
    ensures Ordered(ScanTo(candles, i, k))
    decreases i, k
  {
    if k > 0 {
      ScanToOrdered(candles, i, k - 1);
      ScanToBefore(candles, i, k - 1);
      var front, back := ScanTo(candles, i, k - 1), Hit(candles, Rules[k - 1], i);
      forall a, b | 0 <= a < b < |front + back|
        ensures Before((front + back)[a], (front + back)[b])
      {
        if b >= |front| && a < |front| {
          assert front[a] in front;
        }
      }
    } else if i > 2 {
      ScanToOrdered(candles, i - 1, |Rules|);
    }
  }

  /** Every rule firing at an index the scan has passed is reported. */
  lemma {:induction false} ScanToComplete(candles: seq<Candle>, i: nat, k: nat, j: nat, r: Rule)
    requires 2 <= j <= i < |candles| && k <= |Rules|
    requires j < i || Rank(r) < k
    requires Matches(candles, r, j)
    ensures Build(candles, r, j) in ScanTo(candles, i, k)
    decreases i, k
  {
    if k > 0 {
      if j == i && Rank(r) == k - 1 {
        assert Hit(candles, r, i) == [Build(candles, r, i)];
      } else {
        ScanToComplete(candles, i, k - 1, j, r);
      }
    } else {
      ScanToComplete(candles, i - 1, |Rules|, j, r);
    }
  }

  /** Every reported pattern is well formed. */
  lemma DetectedWellFormed(candles: seq<Candle>)
    ensures forall p | p in Detected(candles) :: WellFormed(candles, p)
  {
    if |candles| >= 5 {
      ScanToWellFormed(candles, |candles| - 1, |Rules|);
    }
  }

  /** The output is in scan order: ascending index, then rule order. */
  lemma DetectedOrdered(candles: seq<Candle>)
    ensures Ordered(Detected(candles))
  {
    if |candles| >= 5 {
      ScanToOrdered(candles, |candles| - 1, |Rules|);
    }
  }

  /** With at least five candles, each rule firing at an index from 2 on is in the output. */
  lemma DetectedComplete(candles: seq<Candle>, i: nat, r: Rule)
    requires 5 <= |candles| && 2 <= i < |candles|
    requires Matches(candles, r, i)
    ensures Build(candles, r, i) in Detected(candles)
  {
    ScanToComplete(candles, |candles| - 1, |Rules|, i, r);
  }

  // ---------------------------------------------------------------------------
  // Properties of the rules
  // ---------------------------------------------------------------------------

  /** Open 100, high 105, low 95, close 96 is no Doji: its body 4 exceeds a tenth of its range 10. */
  lemma DojiExample()
    ensures !IsDoji(Candle(0, 100.0, 105.0, 95.0, 96.0, 0.0))
  {
  }

  /** The shadow is measured downwards from the low, so a candle whose low is at or below its open is never a Hammer. */
  lemma HammerNeedsLowAboveOpen(c: Candle)
    ensures c.low <= c.open ==> !IsHammer(c)
  {
  }

  /** An engulfing pair has opposite colours, and its direction is the colour of the second candle. */
  lemma EngulfingColours(c1: Candle, c2: Candle)
    ensures IsEngulfing(c1, c2) ==>
      (c1.close < c1.open && c2.close > c2.open) || (c1.close > c1.open && c2.close < c2.open)
    ensures IsEngulfing(c1, c2) ==> (EngulfingDirection(c1, c2) == Bullish <==> c2.close > c2.open)
  {
  }

  /** Morning and Evening Star exclude each other, and so do Three White Soldiers and Three Black Crows. */
  lemma ExclusiveRules(candles: seq<Candle>, i: nat)
    requires 2 <= i < |candles|
    ensures !(Matches(candles, MorningStar, i) && Matches(candles, EveningStar, i))
    ensures !(Matches(candles, ThreeWhiteSoldiers, i) && Matches(candles, ThreeBlackCrows, i))
  {
  }
}
