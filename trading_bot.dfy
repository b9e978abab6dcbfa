/**
  * The paper-trading bot (`TradingBotService`): a once-a-second tick that
  * manages at most one open position, closing it on stop-loss or
  * take-profit, and otherwise, after a cooldown, enters on the latest signal
  * of the first configured timeframe that qualifies.
  */
module TradingBot {
  import opened Util
  import opened AnalysisEngine
  import opened AnalysisLog

  datatype Status = Idle | Running | CoolingDown

  /** `'long-only' | 'short-only' | 'both'` */
  datatype TradeDirection = OnlyLong | OnlyShort | BothDirections

  datatype ExitResult = TakeProfit | StopLoss | Manual

  /** `TradingBotConfig`; `riskPerTradePct` is carried but never read. */
  datatype TradingBotConfig = TradingBotConfig(
    enabledTimeframes: seq<string>,
    minScore: real,
    cooldownMs: int,
    direction: TradeDirection,
    stopLossPct: real,
    takeProfitPct: real,
    riskPerTradePct: real)

  /** `Partial<TradingBotConfig>`: `None` is a key the overrides leave out. */
  datatype ConfigOverrides = ConfigOverrides(
    enabledTimeframes: Option<seq<string>>,
    minScore: Option<real>,
    cooldownMs: Option<int>,
    direction: Option<TradeDirection>,
    stopLossPct: Option<real>,
    takeProfitPct: Option<real>,
    riskPerTradePct: Option<real>)

  const NoOverrides := ConfigOverrides(None, None, None, None, None, None, None)

  /** The trading-bot `BotTrade`: an entry, with the exit fields filled in when it closes. */
  datatype BotTrade = BotTrade(
    action: Action,
    score: real,
    reason: seq<string>,
    timeframe: string,
    timestamp: int,
    entryPrice: real,
    exitPrice: Option<real>,
    result: Option<ExitResult>,
    pnl: Option<real>)

  const DefaultBotConfig := TradingBotConfig(["1m", "5s"], 3.0, 30000, BothDirections, 0.3, 0.6, 1.0)

  /** The length of the closed-trade list. */
  const MaxTrades: nat := 100

  /** The bot's fields: `isRunning`, `lastTradeTime`, `currentPosition`, `config` and the values of `trades$` and `status$`. */
  datatype BotState = BotState(
    isRunning: bool,
    lastTradeTime: int,
    currentPosition: Option<BotTrade>,
    config: TradingBotConfig,
    trades: seq<BotTrade>,
    status: Status)

  const InitialState := BotState(false, 0, None, DefaultBotConfig, [], Idle)

  /** An open position has a non-zero entry price and no exit yet; the closed list is capped. */
  predicate ValidState(s: BotState)
  {
    |s.trades| <= MaxTrades &&
    (s.currentPosition.Some? ==>
      s.currentPosition.value.entryPrice != 0.0 && s.currentPosition.value.exitPrice.None? &&
      s.currentPosition.value.result.None? && s.currentPosition.value.pnl.None?)
  }

  // ---------------------------------------------------------------------------
  // The steps, as functions of the fields
  // ---------------------------------------------------------------------------

  /** `{ ...config, ...configOverrides }`: a key present in the overrides wins. */
  function Merge(config: TradingBotConfig, o: ConfigOverrides): TradingBotConfig
  {
    TradingBotConfig(
      if o.enabledTimeframes.Some? then o.enabledTimeframes.value else config.enabledTimeframes,
      if o.minScore.Some? then o.minScore.value else config.minScore,
      if o.cooldownMs.Some? then o.cooldownMs.value else config.cooldownMs,
      if o.direction.Some? then o.direction.value else config.direction,
      if o.stopLossPct.Some? then o.stopLossPct.value else config.stopLossPct,
      if o.takeProfitPct.Some? then o.takeProfitPct.value else config.takeProfitPct,
      if o.riskPerTradePct.Some? then o.riskPerTradePct.value else config.riskPerTradePct)
  }

  /** Merging no overrides keeps the configuration, and merging the same overrides twice is merging them once. */
  lemma MergeLaws(config: TradingBotConfig, o: ConfigOverrides)
    ensures Merge(config, NoOverrides) == config
    ensures Merge(Merge(config, o), o) == Merge(config, o)
  {
  }

  /** `[...trades.slice(-99), completedTrade]` */
  function Archived(trades: seq<BotTrade>, t: BotTrade): (r: seq<BotTrade>)
    ensures 0 < |r| <= MaxTrades && r[|r| - 1] == t
  {
    TakeLast(trades, MaxTrades - 1) + [t]
  }

  /** The closed-trade list is always the most recent 100 trades with the new one last. */
  lemma ArchivedKeepsLast(trades: seq<BotTrade>, t: BotTrade)
    ensures Archived(trades, t) == TakeLast(trades + [t], MaxTrades)
  {
    var all := trades + [t];
    if |all| > MaxTrades {
      assert all[|all| - MaxTrades..] == trades[|trades| - (MaxTrades - 1)..] + [t];
    } else {
      assert TakeLast(trades, MaxTrades - 1) == trades;
    }
  }

  /** The move since entry, in percent, signed so that a gain of the position is positive. */
  function PriceDiffPct(entry: real, currentPrice: real, isLong: bool): real
    requires entry != 0.0
  {
    ((currentPrice - entry) / entry) * 100.0 * (if isLong then 1.0 else -1.0)
  }

  /** A long position gains when the price rises and a short one when it falls. */
  lemma PriceDiffSign(entry: real, currentPrice: real, isLong: bool)
    requires entry > 0.0
    ensures PriceDiffPct(entry, currentPrice, isLong) > 0.0 <==> (if isLong then currentPrice > entry else currentPrice < entry)
  {
    var q := (currentPrice - entry) / entry;
    assert q > 0.0 <==> currentPrice > entry by {
      assert q * entry == currentPrice - entry;
    }
    assert q < 0.0 <==> currentPrice < entry by {
      assert q * entry == currentPrice - entry;
    }
  }

  /** A signal the tick may enter on: present, scoring at least `minScore`, not NEUTRAL, and allowed by the direction. */
  predicate Eligible(config: TradingBotConfig, signal: Option<AnalysisSignal>)
  {
    signal.Some? &&
    !(signal.value.score < config.minScore || signal.value.action == NeutralAction) &&
    !((config.direction == OnlyLong && signal.value.action == Sell) ||
      (config.direction == OnlyShort && signal.value.action == Buy))
  }

  /** The latest signal of the first enabled timeframe, from position k on, that is eligible. */
  function FirstEligible(config: TradingBotConfig, log: seq<AnalysisSignal>, k: nat): Option<AnalysisSignal>
    decreases |config.enabledTimeframes| - k
  {
    if k >= |config.enabledTimeframes| then None
    else if Eligible(config, LatestOf(log, config.enabledTimeframes[k])) then LatestOf(log, config.enabledTimeframes[k])
    else FirstEligible(config, log, k + 1)
  }

  /**
    * The entry signal is the latest signal of an enabled timeframe that is
    * eligible while those of all earlier timeframes are not; there is none
    * exactly when no timeframe qualifies.
    */
  lemma {:induction false} FirstEligibleIsFirst(config: TradingBotConfig, log: seq<AnalysisSignal>, k: nat)
    requires k <= |config.enabledTimeframes|
    ensures var tfs := config.enabledTimeframes;
      FirstEligible(config, log, k).None? <==> forall j | k <= j < |tfs| :: !Eligible(config, LatestOf(log, tfs[j]))
    ensures var tfs := config.enabledTimeframes;
      FirstEligible(config, log, k).Some? ==>
        exists i | k <= i < |tfs| ::
          FirstEligible(config, log, k) == LatestOf(log, tfs[i]) && Eligible(config, LatestOf(log, tfs[i])) &&
          forall j | k <= j < i :: !Eligible(config, LatestOf(log, tfs[j]))
    decreases |config.enabledTimeframes| - k
  {
    if k < |config.enabledTimeframes| && !Eligible(config, LatestOf(log, config.enabledTimeframes[k])) {
      FirstEligibleIsFirst(config, log, k + 1);
    }
  }

  /** `executeTrade`: with no position open and a non-zero price, open one on the signal. */
  function Execute(s: BotState, signal: AnalysisSignal, currentPrice: real, now: int): BotState
  {
    if s.currentPosition.Some? then s
    else if currentPrice == 0.0 then s
    else s.(currentPosition := Some(BotTrade(signal.action, signal.score, signal.reasons, signal.timeframe, now, currentPrice, None, None, None)))
  }

  /** `closePosition`: archive the open position with its exit, clear it and restart the cooldown. */
  function Close(s: BotState, result: ExitResult, exitPrice: real, pnl: real, now: int): BotState
  {
    if s.currentPosition.None? then s
    else
      var completed := s.currentPosition.value.(exitPrice := Some(exitPrice), result := Some(result), pnl := Some(pnl));
      s.(trades := Archived(s.trades, completed), currentPosition := None, lastTradeTime := now)
  }

  /** One `tick` at clock reading `now`, with `currentPrice` from the analysis service and its signal log `log`. */
  function TickStep(s: BotState, now: int, currentPrice: real, log: seq<AnalysisSignal>): BotState
    requires ValidState(s)
  {
    if !s.isRunning then s
    else if s.currentPosition.Some? then
      if currentPrice == 0.0 then s
      else
        var pos := s.currentPosition.value;
        var d := PriceDiffPct(pos.entryPrice, currentPrice, pos.action == Buy);
        if d <= -s.config.stopLossPct then Close(s, StopLoss, currentPrice, d, now).(status := CoolingDown)
        else if d >= s.config.takeProfitPct then Close(s, TakeProfit, currentPrice, d, now).(status := CoolingDown)
        else s.(status := Running)
    else if now - s.lastTradeTime < s.config.cooldownMs then s.(status := CoolingDown)
    else
      var entry := FirstEligible(s.config, log, 0);
      if entry.Some? then Execute(s, entry.value, currentPrice, now).(status := Running)
      else s.(status := Running)
  }

  // ---------------------------------------------------------------------------
  // Properties of a tick
  // ---------------------------------------------------------------------------

  /** A tick keeps the closed list capped and any open position well-formed. */
  lemma TickPreservesValid(s: BotState, now: int, currentPrice: real, log: seq<AnalysisSignal>)
    requires ValidState(s)
    ensures ValidState(TickStep(s, now, currentPrice, log))
  {
  }

  /** A stopped bot, and a held position with a falsy price, leave every field as it was. */
  lemma TickWithoutEffect(s: BotState, now: int, currentPrice: real, log: seq<AnalysisSignal>)
    requires ValidState(s)
    ensures !s.isRunning ==> TickStep(s, now, currentPrice, log) == s
    ensures s.currentPosition.Some? && currentPrice == 0.0 ==> TickStep(s, now, currentPrice, log) == s
  {
  }

  /**
    * With a position open, the stop-loss test comes first: when the move is
    * at or below minus the stop-loss percentage the position closes as a
    * stop-loss, even if the take-profit threshold also holds. Either exit
    * archives the trade with its exit price and pnl, clears the position,
    * restarts the cooldown and reports COOLING_DOWN.
    */
  lemma StopLossBeforeTakeProfit(s: BotState, now: int, currentPrice: real, log: seq<AnalysisSignal>)
    requires ValidState(s) && s.isRunning && s.currentPosition.Some? && currentPrice != 0.0
    ensures var pos := s.currentPosition.value;
      var d := PriceDiffPct(pos.entryPrice, currentPrice, pos.action == Buy);
      var t := TickStep(s, now, currentPrice, log);
      var exited := d <= -s.config.stopLossPct || d >= s.config.takeProfitPct;
      var result := if d <= -s.config.stopLossPct then StopLoss else TakeProfit;
      (exited ==>
        t.currentPosition.None? && t.lastTradeTime == now && t.status == CoolingDown &&
        t.trades == Archived(s.trades, pos.(exitPrice := Some(currentPrice), result := Some(result), pnl := Some(d)))) &&
      (!exited ==> t == s.(status := Running))
  {
  }

  /** While a position is open a tick never opens another: the position stays or is closed. */
  lemma AtMostOnePosition(s: BotState, now: int, currentPrice: real, log: seq<AnalysisSignal>)
    requires ValidState(s) && s.currentPosition.Some?
    ensures var t := TickStep(s, now, currentPrice, log);
      t.currentPosition == s.currentPosition || t.currentPosition.None?
  {
  }

  /** Inside the cooldown no trade opens and the status is COOLING_DOWN. */
  lemma CooldownBlocksEntry(s: BotState, now: int, currentPrice: real, log: seq<AnalysisSignal>)
    requires ValidState(s) && s.isRunning && s.currentPosition.None? && now - s.lastTradeTime < s.config.cooldownMs
    ensures TickStep(s, now, currentPrice, log) == s.(status := CoolingDown)
  {
  }

  /**
    * After the cooldown a tick without a position opens at most one trade,
    * on the first eligible signal, at the current price; the closed list and
    * the cooldown clock are untouched and the status is RUNNING.
    */
  lemma EntryOnFirstEligible(s: BotState, now: int, currentPrice: real, log: seq<AnalysisSignal>)
    requires ValidState(s) && s.isRunning && s.currentPosition.None? && now - s.lastTradeTime >= s.config.cooldownMs
    ensures var t := TickStep(s, now, currentPrice, log);
      var e := FirstEligible(s.config, log, 0);
      t.status == Running && t.trades == s.trades && t.lastTradeTime == s.lastTradeTime &&
      (t.currentPosition.Some? <==> e.Some? && currentPrice != 0.0) &&
      (t.currentPosition.Some? ==>
        t.currentPosition.value.action == e.value.action && t.currentPosition.value.timeframe == e.value.timeframe &&
        t.currentPosition.value.entryPrice == currentPrice && t.currentPosition.value.timestamp == now)
  {
  }

  /** A log of NEUTRAL signals, such as the analysis service produces as wired, never opens a trade. */
  lemma NeutralLogNeverEnters(config: TradingBotConfig, log: seq<AnalysisSignal>, k: nat)
    requires forall j | 0 <= j < |log| :: log[j].action == NeutralAction
    ensures FirstEligible(config, log, k).None?
    decreases |config.enabledTimeframes| - k
  {
    if k < |config.enabledTimeframes| {
      var tf := config.enabledTimeframes[k];
      LatestIsLastMatch(log, tf);
      NeutralLogNeverEnters(config, log, k + 1);
    }
  }

  /** `TradingBotService` */
  class TradingBotService {
    var isRunning: bool
    var lastTradeTime: int
    var currentPosition: Option<BotTrade>
    var config: TradingBotConfig
    /** The value of `trades$`. */
    var trades: seq<BotTrade>
    /** The value of `status$`. */
    var status: Status

    function State(): BotState
      reads this
    {
      BotState(isRunning, lastTradeTime, currentPosition, config, trades, status)
    }

    predicate Valid()
      reads this
    {
      ValidState(State())
    }

    constructor ()
      ensures State() == InitialState && Valid()
    {
      isRunning := false;
      lastTradeTime := 0;
      currentPosition := None;
      config := DefaultBotConfig;
      trades := [];
      status := Idle;
    }

    /** `start`: a no-op while running; otherwise merge the overrides, run, and report RUNNING. */
    method Start(configOverrides: ConfigOverrides)
      requires Valid()
      modifies this
      ensures Valid()
      ensures old(isRunning) ==> State() == old(State())
      ensures !old(isRunning) ==>
        State() == old(State()).(config := Merge(old(config), configOverrides), isRunning := true, status := Running)
    {
      if isRunning {
        return;
      }
      config := Merge(config, configOverrides);
      isRunning := true;
      status := Running;
    }

    /** `stop`: not running, status IDLE; the position and trades stay. */
    method Stop()
      requires Valid()
      modifies this
      ensures Valid()
      ensures State() == old(State()).(isRunning := false, status := Idle)
    {
      isRunning := false;
      status := Idle;
    }

    /** `executeTrade` */
    method ExecuteTrade(signal: AnalysisSignal, currentPrice: real, now: int)
      requires Valid()
      modifies this
      ensures Valid()
      ensures State() == Execute(old(State()), signal, currentPrice, now)
    {
      if currentPosition.Some? {
        return;
      }
      if currentPrice == 0.0 {
        return;
      }
      var trade := BotTrade(signal.action, signal.score, signal.reasons, signal.timeframe, now, currentPrice, None, None, None);
      currentPosition := Some(trade);
    }

    /** `closePosition` */
    method ClosePosition(result: ExitResult, exitPrice: real, pnl: real, now: int)
      requires Valid()
      modifies this
      ensures Valid()
      ensures State() == Close(old(State()), result, exitPrice, pnl, now)
    {
      if currentPosition.None? {
        return;
      }
      var completedTrade := currentPosition.value.(exitPrice := Some(exitPrice), result := Some(result), pnl := Some(pnl));
      var updated := TakeLast(trades, MaxTrades - 1) + [completedTrade];
      trades := updated;
      currentPosition := None;
      lastTradeTime := now;
    }

    /** `tick`: exits first, then the cooldown, then the scan over the enabled timeframes. */
    method Tick(now: int, currentPrice: real, log: seq<AnalysisSignal>)
      requires Valid()
      modifies this
      ensures Valid()
      ensures State() == TickStep(old(State()), now, currentPrice, log)
    {
      if !isRunning {
        return;
      }
      if currentPosition.Some? {
        if currentPrice == 0.0 {
          return;
        }
        var entry := currentPosition.value.entryPrice;
        var isLong := currentPosition.value.action == Buy;
        var stopLossPct, takeProfitPct := config.stopLossPct, config.takeProfitPct;
        var priceDiffPct := PriceDiffPct(entry, currentPrice, isLong);
        if priceDiffPct <= -stopLossPct {
          ClosePosition(StopLoss, currentPrice, priceDiffPct, now);
          status := CoolingDown;
          return;
        }
        if priceDiffPct >= takeProfitPct {
          ClosePosition(TakeProfit, currentPrice, priceDiffPct, now);
          status := CoolingDown;
          return;
        }
        status := Running;
        return;
      }
      if now - lastTradeTime < config.cooldownMs {
        status := CoolingDown;
        return;
      }
      for i := 0 to |config.enabledTimeframes|
        invariant State() == old(State())
        invariant FirstEligible(config, log, i) == FirstEligible(config, log, 0)
      {
        var timeframe := config.enabledTimeframes[i];
        var signal := LatestOf(log, timeframe);
        if signal.None? {
          continue;
        }
        var action, score := signal.value.action, signal.value.score;
        if score < config.minScore || action == NeutralAction {
          continue;
        }
        if (config.direction == OnlyLong && action == Sell) || (config.direction == OnlyShort && action == Buy) {
          continue;
        }
        ExecuteTrade(signal.value, currentPrice, now);
        status := Running;
        return;
      }
      status := Running;
    }
  }
}
