/**
  * The bot's trade journal (`BotTradeLogService`): a list of the most recent
  * 1000 closed trades and summary statistics that are recomputed from the
  * whole list on every change.
  */
module TradeLog {
  import opened Util

  datatype TradeSide = Buy | Sell

  datatype ExitResult = TakeProfit | StopLoss | Manual

  /** The journal's `BotTrade`; the `uuidv4` id is a number the journal has not handed out before. */
  datatype BotTrade = BotTrade(
    id: nat,
    action: TradeSide,
    score: real,
    reasons: seq<string>,
    entryPrice: real,
    exitPrice: real,
    result: ExitResult,
    pnl: real,
    symbol: string,
    timeframe: string,
    timestamp: int)

  /** `Omit<BotTrade, 'id'>`: what a caller hands to `logTrade`. */
  datatype NewTrade = NewTrade(
    action: TradeSide,
    score: real,
    reasons: seq<string>,
    entryPrice: real,
    exitPrice: real,
    result: ExitResult,
    pnl: real,
    symbol: string,
    timeframe: string,
    timestamp: int)

  /** `BotTradeStats` */
  datatype BotTradeStats = BotTradeStats(
    totalTrades: nat,
    wins: nat,
    losses: nat,
    winRate: real,
    avgPnL: real,
    totalPnL: real,
    maxGain: real,
    maxLoss: real)

  const ZeroStats := BotTradeStats(0, 0, 0, 0.0, 0.0, 0.0, 0.0, 0.0)

  /** The length of the journal. */
  const MaxLogged: nat := 1000

  /** `{ id, ...trade }` */
  function WithId(id: nat, t: NewTrade): BotTrade
  {
    BotTrade(id, t.action, t.score, t.reasons, t.entryPrice, t.exitPrice, t.result, t.pnl, t.symbol, t.timeframe, t.timestamp)
  }

  // ---------------------------------------------------------------------------
  // The statistics
  // ---------------------------------------------------------------------------

  /** `trades.map(t => t.pnl)` */
  function Pnls(trades: seq<BotTrade>): (r: seq<real>)
    ensures |r| == |trades| && forall k | 0 <= k < |r| :: r[k] == trades[k].pnl
  {
    seq(|trades|, k requires 0 <= k < |trades| => trades[k].pnl)
  }

  /** `trades.filter(t => t.pnl > 0).length` */
  function Wins(trades: seq<BotTrade>): nat
  {
    if |trades| == 0 then 0
    else Wins(trades[..|trades| - 1]) + if trades[|trades| - 1].pnl > 0.0 then 1 else 0
  }

  /** `trades.filter(t => t.pnl <= 0).length` */
  function Losses(trades: seq<BotTrade>): nat
  {
    if |trades| == 0 then 0
    else Losses(trades[..|trades| - 1]) + if trades[|trades| - 1].pnl <= 0.0 then 1 else 0
  }

  /** `updateStats(trades)` for the non-empty list it is always called with. */
  function StatsOf(trades: seq<BotTrade>): BotTradeStats
    requires |trades| > 0
  {
    var total := |trades|;
    var wins := Wins(trades);
    var totalPnL := Sum(Pnls(trades));
    BotTradeStats(
      total,
      wins,
      Losses(trades),
      (wins as real / total as real) * 100.0,
      totalPnL / total as real,
      totalPnL,
      MaxOf(Pnls(trades)),
      MinOf(Pnls(trades)))
  }

  /** Every trade is a win or a loss, never both. */
  lemma {:induction false} WinsPlusLosses(trades: seq<BotTrade>)
    ensures Wins(trades) + Losses(trades) == |trades|
  {
    if |trades| > 0 {
      WinsPlusLosses(trades[..|trades| - 1]);
    }
  }

  /** The share of winners, in percent, lies in [0, 100]. */
  lemma WinRateBounds(wins: nat, total: nat)
    requires 0 < total && wins <= total
    ensures 0.0 <= (wins as real / total as real) * 100.0 <= 100.0
  {
    DivBetween(wins as real, total as real, 0.0, 1.0);
  }

  /** The mean pnl lies between the smallest and the largest pnl. */
  lemma AveragePnlBounds(pnls: seq<real>)
    requires |pnls| > 0
    ensures MinOf(pnls) <= Sum(pnls) / |pnls| as real <= MaxOf(pnls)
  {
    MeanBetween(pnls, MinOf(pnls), MaxOf(pnls));
  }

  /** Wins and losses add up to the number of trades, and the win rate is a percentage. */
  lemma StatsCounts(trades: seq<BotTrade>)
    requires |trades| > 0
    ensures var s := StatsOf(trades);
      s.totalTrades == |trades| && s.wins + s.losses == s.totalTrades && 0.0 <= s.winRate <= 100.0
  {
    WinsPlusLosses(trades);
    WinRateBounds(Wins(trades), |trades|);
  }

  /** The average lies between the largest loss and the largest gain. */
  lemma StatsAverageBounds(trades: seq<BotTrade>)
    requires |trades| > 0
    ensures StatsOf(trades).maxLoss <= StatsOf(trades).avgPnL <= StatsOf(trades).maxGain
  {
    AveragePnlBounds(Pnls(trades));
  }

  /** The average times the count gives back the total pnl. */
  lemma StatsAverageTimesCount(trades: seq<BotTrade>)
    requires |trades| > 0
    ensures StatsOf(trades).avgPnL * StatsOf(trades).totalTrades as real == StatsOf(trades).totalPnL
  {
    AverageTimesCount(StatsOf(trades));
  }

  lemma AverageTimesCount(s: BotTradeStats)
    requires s.totalTrades > 0 && s.avgPnL == s.totalPnL / s.totalTrades as real
    ensures s.avgPnL * s.totalTrades as real == s.totalPnL
  {
  }

  /** The journal after logging `t`: the last 999 of the old list and `t`, at most 1000 in all. */
  function Logged(trades: seq<BotTrade>, t: BotTrade): (r: seq<BotTrade>)
    ensures 0 < |r| <= MaxLogged && r[|r| - 1] == t
    ensures |trades| < MaxLogged ==> r == trades + [t]
    ensures |trades| >= MaxLogged ==> r == trades[|trades| - MaxLogged + 1..] + [t]
  {
    var all := trades + [t];
    assert |all| > MaxLogged ==> all[|all| - MaxLogged..] == trades[|trades| - MaxLogged + 1..] + [t];
    TakeLast(all, MaxLogged)
  }

  /** `BotTradeLogService`: `trades$`, `stats$`, and the counter that stands for `uuidv4`. */
  class BotTradeLogService {
    /** The value of `trades$`. */
    var trades: seq<BotTrade>
    /** The value of `stats$`. */
    var stats: BotTradeStats
    var nextId: nat

    /** The journal is capped and the statistics always describe exactly the trades it holds. */
    predicate Valid()
      reads this
    {
      |trades| <= MaxLogged &&
      (|trades| == 0 ==> stats == ZeroStats) &&
      (|trades| > 0 ==> stats == StatsOf(trades))
    }

    constructor ()
      ensures Valid() && trades == [] && stats == ZeroStats
    {
      trades := [];
      stats := ZeroStats;
      nextId := 0;
    }

    /** `updateStats`: recompute the statistics over the given list. */
    method UpdateStats(list: seq<BotTrade>)
      requires |list| > 0
      modifies this`stats
      ensures stats == StatsOf(list)
    {
      var total := |list|;
      var wins := Wins(list);
      var losses := Losses(list);
      var totalPnL := Sum(Pnls(list));
      var avgPnL := if total != 0 then totalPnL / total as real else 0.0;
      var winRate := if total != 0 then (wins as real / total as real) * 100.0 else 0.0;
      var maxGain := MaxOf(Pnls(list));
      var maxLoss := MinOf(Pnls(list));
      stats := BotTradeStats(total, wins, losses, winRate, avgPnL, totalPnL, maxGain, maxLoss);
    }

    /** `logTrade`: give the trade a fresh id, append it keeping the last 1000, and recompute the statistics. */
    method LogTrade(trade: NewTrade)
      requires Valid()
      modifies this
      ensures Valid()
      ensures trades == Logged(old(trades), WithId(old(nextId), trade)) && nextId == old(nextId) + 1
      ensures stats == StatsOf(trades)
    {
      var fullTrade := WithId(nextId, trade);
      nextId := nextId + 1;
      var updatedTrades := Logged(trades, fullTrade);
      trades := updatedTrades;
      UpdateStats(updatedTrades);
    }

    /** `clearLogs`: no trades and every statistic 0. */
    method ClearLogs()
      requires Valid()
      modifies this
      ensures Valid() && trades == [] && stats == ZeroStats && nextId == old(nextId)
    {
      trades := [];
      stats := ZeroStats;
    }
  }
}
