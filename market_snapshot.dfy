/**
  * The market snapshot that the page scraper produces (`createAnalysisSnapshot`
  * in content.js) and that every later stage consumes: the price, the trade
  * tape summed by side, and the order book with its spread and imbalance.
  */
module MarketSnapshot {
  import opened Util

  datatype Side = Buy | Sell

  /** A row of the recent-trades tape; the scraper sets `direction` to "buy" or "sell", nothing else. */
  datatype Trade = Trade(price: real, size: real, direction: Side, time: int)

  /** An order-book row `{price, size, total, side}`. */
  datatype Order = Order(price: real, size: real, total: real, side: Side)

  /** The order book as read from the page: best bid and ask rows (null when the side is empty) and the depths. */
  datatype BookReading = BookReading(topBid: Option<Order>, topAsk: Option<Order>, buyDepth: real, sellDepth: real)

  datatype OrderBook = OrderBook(
    topBid: Option<Order>, topAsk: Option<Order>,
    buyDepth: real, sellDepth: real,
    spread: Option<real>,
    imbalance: real)

  datatype Volume = Volume(totalSize: real, buySize: real, sellSize: real, buyRatio: real, recentTrades: seq<Trade>)

  /** One observation of the market. `marketStats` is an opaque pass-through and is not modelled. */
  datatype Snapshot = Snapshot(timestamp: int, price: real, volume: Volume, orderBook: OrderBook)

  /** `trades.reduce((sum, t) => sum + t.size, 0)` */
  function TotalSize(trades: seq<Trade>): real
  {
    if |trades| == 0 then 0.0 else TotalSize(trades[..|trades| - 1]) + trades[|trades| - 1].size
  }

  /** The size summed over the trades of one direction (`filter` then `reduce`). */
  function SizeOn(trades: seq<Trade>, side: Side): real
  {
    if |trades| == 0 then 0.0
    else SizeOn(trades[..|trades| - 1], side) + (if trades[|trades| - 1].direction == side then trades[|trades| - 1].size else 0.0)
  }

  predicate NonNegativeSizes(trades: seq<Trade>)
  {
    forall i :: 0 <= i < |trades| ==> trades[i].size >= 0.0
  }

  /** Every trade is a buy or a sell, so the two sides add up to the whole tape. */
  lemma {:induction false} SidesPartition(trades: seq<Trade>)
    ensures SizeOn(trades, Buy) + SizeOn(trades, Sell) == TotalSize(trades)
  {
    if |trades| > 0 {
      SidesPartition(trades[..|trades| - 1]);
    }
  }

  /** With non-negative sizes each side is between 0 and the total. */
  lemma {:induction false} SideWithinTotal(trades: seq<Trade>, side: Side)
    ensures NonNegativeSizes(trades) ==> 0.0 <= SizeOn(trades, side) <= TotalSize(trades)
  {
    if |trades| > 0 {
      SideWithinTotal(trades[..|trades| - 1], side);
    }
  }

  /** `x?.price` is truthy: the row exists and its price is not 0. */
  predicate HasPrice(o: Option<Order>)
  {
    o.Some? && o.value.price != 0.0
  }

  /** `a ? (a / (a + b)) * 100 : 0` with a + b as the guard, as used for the buy ratio and the book imbalance. */
  function Percent(part: real, whole: real): real
  {
    if whole != 0.0 then part / whole * 100.0 else 0.0
  }

  lemma PercentBounds(part: real, whole: real)
    ensures 0.0 <= part <= whole ==> 0.0 <= Percent(part, whole) <= 100.0
  {
    if 0.0 <= part <= whole && whole != 0.0 {
      assert part / whole <= 1.0;
    }
  }

  /**
    * `createAnalysisSnapshot`: sums the tape by side, derives the spread from
    * the best ask and bid, and the book imbalance from the depths. The buy
    * ratio is kept unrounded (its `toFixed(2)` is not modelled).
    */
  function CreateAnalysisSnapshot(price: real, trades: seq<Trade>, book: BookReading, timestamp: int): (s: Snapshot)
    ensures s.timestamp == timestamp && s.price == price && s.volume.recentTrades == trades
    ensures s.volume.buySize + s.volume.sellSize == s.volume.totalSize
    ensures NonNegativeSizes(trades) ==> 0.0 <= s.volume.buyRatio <= 100.0
    ensures s.orderBook.spread.Some? <==> HasPrice(book.topAsk) && HasPrice(book.topBid)
    ensures s.orderBook.spread.Some? ==> s.orderBook.spread.value == book.topAsk.value.price - book.topBid.value.price
    ensures book.buyDepth >= 0.0 && book.sellDepth >= 0.0 ==> 0.0 <= s.orderBook.imbalance <= 100.0
    ensures book.buyDepth + book.sellDepth == 0.0 ==> s.orderBook.imbalance == 0.0
    ensures s.orderBook.topBid == book.topBid && s.orderBook.topAsk == book.topAsk
    ensures s.orderBook.buyDepth == book.buyDepth && s.orderBook.sellDepth == book.sellDepth
  {
    SidesPartition(trades);
    SideWithinTotal(trades, Buy);
    PercentBounds(SizeOn(trades, Buy), TotalSize(trades));
    PercentBounds(book.buyDepth, book.buyDepth + book.sellDepth);
    var totalSize := TotalSize(trades);
    var buySize := SizeOn(trades, Buy);
    var sellSize := SizeOn(trades, Sell);
    var spread := if HasPrice(book.topAsk) && HasPrice(book.topBid) then Some(book.topAsk.value.price - book.topBid.value.price) else None;
    Snapshot(
      timestamp, price,
      Volume(totalSize, buySize, sellSize, Percent(buySize, totalSize), trades),
      OrderBook(book.topBid, book.topAsk, book.buyDepth, book.sellDepth, spread,
                Percent(book.buyDepth, book.buyDepth + book.sellDepth)))
  }

  /** `snapshots.map(s => s.price)` */
  function Prices(snaps: seq<Snapshot>): (r: seq<real>)
    ensures |r| == |snaps| && forall i | 0 <= i < |snaps| :: r[i] == snaps[i].price
  {
    seq(|snaps|, i requires 0 <= i < |snaps| => snaps[i].price)
  }
}
