/**
  * The simulated wallet (`WalletService`): a USDT balance, the open
  * positions, the equity and the realised-pnl history. Every operation reads
  * the current state and replaces it with an updated copy.
  */
module Wallet {
  import opened Util

  datatype Side = Buy | Sell

  /** `WalletPosition`; the `uuidv4` id is a number the wallet has not handed out before. */
  datatype WalletPosition = WalletPosition(id: nat, symbol: string, side: Side, entryPrice: real, size: real, timestamp: int)

  /** `WalletState` */
  datatype WalletState = WalletState(usdt: real, positions: seq<WalletPosition>, equity: real, pnlHistory: seq<real>)

  const DefaultBalance: real := 1000.0

  const DefaultState := WalletState(DefaultBalance, [], DefaultBalance, [])

  predicate DistinctIds(positions: seq<WalletPosition>)
  {
    forall j, k | 0 <= j < k < |positions| :: positions[j].id != positions[k].id
  }

  /** The ids of the positions are pairwise distinct and below the next id to hand out. */
  predicate FreshIds(positions: seq<WalletPosition>, nextId: nat)
  {
    (forall k | 0 <= k < |positions| :: positions[k].id < nextId) && DistinctIds(positions)
  }

  // ---------------------------------------------------------------------------
  // The operations, as functions of the state
  // ---------------------------------------------------------------------------

  /** `size * entryPrice` */
  function Cost(size: real, entryPrice: real): real
  {
    size * entryPrice
  }

  /** `(price - entryPrice) * size * (isLong ? 1 : -1)`: the gain of the position at `price`. */
  function Pnl(p: WalletPosition, price: real): real
  {
    (price - p.entryPrice) * p.size * Direction(p.side == Buy)
  }

  /** `isLong ? 1 : -1` */
  function Direction(isLong: bool): real
  {
    if isLong then 1.0 else -1.0
  }

  /** The state after `openPosition` succeeds with position `p`. */
  function Opened(s: WalletState, p: WalletPosition): WalletState
  {
    s.(usdt := s.usdt - Cost(p.size, p.entryPrice), positions := s.positions + [p])
  }

  /** `positions.find(p => p.id === id)` */
  function Find(positions: seq<WalletPosition>, id: nat): (r: Option<WalletPosition>)
    ensures r.None? <==> forall k | 0 <= k < |positions| :: positions[k].id != id
    ensures r.Some? ==> exists k | 0 <= k < |positions| ::
      positions[k] == r.value && r.value.id == id && forall j | 0 <= j < k :: positions[j].id != id
  {
    if |positions| == 0 then None
    else if positions[0].id == id then Some(positions[0])
    else
      var r := Find(positions[1..], id);
      assert forall k | 1 <= k < |positions| :: positions[k] == positions[1..][k - 1];
      r
  }

  /** `positions.filter(p => p.id !== id)` */
  function Without(positions: seq<WalletPosition>, id: nat): (r: seq<WalletPosition>)
    ensures forall k | 0 <= k < |r| :: r[k].id != id && r[k] in positions
    ensures forall k | 0 <= k < |positions| :: positions[k].id != id ==> positions[k] in r
  {
    if |positions| == 0 then []
    else
      var rest := Without(positions[..|positions| - 1], id);
      var last := positions[|positions| - 1];
      assert forall k | 0 <= k < |positions| - 1 :: positions[k] == positions[..|positions| - 1][k];
      if last.id != id then rest + [last] else rest
  }

  /** The state after `closePosition(id, exitPrice)`; an unknown id changes nothing. */
  function Closed(s: WalletState, id: nat, exitPrice: real): WalletState
  {
    match Find(s.positions, id)
    case None => s
    case Some(p) =>
      var pnl := Pnl(p, exitPrice);
      var usdt := s.usdt + Cost(p.size, exitPrice) + pnl;
      WalletState(usdt, Without(s.positions, id), usdt, s.pnlHistory + [pnl])
  }

  /** Closing a position the lookup finds credits its refund and pnl, drops it and records the pnl. */
  lemma ClosedFound(s: WalletState, id: nat, exitPrice: real, p: WalletPosition)
    requires Find(s.positions, id) == Some(p)
    ensures var usdt := s.usdt + Cost(p.size, exitPrice) + Pnl(p, exitPrice);
      Closed(s, id, exitPrice) == WalletState(usdt, Without(s.positions, id), usdt, s.pnlHistory + [Pnl(p, exitPrice)])
  {
  }

  /** The `reduce` over the open positions: the sum of their gains at `price`, in order. */
  function Unrealized(positions: seq<WalletPosition>, price: real): real
  {
    if |positions| == 0 then 0.0
    else Unrealized(positions[..|positions| - 1], price) + Pnl(positions[|positions| - 1], price)
  }

  // ---------------------------------------------------------------------------
  // Properties
  // ---------------------------------------------------------------------------

  /** Opening hands out a fresh id, so the ids stay distinct and below the counter. */
  lemma OpenedKeepsIds(s: WalletState, p: WalletPosition, nextId: nat)
    requires FreshIds(s.positions, nextId) && p.id == nextId
    ensures FreshIds(Opened(s, p).positions, nextId + 1)
  {
  }

  /** Closing removes exactly the position with that id: every other position stays. */
  lemma ClosedRemovesOne(s: WalletState, id: nat, exitPrice: real, nextId: nat)
    requires FreshIds(s.positions, nextId)
    ensures var t := Closed(s, id, exitPrice);
      (forall k | 0 <= k < |t.positions| :: t.positions[k].id != id && t.positions[k] in s.positions) &&
      (forall k | 0 <= k < |s.positions| :: s.positions[k].id != id ==> s.positions[k] in t.positions) &&
      FreshIds(t.positions, nextId)
  {
    var t := Closed(s, id, exitPrice);
    if Find(s.positions, id).Some? {
      WithoutKeepsDistinct(s.positions, id);
    }
  }

  /** Filtering keeps distinct ids distinct. */
  lemma {:induction false} WithoutKeepsDistinct(positions: seq<WalletPosition>, id: nat)
    requires DistinctIds(positions)
    ensures DistinctIds(Without(positions, id))
  {
    if |positions| > 0 {
      var init := positions[..|positions| - 1];
      var last := positions[|positions| - 1];
      assert forall k | 0 <= k < |init| :: init[k] == positions[k];
      WithoutKeepsDistinct(init, id);
      var rest := Without(init, id);
      forall k | 0 <= k < |rest|
        ensures rest[k].id != last.id
      {
        assert rest[k] in init;
        var j :| 0 <= j < |init| && init[j] == rest[k];
        assert init[j] == positions[j];
      }
      if last.id != id {
        var r := rest + [last];
        assert Without(positions, id) == r;
        forall j, k | 0 <= j < k < |r|
          ensures r[j].id != r[k].id
        {
          if k == |rest| {
            assert r[j] == rest[j];
          } else {
            assert r[j] == rest[j] && r[k] == rest[k];
            assert rest[j].id != rest[k].id;
          }
        }
      }
    }
  }

  /** Opening then closing a SELL position gives back exactly the balance it started from. */
  lemma SellRoundTrip(s: WalletState, p: WalletPosition, exitPrice: real, nextId: nat)
    requires FreshIds(s.positions, nextId) && p.id == nextId && p.side == Sell
    ensures Closed(Opened(s, p), p.id, exitPrice).usdt == s.usdt
  {
    FindAppended(s.positions, p, nextId);
    ClosedFound(Opened(s, p), p.id, exitPrice, p);
    RoundTripBalance(s.usdt, p, exitPrice);
  }

  /** Opening then closing a BUY position moves the balance by twice the position's pnl. */
  lemma BuyRoundTrip(s: WalletState, p: WalletPosition, exitPrice: real, nextId: nat)
    requires FreshIds(s.positions, nextId) && p.id == nextId && p.side == Buy
    ensures Closed(Opened(s, p), p.id, exitPrice).usdt == s.usdt + 2.0 * Pnl(p, exitPrice)
  {
    FindAppended(s.positions, p, nextId);
    ClosedFound(Opened(s, p), p.id, exitPrice, p);
    RoundTripBalance(s.usdt, p, exitPrice);
  }

  /** Paying the cost at entry and getting back the value at exit plus the pnl nets the pnl plus the price move. */
  lemma RoundTripBalance(usdt: real, p: WalletPosition, exitPrice: real)
    ensures p.side == Sell ==> usdt - Cost(p.size, p.entryPrice) + Cost(p.size, exitPrice) + Pnl(p, exitPrice) == usdt
    ensures p.side == Buy ==> usdt - Cost(p.size, p.entryPrice) + Cost(p.size, exitPrice) + Pnl(p, exitPrice) == usdt + 2.0 * Pnl(p, exitPrice)
  {
    var move := (exitPrice - p.entryPrice) * p.size;
    assert Cost(p.size, exitPrice) - Cost(p.size, p.entryPrice) == move;
    assert Pnl(p, exitPrice) == move * Direction(p.side == Buy);
  }

  /** A fresh position appended at the end is what the lookup of its id finds. */
  lemma {:induction false} FindAppended(positions: seq<WalletPosition>, p: WalletPosition, nextId: nat)
    requires FreshIds(positions, nextId) && p.id == nextId
    ensures Find(positions + [p], p.id) == Some(p)
  {
    if |positions| > 0 {
      assert (positions + [p])[1..] == positions[1..] + [p];
      FindAppended(positions[1..], p, nextId);
    }
  }

  /** From the default state, buying 1 at 200 leaves 800; closing at 220 realises 20 and leaves 1040. */
  lemma WalletExample(p: WalletPosition)
    requires p == WalletPosition(0, "BTCUSDT", Buy, 200.0, 1.0, 0)
    ensures Opened(DefaultState, p).usdt == 800.0
    ensures Closed(Opened(DefaultState, p), 0, 220.0) == WalletState(1040.0, [], 1040.0, [20.0])
  {
    FindAppended([], p, 0);
    assert Without([p], 0) == [];
  }

  /** With every position valued at its own entry price there is no unrealised gain. */
  lemma {:induction false} UnrealizedAtEntry(positions: seq<WalletPosition>, price: real)
    requires forall k | 0 <= k < |positions| :: positions[k].entryPrice == price
    ensures Unrealized(positions, price) == 0.0
  {
    if |positions| > 0 {
      UnrealizedAtEntry(positions[..|positions| - 1], price);
    }
  }

  /** Opening a position adds its own gain to the unrealised total. */
  lemma UnrealizedOpened(s: WalletState, p: WalletPosition, price: real)
    ensures Unrealized(Opened(s, p).positions, price) == Unrealized(s.positions, price) + Pnl(p, price)
  {
    assert (s.positions + [p])[..|s.positions|] == s.positions;
  }

  /** `WalletService`: `state$` and the counter that stands for `uuidv4`. */
  class WalletService {
    /** The value of `state$`. */
    var state: WalletState
    var nextId: nat

    predicate Valid()
      reads this
    {
      FreshIds(state.positions, nextId)
    }

    constructor ()
      ensures Valid() && state == DefaultState
    {
      state := DefaultState;
      nextId := 0;
    }

    /** `reset` */
    method Reset()
      requires Valid()
      modifies this
      ensures Valid() && state == DefaultState && nextId == old(nextId)
    {
      state := DefaultState;
    }

    /**
      * `openPosition`: refused, with nothing changed, when the balance is
      * below `size * entryPrice`; otherwise the cost is taken from the
      * balance and the position appended, equity and history untouched.
      */
    method OpenPosition(symbol: string, side: Side, entryPrice: real, size: real, now: int) returns (ok: bool)
      requires Valid()
      modifies this
      ensures Valid()
      ensures ok <==> old(state).usdt >= size * entryPrice
      ensures !ok ==> state == old(state) && nextId == old(nextId)
      ensures ok ==>
        state == Opened(old(state), WalletPosition(old(nextId), symbol, side, entryPrice, size, now)) &&
        nextId == old(nextId) + 1
    {
      var s := state;
      var cost := size * entryPrice;
      if s.usdt < cost {
        return false;
      }
      var position := WalletPosition(nextId, symbol, side, entryPrice, size, now);
      OpenedKeepsIds(s, position, nextId);
      nextId := nextId + 1;
      state := s.(usdt := s.usdt - cost, positions := s.positions + [position]);
      return true;
    }

    /**
      * `closePosition`: an unknown id is a no-op; otherwise the position is
      * removed, the refund `size * exitPrice` and the pnl are credited,
      * equity is set to the new balance and the pnl is recorded.
      */
    method ClosePosition(positionId: nat, exitPrice: real)
      requires Valid()
      modifies this
      ensures Valid() && nextId == old(nextId)
      ensures state == Closed(old(state), positionId, exitPrice)
    {
      var s := state;
      var position := Find(s.positions, positionId);
      if position.None? {
        return;
      }
      var p := position.value;
      var isLong := p.side == Buy;
      var pnl := (exitPrice - p.entryPrice) * p.size * Direction(isLong);
      var refund := p.size * exitPrice;
      var updatedPositions := Without(s.positions, positionId);
      var updatedUsdt := s.usdt + refund + pnl;
      var updatedPnlHistory := s.pnlHistory + [pnl];
      assert pnl == Pnl(p, exitPrice);
      assert refund == Cost(p.size, exitPrice);
      ClosedFound(s, positionId, exitPrice, p);
      ClosedRemovesOne(s, positionId, exitPrice, nextId);
      state := s.(usdt := updatedUsdt, positions := updatedPositions, equity := updatedUsdt, pnlHistory := updatedPnlHistory);
    }

    /** `updateEquity`: equity becomes the balance plus the unrealised gains at `currentPrice`; nothing else changes. */
    method UpdateEquity(currentPrice: real)
      requires Valid()
      modifies this
      ensures Valid() && nextId == old(nextId)
      ensures state == old(state).(equity := old(state).usdt + Unrealized(old(state).positions, currentPrice))
    {
      var s := state;
      var unrealizedPnL := Unrealized(s.positions, currentPrice);
      state := s.(equity := s.usdt + unrealizedPnL);
    }
  }
}
