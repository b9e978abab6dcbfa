/**
  * The order-book and tape heuristics of the page scraper (content.js): the
  * diff between two order-book reads, the largest resting order ("wall"),
  * spoofing and wall-movement flags over a diff, the short-term price
  * momentum over a pruned 10-second history, and the funding countdown parser.
  */
module OrderBookSignals {
  import opened Util
  import opened MarketSnapshot

  // ---------------------------------------------------------------------------
  // compareOrderBooks
  // ---------------------------------------------------------------------------

  /** One entry of the diff between two order-book reads. */
  datatype Change =
    | Added(side: Side, order: Order)
    | Updated(side: Side, price: real, from: real, to: real)
    | Removed(side: Side, order: Order)

  /**
    * A JS `Map` keyed by price, as the sequence of its entries in iteration
    * order. `set` on a new key appends; on a present key it replaces the
    * value and keeps the key's position.
    */
  function MapSet(entries: seq<Order>, o: Order): seq<Order>
  {
    if |entries| == 0 then [o]
    else if entries[0].price == o.price then [o] + entries[1..]
    else [entries[0]] + MapSet(entries[1..], o)
  }

  /** `new Map(orders.map((order) => [order.price, order]))` */
  function PriceMap(orders: seq<Order>): seq<Order>
  {
    if |orders| == 0 then [] else MapSet(PriceMap(orders[..|orders| - 1]), orders[|orders| - 1])
  }

  /** `map.get(price)`: the entry stored under that price, if any. */
  function Get(entries: seq<Order>, price: real): Option<Order>
  {
    if |entries| == 0 then None
    else if entries[0].price == price then Some(entries[0])
    else Get(entries[1..], price)
  }

  /** The last order of a list with the given price: the one a Map built from the list keeps. */
  function LastWith(orders: seq<Order>, price: real): Option<Order>
  {
    if |orders| == 0 then None
    else if orders[|orders| - 1].price == price then Some(orders[|orders| - 1])
    else LastWith(orders[..|orders| - 1], price)
  }

  predicate DistinctKeys(entries: seq<Order>)
  {
    forall i, j | 0 <= i < j < |entries| :: entries[i].price != entries[j].price
  }

  lemma {:induction false} GetFound(entries: seq<Order>, price: real)
    ensures Get(entries, price).Some? ==> Get(entries, price).value in entries && Get(entries, price).value.price == price
  {
    if |entries| > 0 && entries[0].price != price {
      GetFound(entries[1..], price);
    }
  }

  lemma {:induction false} MapSetGet(entries: seq<Order>, o: Order)
    requires DistinctKeys(entries)
    ensures DistinctKeys(MapSet(entries, o))
    ensures forall p :: Get(MapSet(entries, o), p) == if p == o.price then Some(o) else Get(entries, p)
  {
    if |entries| > 0 && entries[0].price != o.price {
      var rest := MapSet(entries[1..], o);
      MapSetGet(entries[1..], o);
      forall p ensures Get(rest, p) != None ==> p == o.price || exists k | 1 <= k < |entries| :: entries[k].price == p {
        GetFound(rest, p);
        GetFound(entries[1..], p);
      }
      forall i, j | 0 <= i < j < |[entries[0]] + rest| ensures ([entries[0]] + rest)[i].price != ([entries[0]] + rest)[j].price {
        if i == 0 {
          var q := rest[j - 1];
          assert Get(rest, q.price).Some? by { GetSomeWhenPresent(rest, j - 1); }
        }
      }
    }
  }

  lemma {:induction false} GetSomeWhenPresent(entries: seq<Order>, k: nat)
    requires k < |entries|
    ensures Get(entries, entries[k].price).Some?
  {
    if k > 0 && entries[0].price != entries[k].price {
      GetSomeWhenPresent(entries[1..], k - 1);
    }
  }

  /** The Map built from a list has one entry per price, holding the last order with that price. */
  lemma {:induction false} PriceMapGet(orders: seq<Order>)
    ensures DistinctKeys(PriceMap(orders))
    ensures forall p :: Get(PriceMap(orders), p) == LastWith(orders, p)
  {
    if |orders| > 0 {
      PriceMapGet(orders[..|orders| - 1]);
      MapSetGet(PriceMap(orders[..|orders| - 1]), orders[|orders| - 1]);
    }
  }

  /** With distinct keys, an order is an entry exactly when the Map returns it for its price. */
  lemma {:induction false} EntryIffGet(entries: seq<Order>, o: Order)
    requires DistinctKeys(entries)
    ensures o in entries <==> Get(entries, o.price) == Some(o)
  {
    if |entries| > 0 {
      EntryIffGet(entries[1..], o);
    }
  }

  /** The first loop: an "added" or "updated" change for each entry of the current map. */
  function UpsertOne(prevMap: seq<Order>, currOrder: Order): seq<Change>
  {
    match Get(prevMap, currOrder.price)
    case None => [Added(currOrder.side, currOrder)]
    case Some(prevOrder) =>
      if currOrder.size != prevOrder.size then [Updated(currOrder.side, currOrder.price, prevOrder.size, currOrder.size)] else []
  }

  function Upserts(prevMap: seq<Order>, currEntries: seq<Order>): seq<Change>
  {
    if |currEntries| == 0 then []
    else Upserts(prevMap, currEntries[..|currEntries| - 1]) + UpsertOne(prevMap, currEntries[|currEntries| - 1])
  }

  /** The second loop: a "removed" change for each entry of the previous map whose price is gone. */
  function RemovedOne(currMap: seq<Order>, prevOrder: Order): seq<Change>
  {
    if Get(currMap, prevOrder.price).None? then [Removed(prevOrder.side, prevOrder)] else []
  }

  function Removals(currMap: seq<Order>, prevEntries: seq<Order>): seq<Change>
  {
    if |prevEntries| == 0 then []
    else Removals(currMap, prevEntries[..|prevEntries| - 1]) + RemovedOne(currMap, prevEntries[|prevEntries| - 1])
  }

  /** The changes `compareOrderBooks(prev, current)` returns, in order. */
  function Diff(prev: seq<Order>, current: seq<Order>): seq<Change>
  {
    Upserts(PriceMap(prev), PriceMap(current)) + Removals(PriceMap(current), PriceMap(prev))
  }

  /** One more entry of the current map adds its upsert changes at the end. */
  lemma UpsertsStep(prevMap: seq<Order>, currMap: seq<Order>, i: nat)
    requires i < |currMap|
    ensures Upserts(prevMap, currMap[..i + 1]) == Upserts(prevMap, currMap[..i]) + UpsertOne(prevMap, currMap[i])
  {
    assert currMap[..i + 1][..i] == currMap[..i];
  }

  /** One more entry of the previous map adds its removal change at the end. */
  lemma RemovalsStep(currMap: seq<Order>, prevMap: seq<Order>, j: nat)
    requires j < |prevMap|
    ensures Removals(currMap, prevMap[..j + 1]) == Removals(currMap, prevMap[..j]) + RemovedOne(currMap, prevMap[j])
  {
    assert prevMap[..j + 1][..j] == prevMap[..j];
  }

  method CompareOrderBooks(prev: seq<Order>, current: seq<Order>) returns (changes: seq<Change>)
    ensures changes == Diff(prev, current)
  {
    var prevMap := PriceMap(prev);
    var currMap := PriceMap(current);
    changes := [];
    var i := 0;
    while i < |currMap|
      invariant 0 <= i <= |currMap|
      invariant changes == Upserts(prevMap, currMap[..i])
    {
      var currOrder := currMap[i];
      var prevOrder := Get(prevMap, currOrder.price);
      UpsertsStep(prevMap, currMap, i);
      if prevOrder.None? {
        changes := changes + [Added(currOrder.side, currOrder)];
      } else if currOrder.size != prevOrder.value.size {
        changes := changes + [Updated(currOrder.side, currOrder.price, prevOrder.value.size, currOrder.size)];
      }
      i := i + 1;
    }
    assert currMap[..i] == currMap;
    ghost var upserts := changes;
    var j := 0;
    while j < |prevMap|
      invariant 0 <= j <= |prevMap|
      invariant changes == upserts + Removals(currMap, prevMap[..j])
    {
      var prevOrder := prevMap[j];
      RemovalsStep(currMap, prevMap, j);
      if Get(currMap, prevOrder.price).None? {
        changes := changes + [Removed(prevOrder.side, prevOrder)];
      }
      j := j + 1;
    }
    assert prevMap[..j] == prevMap;
  }

  lemma {:induction false} UpsertsMember(prevMap: seq<Order>, es: seq<Order>, ch: Change)
    ensures ch in Upserts(prevMap, es) <==> exists k | 0 <= k < |es| :: ch in UpsertOne(prevMap, es[k])
  {
    if |es| > 0 {
      var init := es[..|es| - 1];
      UpsertsMember(prevMap, init, ch);
      if exists k | 0 <= k < |init| :: ch in UpsertOne(prevMap, init[k]) {
        var k :| 0 <= k < |init| && ch in UpsertOne(prevMap, init[k]);
        assert es[k] == init[k];
      }
      if exists k | 0 <= k < |es| :: ch in UpsertOne(prevMap, es[k]) {
        var k :| 0 <= k < |es| && ch in UpsertOne(prevMap, es[k]);
        if k < |init| { assert init[k] == es[k]; }
      }
    }
  }

  lemma {:induction false} RemovalsMember(currMap: seq<Order>, es: seq<Order>, ch: Change)
    ensures ch in Removals(currMap, es) <==> exists k | 0 <= k < |es| :: ch in RemovedOne(currMap, es[k])
  {
    if |es| > 0 {
      var init := es[..|es| - 1];
      RemovalsMember(currMap, init, ch);
      if exists k | 0 <= k < |init| :: ch in RemovedOne(currMap, init[k]) {
        var k :| 0 <= k < |init| && ch in RemovedOne(currMap, init[k]);
        assert es[k] == init[k];
      }
      if exists k | 0 <= k < |es| :: ch in RemovedOne(currMap, es[k]) {
        var k :| 0 <= k < |es| && ch in RemovedOne(currMap, es[k]);
        if k < |init| { assert init[k] == es[k]; }
      }
    }
  }

  lemma {:induction false} UpsertsNotRemoved(prevMap: seq<Order>, es: seq<Order>)
    ensures forall k | 0 <= k < |Upserts(prevMap, es)| :: !Upserts(prevMap, es)[k].Removed?
  {
    if |es| > 0 {
      UpsertsNotRemoved(prevMap, es[..|es| - 1]);
    }
  }

  lemma {:induction false} RemovalsAllRemoved(currMap: seq<Order>, es: seq<Order>)
    ensures forall k | 0 <= k < |Removals(currMap, es)| :: Removals(currMap, es)[k].Removed?
  {
    if |es| > 0 {
      RemovalsAllRemoved(currMap, es[..|es| - 1]);
    }
  }

  /** Entries that all sit in the previous map, with their sizes, yield no upsert. */
  lemma {:induction false} UpsertsNone(m: seq<Order>, es: seq<Order>)
    requires DistinctKeys(m)
    requires forall k | 0 <= k < |es| :: es[k] in m
    ensures Upserts(m, es) == []
  {
    if |es| > 0 {
      UpsertsNone(m, es[..|es| - 1]);
      EntryIffGet(m, es[|es| - 1]);
    }
  }

  /** Entries whose prices all sit in the current map yield no removal. */
  lemma {:induction false} RemovalsNone(m: seq<Order>, es: seq<Order>)
    requires DistinctKeys(m)
    requires forall k | 0 <= k < |es| :: es[k] in m
    ensures Removals(m, es) == []
  {
    if |es| > 0 {
      RemovalsNone(m, es[..|es| - 1]);
      EntryIffGet(m, es[|es| - 1]);
    }
  }

  /** Comparing an order book with itself reports no change. */
  lemma DiffSelfEmpty(orders: seq<Order>)
    ensures Diff(orders, orders) == []
  {
    var m := PriceMap(orders);
    PriceMapGet(orders);
    UpsertsNone(m, m);
    RemovalsNone(m, m);
  }

  /**
    * What the diff reports, in terms of the two raw lists: a price only in
    * the current list is "added" with the order the current Map keeps; a
    * price in both with a different size is "updated" from the old size to
    * the new one, and an equal size reports nothing; a price only in the
    * previous list is "removed".
    */
  lemma DiffContents(prev: seq<Order>, current: seq<Order>, ch: Change)
    ensures ch.Added? ==>
      (ch in Diff(prev, current) <==>
        ch.side == ch.order.side && LastWith(current, ch.order.price) == Some(ch.order) && LastWith(prev, ch.order.price) == None)
    ensures ch.Updated? ==>
      (ch in Diff(prev, current) <==>
        LastWith(current, ch.price).Some? && LastWith(prev, ch.price).Some? &&
        ch.side == LastWith(current, ch.price).value.side &&
        ch.from == LastWith(prev, ch.price).value.size && ch.to == LastWith(current, ch.price).value.size &&
        ch.from != ch.to)
    ensures ch.Removed? ==>
      (ch in Diff(prev, current) <==>
        ch.side == ch.order.side && LastWith(prev, ch.order.price) == Some(ch.order) && LastWith(current, ch.order.price) == None)
  {
    var pm, cm := PriceMap(prev), PriceMap(current);
    PriceMapGet(prev);
    PriceMapGet(current);
    UpsertsMember(pm, cm, ch);
    RemovalsMember(cm, pm, ch);
    if ch.Added? {
      EntryIffGet(cm, ch.order);
      if ch in Diff(prev, current) {
        var k :| 0 <= k < |cm| && ch in UpsertOne(pm, cm[k]);
        assert cm[k] == ch.order;
      }
    }
    if ch.Updated? {
      if ch in Diff(prev, current) {
        var k :| 0 <= k < |cm| && ch in UpsertOne(pm, cm[k]);
        EntryIffGet(cm, cm[k]);
      }
      if LastWith(current, ch.price).Some? && LastWith(prev, ch.price).Some? &&
         ch.side == LastWith(current, ch.price).value.side &&
         ch.from == LastWith(prev, ch.price).value.size && ch.to == LastWith(current, ch.price).value.size &&
         ch.from != ch.to {
        var c := LastWith(current, ch.price).value;
        GetFound(cm, ch.price);
        var k :| 0 <= k < |cm| && cm[k] == c;
        assert ch in UpsertOne(pm, cm[k]);
      }
    }
    if ch.Removed? {
      EntryIffGet(pm, ch.order);
      if ch in Diff(prev, current) {
        var k :| 0 <= k < |pm| && ch in RemovedOne(cm, pm[k]);
        assert pm[k] == ch.order;
      }
    }
  }

  /** Every removal comes after every addition and update. */
  lemma DiffRemovalsLast(prev: seq<Order>, current: seq<Order>)
    ensures forall i, j | 0 <= i < j < |Diff(prev, current)| :: Diff(prev, current)[i].Removed? ==> Diff(prev, current)[j].Removed?
  {
    var pm, cm := PriceMap(prev), PriceMap(current);
    UpsertsNotRemoved(pm, cm);
    RemovalsAllRemoved(cm, pm);
  }

  // ---------------------------------------------------------------------------
  // getWall
  // ---------------------------------------------------------------------------

  /** orders[k] has the maximal size and no earlier order has that size. */
  predicate IsFirstLargest(orders: seq<Order>, k: int)
  {
    0 <= k < |orders| &&
    (forall j | 0 <= j < |orders| :: orders[j].size <= orders[k].size) &&
    (forall j | 0 <= j < k :: orders[j].size < orders[k].size)
  }

  /** `getWall`: the first order of maximal size, or null for an empty list. */
  method GetWall(orders: seq<Order>) returns (wall: Option<Order>)
    ensures wall.None? <==> |orders| == 0
    ensures wall.Some? ==> exists k :: IsFirstLargest(orders, k) && orders[k] == wall.value
  {
    if |orders| == 0 {
      return None;
    }
    var best := 0;
    var maxOrder := orders[0];
    for i := 0 to |orders|
      invariant 0 <= best < |orders| && maxOrder == orders[best]
      invariant forall j | 0 <= j < i :: orders[j].size <= maxOrder.size
      invariant forall j | 0 <= j < best :: orders[j].size < maxOrder.size
      invariant best <= i
    {
      if orders[i].size > maxOrder.size {
        maxOrder := orders[i];
        best := i;
      }
    }
    assert IsFirstLargest(orders, best);
    wall := Some(maxOrder);
  }

  /** The first largest order is unique, so the wall is determined by the list. */
  lemma FirstLargestUnique(orders: seq<Order>, k1: int, k2: int)
    requires IsFirstLargest(orders, k1) && IsFirstLargest(orders, k2)
    ensures k1 == k2
  {
    assert orders[k1].size == orders[k2].size;
  }

  // ---------------------------------------------------------------------------
  // detectSpoofing and detectWallMovement
  // ---------------------------------------------------------------------------

  /** Both heuristics count only added/removed changes of size at least 5. */
  const WallSize: real := 5.0

  predicate IsWallMove(c: Change)
  {
    (c.Added? || c.Removed?) && c.order.size >= WallSize
  }

  /** The `${side}-${price}` key of a change. */
  function SpoofKey(c: Change): (Side, real)
    requires c.Added? || c.Removed?
  {
    (c.side, c.order.price)
  }

  /** How many qualifying changes carry key k: the value `priceCounts[k]` ends with. */
  function KeyCount(changes: seq<Change>, k: (Side, real)): nat
  {
    if |changes| == 0 then 0
    else
      var last := changes[|changes| - 1];
      KeyCount(changes[..|changes| - 1], k) + (if IsWallMove(last) && SpoofKey(last) == k then 1 else 0)
  }

  predicate KeyAt(changes: seq<Change>, i: int, k: (Side, real))
  {
    0 <= i < |changes| && IsWallMove(changes[i]) && SpoofKey(changes[i]) == k
  }

  /** Two different qualifying changes share a (side, price) key. */
  predicate RepeatedKey(changes: seq<Change>)
  {
    exists i, j | 0 <= i < j < |changes| :: IsWallMove(changes[i]) && IsWallMove(changes[j]) && SpoofKey(changes[i]) == SpoofKey(changes[j])
  }

  lemma {:induction false} KeyCountPositive(changes: seq<Change>, k: (Side, real))
    ensures KeyCount(changes, k) > 0 <==> exists i :: KeyAt(changes, i, k)
  {
    if |changes| > 0 {
      var n := |changes| - 1;
      var init := changes[..n];
      KeyCountPositive(init, k);
      if KeyCount(changes, k) > 0 && !KeyAt(changes, n, k) {
        var i :| KeyAt(init, i, k);
        assert changes[i] == init[i];
        assert KeyAt(changes, i, k);
      }
      if exists i :: KeyAt(changes, i, k) {
        var i :| KeyAt(changes, i, k);
        if i < n {
          assert changes[i] == init[i];
          assert KeyAt(init, i, k);
        }
      }
    }
  }

  lemma {:induction false} KeyCountPair(changes: seq<Change>, k: (Side, real))
    ensures KeyCount(changes, k) > 1 <==> exists i, j :: i < j && KeyAt(changes, i, k) && KeyAt(changes, j, k)
  {
    if |changes| > 0 {
      var n := |changes| - 1;
      var init := changes[..n];
      KeyCountPair(init, k);
      KeyCountPositive(init, k);
      if exists i, j :: i < j && KeyAt(init, i, k) && KeyAt(init, j, k) {
        var i, j :| i < j && KeyAt(init, i, k) && KeyAt(init, j, k);
        assert KeyAt(changes, i, k) && KeyAt(changes, j, k);
      }
      if KeyAt(changes, n, k) && exists i :: KeyAt(init, i, k) {
        var i :| KeyAt(init, i, k);
        assert KeyAt(changes, i, k);
      }
      if exists i, j :: i < j && KeyAt(changes, i, k) && KeyAt(changes, j, k) {
        var i, j :| i < j && KeyAt(changes, i, k) && KeyAt(changes, j, k);
        assert KeyAt(init, i, k);
        if j < n { assert KeyAt(init, j, k); }
      }
    }
  }

  /** `detectSpoofing`: some (side, price) key occurs more than once among the qualifying changes. */
  method DetectSpoofing(changes: seq<Change>) returns (suspicious: bool)
    ensures suspicious <==> RepeatedKey(changes)
  {
    var priceCounts: map<(Side, real), nat> := map[];
    for i := 0 to |changes|
      invariant forall k :: k in priceCounts <==> KeyCount(changes[..i], k) > 0
      invariant forall k | k in priceCounts :: priceCounts[k] == KeyCount(changes[..i], k)
    {
      var change := changes[i];
      assert changes[..i + 1][..i] == changes[..i];
      if (change.Added? || change.Removed?) && change.order.size >= WallSize {
        var key := SpoofKey(change);
        priceCounts := priceCounts[key := (if key in priceCounts then priceCounts[key] else 0) + 1];
      }
    }
    assert changes[..|changes|] == changes;
    suspicious := exists k | k in priceCounts :: priceCounts[k] > 1;
    if suspicious {
      var k :| k in priceCounts && priceCounts[k] > 1;
      KeyCountPair(changes, k);
      var i, j :| i < j && KeyAt(changes, i, k) && KeyAt(changes, j, k);
      assert IsWallMove(changes[i]) && IsWallMove(changes[j]) && SpoofKey(changes[i]) == SpoofKey(changes[j]);
    } else if RepeatedKey(changes) {
      var i, j :| 0 <= i < j < |changes| && IsWallMove(changes[i]) && IsWallMove(changes[j]) && SpoofKey(changes[i]) == SpoofKey(changes[j]);
      var k := SpoofKey(changes[i]);
      assert KeyAt(changes, i, k) && KeyAt(changes, j, k);
      KeyCountPair(changes, k);
    }
  }

  /** The qualifying changes, in order (`changes.filter(...)`). */
  function WallMoves(changes: seq<Change>): seq<Change>
  {
    if |changes| == 0 then []
    else WallMoves(changes[..|changes| - 1]) + (if IsWallMove(changes[|changes| - 1]) then [changes[|changes| - 1]] else [])
  }

  /** `detectWallMovement`: at least two qualifying changes. */
  function DetectWallMovement(changes: seq<Change>): bool
  {
    |WallMoves(changes)| >= 2
  }

  lemma {:induction false} WallMovesCount(changes: seq<Change>)
    ensures |WallMoves(changes)| > 0 <==> exists i | 0 <= i < |changes| :: IsWallMove(changes[i])
    ensures |WallMoves(changes)| > 1 <==> exists i, j | 0 <= i < j < |changes| :: IsWallMove(changes[i]) && IsWallMove(changes[j])
  {
    if |changes| > 0 {
      var n := |changes| - 1;
      var init := changes[..n];
      WallMovesCount(init);
      assert forall i | 0 <= i < n :: init[i] == changes[i];
    }
  }

  /** Wall movement holds exactly when two different changes qualify. */
  lemma WallMovementIff(changes: seq<Change>)
    ensures DetectWallMovement(changes) <==> exists i, j | 0 <= i < j < |changes| :: IsWallMove(changes[i]) && IsWallMove(changes[j])
  {
    WallMovesCount(changes);
  }

  /** A repeated spoofing key is two qualifying changes, so spoofing implies wall movement. */
  lemma SpoofingImpliesWallMovement(changes: seq<Change>)
    requires RepeatedKey(changes)
    ensures DetectWallMovement(changes)
  {
    WallMovesCount(changes);
  }

  // ---------------------------------------------------------------------------
  // detectMomentum
  // ---------------------------------------------------------------------------

  datatype PricePoint = PricePoint(price: real, time: int)

  datatype Trend = Rising | Falling | Flat

  /** Entries older than this many milliseconds are pruned from the front of the history. */
  const MomentumWindowMs: int := 10000

  predicate IsStale(p: PricePoint, now: int)
  {
    now - p.time > MomentumWindowMs
  }

  /** The number of leading stale entries: how many times the pruning loop shifts. */
  function StaleCount(h: seq<PricePoint>, now: int): (k: nat)
    ensures k <= |h|
    ensures forall i | 0 <= i < k :: IsStale(h[i], now)
    ensures k < |h| ==> !IsStale(h[k], now)
  {
    if |h| > 0 && IsStale(h[0], now) then 1 + StaleCount(h[1..], now) else 0
  }

  predicate TimesSorted(h: seq<PricePoint>)
  {
    forall i, j | 0 <= i < j < |h| :: h[i].time <= h[j].time
  }

  /**
    * After pruning, a time-ordered history stays ordered and every kept
    * entry is within the window.
    */
  lemma PrunedWithinWindow(h: seq<PricePoint>, now: int)
    requires TimesSorted(h)
    ensures var kept := h[StaleCount(h, now)..];
      TimesSorted(kept) && forall i | 0 <= i < |kept| :: !IsStale(kept[i], now)
  {
    var k := StaleCount(h, now);
    var kept := h[k..];
    forall i | 0 <= i < |kept| ensures !IsStale(kept[i], now) {
      assert kept[i] == h[k + i];
      assert h[k].time <= h[k + i].time;
    }
    forall i, j | 0 <= i < j < |kept| ensures kept[i].time <= kept[j].time {
      assert kept[i] == h[k + i] && kept[j] == h[k + j];
    }
  }

  /** An entry that is not stale is never pruned, so a fresh last entry survives. */
  lemma FreshLastKept(h: seq<PricePoint>, now: int)
    requires |h| > 0 && !IsStale(h[|h| - 1], now)
    ensures StaleCount(h, now) < |h|
  {
  }

  /** Pushing an entry no older than the last keeps the history ordered. */
  lemma SortedPush(h: seq<PricePoint>, p: PricePoint)
    requires TimesSorted(h) && (h == [] || h[|h| - 1].time <= p.time)
    ensures TimesSorted(h + [p])
  {
    var r := h + [p];
    forall i, j | 0 <= i < j < |r| ensures r[i].time <= r[j].time {
      if j == |h| {
        assert r[i].time <= h[|h| - 1].time;
      }
    }
  }

  /** The trend of a pruned history (`pct` of ±Infinity or NaN when the first price is 0). */
  function TrendOf(h: seq<PricePoint>): Trend
  {
    if |h| < 2 then Flat
    else
      var first := h[0].price;
      var change := h[|h| - 1].price - first;
      if first == 0.0 then
        (if change > 0.0 then Rising else if change < 0.0 then Falling else Flat)
      else
        var pct := change / first * 100.0;
        if pct > 0.1 then Rising else if pct < -0.1 then Falling else Flat
  }

  /** Dividing by a positive number keeps the side of a threshold. */
  lemma DivThreshold(c: real, f: real, t: real)
    requires f > 0.0
    ensures c / f > t <==> c > t * f
    ensures c / f < t <==> c < t * f
  {
    var q := c / f;
    assert q * f == c;
    assert (q - t) * f == c - t * f;
  }

  /** For a positive first price the trend flips at ±0.1 % of it. */
  lemma TrendThresholds(h: seq<PricePoint>)
    requires |h| >= 2 && h[0].price > 0.0
    ensures TrendOf(h) == Rising <==> (h[|h| - 1].price - h[0].price) * 1000.0 > h[0].price
    ensures TrendOf(h) == Falling <==> (h[|h| - 1].price - h[0].price) * 1000.0 < -h[0].price
  {
    var first := h[0].price;
    var change := h[|h| - 1].price - first;
    DivThreshold(change, first, 0.001);
    DivThreshold(change, first, -0.001);
  }

  /** The module-level `priceHistory` of the scraper. */
  class MomentumTracker {
    var priceHistory: seq<PricePoint>

    constructor ()
      ensures priceHistory == []
    {
      priceHistory := [];
    }

    /** `detectMomentum`: record the price, prune the stale front, report the trend. */
    method DetectMomentum(currentPrice: real, now: int) returns (trend: Trend)
      modifies this
      ensures var pushed := old(priceHistory) + [PricePoint(currentPrice, now)];
        priceHistory == pushed[StaleCount(pushed, now)..]
      ensures |priceHistory| > 0 && priceHistory[|priceHistory| - 1] == PricePoint(currentPrice, now)
      ensures old(TimesSorted(priceHistory)) && (old(priceHistory) == [] || old(priceHistory)[|old(priceHistory)| - 1].time <= now) ==>
        TimesSorted(priceHistory) && forall i | 0 <= i < |priceHistory| :: !IsStale(priceHistory[i], now)
      ensures trend == TrendOf(priceHistory)
    {
      priceHistory := priceHistory + [PricePoint(currentPrice, now)];
      ghost var pushed := priceHistory;
      ghost var shifted := 0;
      while |priceHistory| > 0 && now - priceHistory[0].time > MomentumWindowMs
        invariant 0 <= shifted <= StaleCount(pushed, now)
        invariant priceHistory == pushed[shifted..]
      {
        priceHistory := priceHistory[1..];
        shifted := shifted + 1;
      }
      assert shifted == StaleCount(pushed, now);
      FreshLastKept(pushed, now);
      if TimesSorted(old(priceHistory)) && (old(priceHistory) == [] || old(priceHistory)[|old(priceHistory)| - 1].time <= now) {
        SortedPush(old(priceHistory), PricePoint(currentPrice, now));
        PrunedWithinWindow(pushed, now);
      }
      trend := TrendOf(priceHistory);
    }
  }

  // ---------------------------------------------------------------------------
  // parseCountdownToSeconds
  // ---------------------------------------------------------------------------

  predicate IsDigit(c: char)
  {
    '0' <= c <= '9'
  }

  function DigitValue(c: char): nat
    requires IsDigit(c)
  {
    (c as int) - ('0' as int)
  }

  /**
    * `(\d{1,2})` followed by the literal `tail` at position p: the number and
    * the position after `tail`. Every `tail` used starts with a non-digit, so
    * the greedy two-digit reading and the one-digit reading never both
    * succeed, and backtracking has no other choice to make.
    */
  function Group(s: string, p: nat, tail: string): (r: Option<(nat, nat)>)
    ensures r.Some? ==> r.value.0 < 100 && p < r.value.1 <= |s|
  {
    if p + 2 + |tail| <= |s| && IsDigit(s[p]) && IsDigit(s[p + 1]) && s[p + 2..p + 2 + |tail|] == tail then
      Some((10 * DigitValue(s[p]) + DigitValue(s[p + 1]), p + 2 + |tail|))
    else if p + 1 + |tail| <= |s| && IsDigit(s[p]) && s[p + 1..p + 1 + |tail|] == tail then
      Some((DigitValue(s[p]), p + 1 + |tail|))
    else None
  }

  /** `/(\d{1,2})h:(\d{1,2})m:(\d{1,2})s/` matched at exactly position p. */
  function MatchAt(s: string, p: nat): (r: Option<(nat, nat, nat)>)
    ensures r.Some? ==> r.value.0 < 100 && r.value.1 < 100 && r.value.2 < 100
  {
    match Group(s, p, "h:")
    case None => None
    case Some((h, p1)) =>
      match Group(s, p1, "m:")
      case None => None
      case Some((m, p2)) =>
        match Group(s, p2, "s")
        case None => None
        case Some((sec, _)) => Some((h, m, sec))
  }

  /** `String.prototype.match` of the unanchored regex: the leftmost match from position p on. */
  function FirstMatch(s: string, p: nat): (r: Option<(nat, nat, nat)>)
    ensures r.Some? ==> r.value.0 < 100 && r.value.1 < 100 && r.value.2 < 100
    decreases |s| - p
  {
    if p >= |s| then None
    else match MatchAt(s, p)
      case Some(t) => Some(t)
      case None => FirstMatch(s, p + 1)
  }

  /** `parseCountdownToSeconds`: `h*3600 + m*60 + s` of the first "HHh:MMm:SSs", 0 for null, "" or no match. */
  function ParseCountdownToSeconds(countdown: Option<string>): (seconds: nat)
    ensures seconds <= 99 * 3600 + 99 * 60 + 99
    ensures countdown.None? || countdown.value == "" ==> seconds == 0
    ensures countdown.Some? && FirstMatch(countdown.value, 0).None? ==> seconds == 0
    ensures countdown.Some? && FirstMatch(countdown.value, 0).Some? ==>
      var (h, m, s) := FirstMatch(countdown.value, 0).value; seconds == h * 3600 + m * 60 + s
  {
    if countdown.None? || countdown.value == "" then 0
    else match FirstMatch(countdown.value, 0)
      case None => 0
      case Some((h, m, s)) => h * 3600 + m * 60 + s
  }

  /** A `\d{1,2}` group spelling the number `v`: one digit, or two. */
  predicate IsField(f: string, v: nat)
  {
    (|f| == 1 && IsDigit(f[0]) && DigitValue(f[0]) == v) ||
    (|f| == 2 && IsDigit(f[0]) && IsDigit(f[1]) && 10 * DigitValue(f[0]) + DigitValue(f[1]) == v)
  }

  /** A field followed by its literal is read as the field's number, whether it has one digit or two. */
  lemma GroupReadsField(s: string, p: nat, f: string, tail: string, v: nat)
    requires IsField(f, v) && |tail| > 0 && !IsDigit(tail[0])
    requires p + |f| + |tail| <= |s|
    requires forall i | 0 <= i < |f| :: s[p + i] == f[i]
    requires forall i | 0 <= i < |tail| :: s[p + |f| + i] == tail[i]
    ensures Group(s, p, tail) == Some((v, p + |f| + |tail|))
  {
    assert s[p] == f[0];
    assert s[p + |f|..p + |f| + |tail|] == tail;
    if |f| == 2 {
      assert s[p + 1] == f[1];
    } else {
      assert s[p + 1] == tail[0];
    }
  }

  /** An `h:m:s` text whose fields have one or two digits matches the countdown pattern at its start. */
  lemma CountdownMatches(fh: string, fm: string, fs: string, h: nat, m: nat, s: nat)
    requires IsField(fh, h) && IsField(fm, m) && IsField(fs, s)
    ensures MatchAt(fh + "h:" + fm + "m:" + fs + "s", 0) == Some((h, m, s))
  {
    var str := fh + "h:" + fm + "m:" + fs + "s";
    var p1 := |fh| + 2;
    var p2 := p1 + |fm| + 2;
    GroupReadsField(str, 0, fh, "h:", h);
    GroupReadsField(str, p1, fm, "m:", m);
    GroupReadsField(str, p2, fs, "s", s);
  }

  /** Parsing an `h:m:s` countdown whose fields have one or two digits gives back its length in seconds. */
  lemma CountdownRoundTrip(fh: string, fm: string, fs: string, h: nat, m: nat, s: nat)
    requires IsField(fh, h) && IsField(fm, m) && IsField(fs, s)
    ensures ParseCountdownToSeconds(Some(fh + "h:" + fm + "m:" + fs + "s")) == h * 3600 + m * 60 + s
  {
    CountdownMatches(fh, fm, fs, h, m, s);
  }
}
