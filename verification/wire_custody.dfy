/** The first-in-first-out lot allocator of shywire, and conservation of inventory. */
module WireCustody {
  import opened Ordering
  import opened Sums
  import opened Permutations
  import opened WireSpec
  import T = TwoList

  function SumRemaining(queue: seq<Lot>): int {
    if queue == [] then 0 else queue[0].remaining + SumRemaining(queue[1..])
  }

  function SumQuantity(allocations: seq<Allocation>): int {
    if allocations == [] then 0 else allocations[0].quantity + SumQuantity(allocations[1..])
  }

  /** How much the allocations take from one lot. */
  function Taken(allocations: seq<Allocation>, id: Str): int {
    if allocations == [] then 0
    else
      var last := allocations[|allocations| - 1];
      Taken(allocations[..|allocations| - 1], id) + (if last.lotId == id then last.quantity else 0)
  }

  /** Every lot under its own id, never overdrawn, its status the one its figures call for. */
  ghost predicate LotsKept(lots: map<Str, Lot>) {
    forall id | id in lots ::
      && lots[id].lotId == id && 0 <= lots[id].remaining <= lots[id].quantity && 0 < lots[id].quantity
      && lots[id].status == RefreshedStatus(lots[id].remaining, lots[id].quantity)
  }

  // ----- what the queue is -----

  ghost predicate IsQueue(lots: map<Str, Lot>, ids: set<Str>, queue: seq<Lot>)
    requires ids <= lots.Keys
  {
    && (forall i | 0 <= i < |queue| :: queue[i].lotId in ids && queue[i] == lots[queue[i].lotId])
    && (forall id | id in ids :: lots[id] in queue)
    && (forall i, j | 0 <= i < j < |queue| :: LotLe(queue[i], queue[j]) && queue[i].lotId != queue[j].lotId)
  }

  lemma LotOrder(lots: map<Str, Lot>, queue: seq<Lot>)
    requires LotsKept(lots) && forall lot | lot in queue :: lot.lotId in lots && lots[lot.lotId] == lot
    ensures TotalPreorder(LotLe) && NoTies(LotLe, queue)
  {
    StrOrder([]);
    forall x, y | LotLe(x, y) && LotLe(y, x) ensures x.lotId == y.lotId {
      StrLeAntisymmetric(x.lotId, y.lotId);
    }
    forall x, y ensures LotLe(x, y) || LotLe(y, x) {
      StrLeTotal(x.lotId, y.lotId);
    }
    forall x, y, z | LotLe(x, y) && LotLe(y, z) ensures LotLe(x, z) {
      if x.createdAt == y.createdAt == z.createdAt {
        StrLeTransitive(x.lotId, y.lotId, z.lotId);
      }
    }
  }

  lemma DistinctPermutes<T>(a: seq<T>, b: seq<T>)
    requires multiset(a) == multiset(b)
    ensures T.Distinct(a) <==> T.Distinct(b)
  {
    T.DistinctCount(a);
    T.DistinctCount(b);
    assert |multiset(a)| == |a| && |multiset(b)| == |b|;
    SameElements(a, b);
    assert (set x | x in a) == (set x | x in b);
  }

  lemma {:induction false} ListingDistinct(s: set<Str>)
    ensures T.Distinct(Listing(s)) && forall id :: id in Listing(s) <==> id in s
  {
    ListedIds(s);
    T.DistinctCount(Listing(s));
    assert (set x | x in Listing(s)) == s;
  }

  lemma KeptLots(lots: map<Str, Lot>, ids: seq<Str>)
    requires LotsKept(lots) && forall id | id in ids :: id in lots
    ensures forall lot | lot in LotsAt(lots, ids) :: lot.lotId in lots && lots[lot.lotId] == lot
  {
    forall i | 0 <= i < |ids|
      ensures LotsAt(lots, ids)[i].lotId in lots && lots[LotsAt(lots, ids)[i].lotId] == LotsAt(lots, ids)[i] {
      assert ids[i] in ids;
    }
  }

  /** However the lots in stock are collected, sorting them gives the queue. */
  lemma CollectedInventory(lots: map<Str, Lot>, asset: Str, warehouse: Str, sku: Str, ids: seq<Str>)
    requires LotsKept(lots) && multiset(ids) == multiset(StockIds(lots, asset, warehouse, sku))
    ensures forall id | id in ids :: id in lots
    ensures Sort(LotLe, LotsAt(lots, ids)) == Inventory(lots, asset, warehouse, sku)
  {
    var stock := StockIds(lots, asset, warehouse, sku);
    var listed := Listing(stock);
    assert stock <= lots.Keys && forall id :: id in ids <==> id in multiset(ids);
    ListedIds(stock);
    hide StockIds, LotLe, Sort, Listing;
    LotsAtPermutes(lots, ids, listed);
    KeptLots(lots, ids);
    LotOrder(lots, LotsAt(lots, ids));
    SortForgetsOrder(LotLe, LotsAt(lots, ids), LotsAt(lots, listed));
  }

  lemma {:induction false} LotsAtPermutes(lots: map<Str, Lot>, a: seq<Str>, b: seq<Str>)
    requires multiset(a) == multiset(b)
    requires (forall id | id in a :: id in lots) && (forall id | id in b :: id in lots)
    ensures multiset(LotsAt(lots, a)) == multiset(LotsAt(lots, b))
  {
    assert |multiset(a)| == |a| && |multiset(b)| == |b|;
    if a != [] {
      assert a[0] in multiset(b);
      var k :| 0 <= k < |b| && b[k] == a[0];
      var rest := b[..k] + b[k + 1..];
      TakeOutBoth(a, b, k);
      LotsAtPermutes(lots, a[1..], rest);
      var x, y := LotsAt(lots, a), LotsAt(lots, b);
      assert x == [lots[a[0]]] + LotsAt(lots, a[1..]);
      TakeOut(y, k);
      assert LotsAt(lots, rest) == y[..k] + y[k + 1..];
    }
  }

  lemma {:induction false} LotsAtListing(lots: map<Str, Lot>, ids: set<Str>)
    requires LotsKept(lots) && ids <= lots.Keys
    ensures forall id | id in Listing(ids) :: id in lots
    ensures var unsorted := LotsAt(lots, Listing(ids));
      && T.Distinct(unsorted)
      && LotsFrom(lots, ids, unsorted)
  {
    ListingDistinct(ids);
    hide Listing, LotsAt;
    LotsAtIds(lots, ids, Listing(ids));
  }

  lemma LotsAtIds(lots: map<Str, Lot>, ids: set<Str>, listed: seq<Str>)
    requires LotsKept(lots) && ids <= lots.Keys && T.Distinct(listed) && forall id :: id in listed <==> id in ids
    ensures T.Distinct(LotsAt(lots, listed)) && LotsFrom(lots, ids, LotsAt(lots, listed))
  {
    var unsorted := LotsAt(lots, listed);
    forall i | 0 <= i < |listed| ensures unsorted[i].lotId == listed[i] && listed[i] in ids
      && unsorted[i] == lots[listed[i]] {
      assert listed[i] in listed;
    }
    hide LotsAt, LotsKept;
    forall id | id in ids ensures lots[id] in unsorted {
      var i :| 0 <= i < |listed| && listed[i] == id;
      assert unsorted[i] == lots[id];
    }
  }

  /** The queue holds every lot in stock once, oldest first. */
  lemma InventoryIsQueue(lots: map<Str, Lot>, asset: Str, warehouse: Str, sku: Str)
    requires LotsKept(lots)
    ensures IsQueue(lots, StockIds(lots, asset, warehouse, sku), Inventory(lots, asset, warehouse, sku))
  {
    var ids := StockIds(lots, asset, warehouse, sku);
    LotsAtListing(lots, ids);
    var unsorted := LotsAt(lots, Listing(ids));
    assert Inventory(lots, asset, warehouse, sku) == Sort(LotLe, unsorted);
    QueueOf(lots, ids, unsorted, Sort(LotLe, unsorted));
    hide *;
  }

  ghost predicate LotsFrom(lots: map<Str, Lot>, ids: set<Str>, some: seq<Lot>)
    requires ids <= lots.Keys
  {
    && (forall lot | lot in some :: lot.lotId in ids && lots[lot.lotId] == lot)
    && (forall id | id in ids :: lots[id] in some)
  }

  lemma {:induction false} QueueOf(lots: map<Str, Lot>, ids: set<Str>, unsorted: seq<Lot>, queue: seq<Lot>)
    requires LotsKept(lots) && ids <= lots.Keys && T.Distinct(unsorted) && queue == Sort(LotLe, unsorted)
    requires LotsFrom(lots, ids, unsorted)
    ensures IsQueue(lots, ids, queue)
  {
    assert NoTies(LotLe, unsorted) && SortedBy(LotLe, queue) by {
      LotOrder(lots, unsorted);
      SortSorted(LotLe, unsorted);
    }
    hide *;
    DistinctPermutes(queue, unsorted);
    SameElements(queue, unsorted);
    SameLotsFrom(lots, ids, unsorted, queue);
    OrderedQueue(lots, ids, queue);
  }

  lemma SameLotsFrom(lots: map<Str, Lot>, ids: set<Str>, a: seq<Lot>, b: seq<Lot>)
    requires ids <= lots.Keys && LotsFrom(lots, ids, a) && forall x :: x in a <==> x in b
    ensures LotsFrom(lots, ids, b)
  {
  }

  lemma OrderedQueue(lots: map<Str, Lot>, ids: set<Str>, queue: seq<Lot>)
    requires ids <= lots.Keys && LotsFrom(lots, ids, queue) && T.Distinct(queue) && SortedBy(LotLe, queue)
    ensures IsQueue(lots, ids, queue)
  {
    hide LotLe;
    forall i | 0 <= i < |queue| ensures queue[i].lotId in ids && queue[i] == lots[queue[i].lotId] {
      assert queue[i] in queue;
    }
    forall i, j | 0 <= i < j < |queue| ensures LotLe(queue[i], queue[j]) && queue[i].lotId != queue[j].lotId {
      assert queue[i] != queue[j];
    }
  }

  // ----- what the queue holds -----

  lemma {:induction false} InsertKeepsSum(x: Lot, queue: seq<Lot>)
    ensures SumRemaining(Insert(LotLe, x, queue)) == x.remaining + SumRemaining(queue)
  {
    if queue != [] && !LotLe(x, queue[0]) {
      InsertKeepsSum(x, queue[1..]);
    }
  }

  lemma {:induction false} SortKeepsSum(queue: seq<Lot>)
    ensures SumRemaining(Sort(LotLe, queue)) == SumRemaining(queue)
  {
    if queue != [] {
      SortKeepsSum(queue[1..]);
      InsertKeepsSum(queue[0], Sort(LotLe, queue[1..]));
    }
  }

  ghost function RemainingAt(lots: map<Str, Lot>, ids: set<Str>): map<Str, int>
    requires ids <= lots.Keys
  {
    map id | id in ids :: lots[id].remaining
  }

  lemma {:induction false} SumOfLotsAt(lots: map<Str, Lot>, ids: seq<Str>, all: set<Str>)
    requires multiset(ids) == multiset(all) && all <= lots.Keys
    ensures forall id | id in ids :: id in lots
    ensures SumRemaining(LotsAt(lots, ids)) == Sum(RemainingAt(lots, all))
    decreases |ids|
  {
    hide Sum;
    RestOf(ids, all);
    if ids == [] {
      SumZeros(RemainingAt(lots, all));
    } else {
      SumOfLotsAt(lots, ids[1..], all - {ids[0]});
      assert LotsAt(lots, ids)[1..] == LotsAt(lots, ids[1..]);
      SumSplit(RemainingAt(lots, all), ids[0]);
      assert RemainingAt(lots, all) - {ids[0]} == RemainingAt(lots, all - {ids[0]});
    }
  }

  lemma RestOf(ids: seq<Str>, all: set<Str>)
    requires multiset(ids) == multiset(all)
    ensures forall id :: id in ids <==> id in all
    ensures ids == [] ==> all == {}
    ensures ids != [] ==> multiset(ids[1..]) == multiset(all - {ids[0]})
  {
    assert forall id :: id in ids <==> id in multiset(ids);
    if ids != [] {
      TakeFirst(ids);
      assert multiset(all) == multiset(all - {ids[0]}) + multiset{ids[0]};
      assert multiset(ids[1..]) == multiset(ids) - multiset{ids[0]};
    }
  }

  lemma InventorySum(lots: map<Str, Lot>, asset: Str, warehouse: Str, sku: Str)
    ensures SumRemaining(Inventory(lots, asset, warehouse, sku)) == Available(lots, asset, warehouse, sku)
  {
    var ids := StockIds(lots, asset, warehouse, sku);
    ListedIds(ids);
    SortKeepsSum(LotsAt(lots, Listing(ids)));
    SumOfLotsAt(lots, Listing(ids), ids);
    assert RemainingAt(lots, ids) == map id | id in ids :: lots[id].remaining;
  }

  // ----- what the loop takes -----

  /** The first-in-first-out draw of a quantity: a prefix of the queue, something from
      every lot of it, everything from all but the last, and the quantity in all. */
  ghost predicate IsFifo(queue: seq<Lot>, quantity: int, allocations: seq<Allocation>) {
    && |allocations| <= |queue|
    && SumQuantity(allocations) == quantity
    && (forall i | 0 <= i < |allocations| ::
          && allocations[i].lotId == queue[i].lotId
          && 0 < allocations[i].quantity <= queue[i].remaining
          && (i < |allocations| - 1 ==> allocations[i].quantity == queue[i].remaining))
  }

  ghost predicate Stocked(queue: seq<Lot>) {
    forall i | 0 <= i < |queue| :: queue[i].remaining > 0
  }

  lemma {:induction false} StockedSum(queue: seq<Lot>)
    requires Stocked(queue)
    ensures SumRemaining(queue) >= 0
  {
    if queue != [] {
      StockedSum(queue[1..]);
    }
  }

  lemma {:induction false} AllocateIsFifo(queue: seq<Lot>, quantity: int)
    requires Stocked(queue) && 0 <= quantity <= SumRemaining(queue)
    ensures IsFifo(queue, quantity, Allocate(queue, quantity))
  {
    if quantity > 0 && queue != [] {
      var consume := Least(queue[0].remaining, quantity);
      var rest := Allocate(queue[1..], quantity - consume);
      StockedSum(queue[1..]);
      AllocateIsFifo(queue[1..], quantity - consume);
      var allocations := Allocate(queue, quantity);
      assert allocations == [Allocation(queue[0].lotId, consume)] + rest && allocations[1..] == rest;
      forall i | 0 < i < |allocations| ensures allocations[i] == rest[i - 1] && queue[i] == queue[1..][i - 1] {}
    }
  }

  lemma {:induction false} SumQuantityPositive(allocations: seq<Allocation>)
    requires forall i | 0 <= i < |allocations| :: allocations[i].quantity > 0
    ensures SumQuantity(allocations) >= 0 && (allocations != [] ==> SumQuantity(allocations) > 0)
  {
    if allocations != [] {
      SumQuantityPositive(allocations[1..]);
    }
  }

  /** There is only one first-in-first-out draw, and the loop makes it. */
  lemma {:induction false} FifoIsAllocate(queue: seq<Lot>, quantity: int, allocations: seq<Allocation>)
    requires Stocked(queue) && 0 <= quantity <= SumRemaining(queue)
    ensures IsFifo(queue, quantity, allocations) <==> allocations == Allocate(queue, quantity)
  {
    AllocateIsFifo(queue, quantity);
    if IsFifo(queue, quantity, allocations) {
      SumQuantityPositive(allocations);
      if quantity > 0 {
        var rest := allocations[1..];
        SumQuantityPositive(rest);
        StockedSum(queue[1..]);
        var consume := allocations[0].quantity;
        forall i | 0 <= i < |rest| ensures rest[i] == allocations[i + 1] && queue[1..][i] == queue[i + 1] {}
        FifoIsAllocate(queue[1..], quantity - consume, rest);
        assert allocations == [allocations[0]] + rest;
      }
    }
  }

  lemma {:induction false} SumQuantityLast(allocations: seq<Allocation>)
    requires allocations != []
    ensures var n := |allocations| - 1;
      SumQuantity(allocations) == SumQuantity(allocations[..n]) + allocations[n].quantity
  {
    var n := |allocations| - 1;
    if n > 0 {
      SumQuantityLast(allocations[1..]);
      assert allocations[1..][..n - 1] == allocations[..n][1..];
    }
  }

  lemma {:induction false} TakenNothing(allocations: seq<Allocation>, id: Str)
    requires forall i | 0 <= i < |allocations| :: allocations[i].lotId != id
    ensures Taken(allocations, id) == 0
  {
    if allocations != [] {
      TakenNothing(allocations[..|allocations| - 1], id);
    }
  }

  lemma {:induction false} TakenAt(allocations: seq<Allocation>, k: nat)
    requires k < |allocations|
    requires forall i, j | 0 <= i < j < |allocations| :: allocations[i].lotId != allocations[j].lotId
    ensures Taken(allocations, allocations[k].lotId) == allocations[k].quantity
  {
    var n := |allocations| - 1;
    if k == n {
      TakenNothing(allocations[..n], allocations[n].lotId);
    } else {
      TakenAt(allocations[..n], k);
    }
  }

  /** Drawing the allocations changes what remains and the status that follows from it,
      lot by lot, and nothing else. */
  lemma {:induction false} DrawnPointwise(lots: map<Str, Lot>, allocations: seq<Allocation>)
    requires LotsKept(lots)
    ensures var after := DrawAll(lots, allocations);
      && after.Keys == lots.Keys
      && forall id | id in lots ::
           after[id] == lots[id].(remaining := lots[id].remaining - Taken(allocations, id),
                                  status := RefreshedStatus(lots[id].remaining - Taken(allocations, id),
                                                            lots[id].quantity))
  {
    if allocations != [] {
      DrawnPointwise(lots, allocations[..|allocations| - 1]);
    }
  }

  /** Not among the first lots of the queue. */
  ghost predicate Waits(queue: seq<Lot>, drawn: nat, id: Str)
    requires drawn <= |queue|
  {
    forall i | 0 <= i < drawn :: queue[i].lotId != id
  }

  /** The lots after a draw from the front of the queue, and every other lot as it was. */
  ghost predicate DrawnFrom(lots: map<Str, Lot>, after: map<Str, Lot>, queue: seq<Lot>, allocations: seq<Allocation>)
    requires |allocations| <= |queue|
  {
    && after.Keys == lots.Keys
    && (forall i | 0 <= i < |allocations| ::
          queue[i].lotId in after && after[queue[i].lotId] == Drawn(queue[i], allocations[i].quantity))
    && (forall id | id in lots && Waits(queue, |allocations|, id) :: after[id] == lots[id])
  }

  lemma {:induction false} FifoDraws(lots: map<Str, Lot>, ids: set<Str>, queue: seq<Lot>, quantity: int,
                                     allocations: seq<Allocation>)
    requires LotsKept(lots) && ids <= lots.Keys && IsQueue(lots, ids, queue) && IsFifo(queue, quantity, allocations)
    ensures DrawnFrom(lots, DrawAll(lots, allocations), queue, allocations)
    ensures LotsKept(DrawAll(lots, allocations))
  {
    SameLots(lots, allocations);
    forall i: nat | i < |allocations|
      ensures queue[i].lotId in DrawAll(lots, allocations)
      ensures DrawAll(lots, allocations)[queue[i].lotId] == Drawn(queue[i], allocations[i].quantity)
    {
      hide *;
      DrawnOne(lots, ids, queue, quantity, allocations, i);
    }
    forall id | id in lots && Waits(queue, |allocations|, id)
      ensures id in DrawAll(lots, allocations) && DrawAll(lots, allocations)[id] == lots[id]
    {
      hide *;
      DrawnOther(lots, queue, quantity, allocations, id);
    }
    FifoKeeps(lots, ids, queue, quantity, allocations);
    hide IsQueue, IsFifo, DrawAll, LotsKept, Drawn, Waits;
  }

  lemma SameLots(lots: map<Str, Lot>, allocations: seq<Allocation>)
    requires LotsKept(lots)
    ensures DrawAll(lots, allocations).Keys == lots.Keys
  {
    DrawnPointwise(lots, allocations);
  }

  lemma {:induction false} DrawnOne(lots: map<Str, Lot>, ids: set<Str>, queue: seq<Lot>, quantity: int,
                                    allocations: seq<Allocation>,
                 i: nat)
    requires LotsKept(lots) && ids <= lots.Keys && IsQueue(lots, ids, queue) && IsFifo(queue, quantity, allocations)
    requires i < |allocations|
    ensures var after := DrawAll(lots, allocations);
      queue[i].lotId in after && after[queue[i].lotId] == Drawn(queue[i], allocations[i].quantity)
  {
    DrawnPointwise(lots, allocations);
    TakenAt(allocations, i);
    hide LotLe, DrawAll;
  }

  lemma DrawnOther(lots: map<Str, Lot>, queue: seq<Lot>, quantity: int, allocations: seq<Allocation>, id: Str)
    requires LotsKept(lots) && IsFifo(queue, quantity, allocations)
    requires id in lots && Waits(queue, |allocations|, id)
    ensures id in DrawAll(lots, allocations) && DrawAll(lots, allocations)[id] == lots[id]
  {
    DrawnPointwise(lots, allocations);
    TakenNothing(allocations, id);
    KeptAt(lots, id);
    hide DrawAll, LotsKept;
  }

  lemma KeptAt(lots: map<Str, Lot>, id: Str)
    requires LotsKept(lots) && id in lots
    ensures lots[id].status == RefreshedStatus(lots[id].remaining, lots[id].quantity)
  {
  }

  lemma FifoKeeps(lots: map<Str, Lot>, ids: set<Str>, queue: seq<Lot>, quantity: int, allocations: seq<Allocation>)
    requires LotsKept(lots) && ids <= lots.Keys && IsQueue(lots, ids, queue) && IsFifo(queue, quantity, allocations)
    ensures LotsKept(DrawAll(lots, allocations))
  {
    DrawnPointwise(lots, allocations);
    forall id | id in lots ensures 0 <= Taken(allocations, id) <= lots[id].remaining {
      TakenWithin(lots, ids, queue, quantity, allocations, id);
    }
    hide DrawAll, RefreshedStatus, IsQueue, IsFifo, LotLe, Taken;
  }

  lemma {:induction false} TakenWithin(lots: map<Str, Lot>, ids: set<Str>, queue: seq<Lot>, quantity: int,
                                       allocations: seq<Allocation>,
                    id: Str)
    requires LotsKept(lots) && ids <= lots.Keys && IsQueue(lots, ids, queue) && IsFifo(queue, quantity, allocations)
    requires id in lots
    ensures 0 <= Taken(allocations, id) <= lots[id].remaining
  {
    if i :| 0 <= i < |allocations| && queue[i].lotId == id {
      TakenAt(allocations, i);
    } else {
      TakenNothing(allocations, id);
    }
  }

  // ----- availability -----

  ghost function MatchIds(lots: map<Str, Lot>, asset: Str, warehouse: Str, sku: Str): set<Str> {
    set id | id in lots && Matches(lots[id], asset, warehouse, sku)
  }

  lemma AvailableIsRemaining(lots: map<Str, Lot>, asset: Str, warehouse: Str, sku: Str)
    requires LotsKept(lots)
    ensures Available(lots, asset, warehouse, sku) == Sum(RemainingAt(lots, MatchIds(lots, asset, warehouse, sku)))
    ensures Available(lots, asset, warehouse, sku) >= 0
  {
    var all, stock := MatchIds(lots, asset, warehouse, sku), StockIds(lots, asset, warehouse, sku);
    SumWithoutZeros(RemainingAt(lots, all), stock);
    SumNonNegative(RemainingAt(lots, all));
    assert (map id | id in stock :: RemainingAt(lots, all)[id]) == map id | id in stock :: lots[id].remaining;
  }

  lemma {:induction false} DrawnRemaining(lots: map<Str, Lot>, ids: set<Str>, allocations: seq<Allocation>)
    requires LotsKept(lots) && ids <= lots.Keys
    requires forall i | 0 <= i < |allocations| :: allocations[i].lotId in ids
    ensures DrawAll(lots, allocations).Keys == lots.Keys
    ensures Sum(RemainingAt(DrawAll(lots, allocations), ids)) == Sum(RemainingAt(lots, ids)) - SumQuantity(allocations)
  {
    hide Sum, LotsKept, RefreshedStatus;
    if allocations != [] {
      var n := |allocations| - 1;
      var before, last := DrawAll(lots, allocations[..n]), allocations[n];
      DrawnRemaining(lots, ids, allocations[..n]);
      SumQuantityLast(allocations);
      var q := before[last.lotId].remaining - last.quantity;
      SumUpdate(RemainingAt(before, ids), last.lotId, q);
      assert RemainingAt(DrawAll(lots, allocations), ids) == RemainingAt(before, ids)[last.lotId := q];
    }
  }

  ghost predicate DrawnHere(lots: map<Str, Lot>, allocations: seq<Allocation>, asset: Str, warehouse: Str, sku: Str) {
    forall i | 0 <= i < |allocations| ::
      allocations[i].lotId in lots && Matches(lots[allocations[i].lotId], asset, warehouse, sku)
  }

  /** The draw lowers the inventory it was made from by what it took. */
  lemma AvailableAfter(lots: map<Str, Lot>, allocations: seq<Allocation>, asset: Str, warehouse: Str, sku: Str)
    requires LotsKept(lots) && LotsKept(DrawAll(lots, allocations))
        && DrawnHere(lots, allocations, asset, warehouse, sku)
    ensures Available(DrawAll(lots, allocations), asset, warehouse, sku)
         == Available(lots, asset, warehouse, sku) - SumQuantity(allocations)
  {
    var after := DrawAll(lots, allocations);
    var ids := MatchIds(lots, asset, warehouse, sku);
    assert after.Keys == lots.Keys && MatchIds(after, asset, warehouse, sku) == ids by {
      DrawnPointwise(lots, allocations);
    }
    DrawnRemaining(lots, ids, allocations);
    AvailableIsRemaining(lots, asset, warehouse, sku);
    AvailableIsRemaining(after, asset, warehouse, sku);
    hide *;
  }

  /** And leaves every other inventory alone. */
  lemma {:induction false} AvailableElsewhere(lots: map<Str, Lot>, allocations: seq<Allocation>, asset: Str,
                                              warehouse: Str, sku: Str,
                           a: Str, w: Str, k: Str)
    requires LotsKept(lots) && DrawnHere(lots, allocations, asset, warehouse, sku)
        && (a, w, k) != (asset, warehouse, sku)
    ensures Available(DrawAll(lots, allocations), a, w, k) == Available(lots, a, w, k)
  {
    var after := DrawAll(lots, allocations);
    DrawnPointwise(lots, allocations);
    forall id | id in lots && Matches(lots[id], a, w, k) ensures after[id] == lots[id] {
      TakenNothing(allocations, id);
    }
    hide DrawAll, Taken, LotsKept;
    assert forall id | id in lots :: Matches(after[id], a, w, k) == Matches(lots[id], a, w, k);
    assert StockIds(after, a, w, k) == StockIds(lots, a, w, k);
    assert (map id | id in StockIds(after, a, w, k) :: after[id].remaining)
        == (map id | id in StockIds(lots, a, w, k) :: lots[id].remaining);
  }

  /** The allocator, for every quantity the inventory covers. */
  lemma {:induction false} AllocationExact(lots: map<Str, Lot>, asset: Str, warehouse: Str, sku: Str, quantity: int)
    requires LotsKept(lots) && 0 <= quantity <= Available(lots, asset, warehouse, sku)
    ensures var queue := Inventory(lots, asset, warehouse, sku);
      var allocations := Allocate(queue, quantity);
      var after := DrawAll(lots, allocations);
      && IsQueue(lots, StockIds(lots, asset, warehouse, sku), queue)
      && IsFifo(queue, quantity, allocations)
      && DrawnFrom(lots, after, queue, allocations) && LotsKept(after)
      && DrawnHere(lots, allocations, asset, warehouse, sku)
      && Available(after, asset, warehouse, sku) == Available(lots, asset, warehouse, sku) - quantity
      && (forall a, w, k | (a, w, k) != (asset, warehouse, sku) ::
        Available(after, a, w, k) == Available(lots, a, w, k))
  {
    var ids, queue := StockIds(lots, asset, warehouse, sku), Inventory(lots, asset, warehouse, sku);
    var allocations := Allocate(queue, quantity);
    InventoryIsQueue(lots, asset, warehouse, sku);
    InventorySum(lots, asset, warehouse, sku);
    QueueStocked(lots, asset, warehouse, sku, queue);
    AllocateIsFifo(queue, quantity);
    assert DrawnHere(lots, allocations, asset, warehouse, sku) && SumQuantity(allocations) == quantity by {
      hide Allocate, Inventory, IsQueue, Stocked;
    }
    hide *;
    FifoDraws(lots, ids, queue, quantity, allocations);
    AvailableAfter(lots, allocations, asset, warehouse, sku);
    forall a, w, k | (a, w, k) != (asset, warehouse, sku)
      ensures Available(DrawAll(lots, allocations), a, w, k) == Available(lots, a, w, k)
    {
      AvailableElsewhere(lots, allocations, asset, warehouse, sku, a, w, k);
    }
  }

  lemma QueueStocked(lots: map<Str, Lot>, asset: Str, warehouse: Str, sku: Str, queue: seq<Lot>)
    requires IsQueue(lots, StockIds(lots, asset, warehouse, sku), queue)
    ensures Stocked(queue)
    ensures forall i | 0 <= i < |queue| ::
        queue[i].lotId in lots && Matches(lots[queue[i].lotId], asset, warehouse, sku)
  {
  }
}
