/** Conservation of custody inventory over whole runs: what left a lot is what the
    settlement records say was allocated from it. */
module WireInventory {
  import opened Ordering
  import opened Sums
  import opened WireSpec
  import opened WireCustody

  ghost function TakenBy(settlements: map<Str, Settlement>, lot: Str): map<Str, int> {
    map id | id in settlements :: Taken(settlements[id].allocations, lot)
  }

  ghost function SettlementsOf(settlements: map<Str, Settlement>, request: Str): set<Str> {
    set id | id in settlements && settlements[id].requestId == request
  }

  /** What left each lot is what all settlements together took from it. */
  ghost predicate LotsBalance(c: Custody) {
    forall lot | lot in c.lots :: c.lots[lot].quantity - c.lots[lot].remaining == Sum(TakenBy(c.settlements, lot))
  }

  /** A settlement names a request, allocates exactly its settled quantity from lots of
      the requested kind, and stays within what was asked for. */
  ghost predicate Sound(c: Custody, t: Settlement) {
    && t.requestId in c.requests
    && var r := c.requests[t.requestId];
    && 0 < t.burnAmount <= r.siloAmount
    && 0 < t.settledQuantity <= r.quantity
    && SumQuantity(t.allocations) == t.settledQuantity
    && (forall i | 0 <= i < |t.allocations| :: t.allocations[i].quantity > 0)
    && DrawnHere(c.lots, t.allocations, r.asset, r.warehouse, r.sku)
  }

  ghost predicate AllSound(c: Custody) {
    forall id | id in c.settlements :: Sound(c, c.settlements[id])
  }

  /** Settled exactly with one settlement, pending exactly with none. */
  ghost predicate RequestsTally(c: Custody) {
    forall r | r in c.requests ::
      |SettlementsOf(c.settlements, r)| == if c.requests[r].status == Settled then 1 else 0
  }

  ghost predicate Conserved(c: Custody) {
    LotsKept(c.lots) && LotsBalance(c) && AllSound(c) && RequestsTally(c)
  }

  // ----- recording a lot -----

  lemma TakenNowhere(c: Custody, lot: Str)
    requires AllSound(c) && lot !in c.lots
    ensures Sum(TakenBy(c.settlements, lot)) == 0
  {
    forall id | id in c.settlements ensures Taken(c.settlements[id].allocations, lot) == 0 {
      assert Sound(c, c.settlements[id]);
      TakenNothing(c.settlements[id].allocations, lot);
    }
    SumZeros(TakenBy(c.settlements, lot));
  }

  lemma {:induction false} RecordedConserved(c: Custody, lot: Lot)
    requires Conserved(c) && lot.lotId !in c.lots && lot.quantity > 0
    requires lot.remaining == lot.quantity && lot.status == Recorded
    ensures Conserved(c.(lots := c.lots[lot.lotId := lot]))
  {
    hide Sum, Sound, Taken, SettlementsOf;
    TakenNowhere(c, lot.lotId);
    var d := c.(lots := c.lots[lot.lotId := lot]);
    forall id | id in d.settlements ensures Sound(d, d.settlements[id]) {
      SoundNames(c, c.settlements[id]);
      SoundStays(c, d, c.settlements[id]);
    }
  }

  // ----- a request -----

  lemma RequestedConserved(c: Custody, id: Str, r: Request)
    requires Conserved(c) && id !in c.requests && r.status == Pending
    ensures Conserved(c.(requests := c.requests[id := r]))
  {
    var d := c.(requests := c.requests[id := r]);
    assert LotsBalance(d);
    RequestedSound(c, d, id);
    RequestedTally(c, d, id);
    hide LotsKept, LotsBalance, AllSound, RequestsTally;
  }

  lemma RequestedSound(c: Custody, d: Custody, id: Str)
    requires AllSound(c) && id !in c.requests && id in d.requests
        && d == c.(requests := c.requests[id := d.requests[id]])
    ensures AllSound(d)
  {
    forall t | t in d.settlements ensures Sound(d, d.settlements[t]) {
      assert Sound(c, c.settlements[t]);
    }
    hide Sound;
  }

  lemma RequestedTally(c: Custody, d: Custody, id: Str)
    requires AllSound(c) && RequestsTally(c) && id !in c.requests && id in d.requests
        && d.requests[id].status == Pending
    requires d == c.(requests := c.requests[id := d.requests[id]])
    ensures RequestsTally(d)
  {
    forall t | t in c.settlements ensures c.settlements[t].requestId != id {
      SoundNames(c, c.settlements[t]);
    }
    hide Sound, AllSound;
    assert SettlementsOf(d.settlements, id) == {};
  }

  // ----- a settlement -----

  lemma SettledLots(c: Custody, d: Custody, id: Str, t: Settlement)
    requires LotsKept(c.lots) && LotsBalance(c) && id !in c.settlements
    requires d.lots == DrawAll(c.lots, t.allocations) && d.settlements == c.settlements[id := t]
    ensures LotsBalance(d)
  {
    DrawnPointwise(c.lots, t.allocations);
    hide DrawAll, LotsKept, Taken, Sum, RefreshedStatus, TakenBy;
    forall lot | lot in d.lots
      ensures d.lots[lot].quantity - d.lots[lot].remaining == Sum(TakenBy(d.settlements, lot))
    {
      TakenByMore(c.settlements, id, t, lot);
    }
  }

  lemma TakenByMore(settlements: map<Str, Settlement>, id: Str, t: Settlement, lot: Str)
    requires id !in settlements
    ensures Sum(TakenBy(settlements[id := t], lot)) == Sum(TakenBy(settlements, lot)) + Taken(t.allocations, lot)
  {
    var taken := Taken(t.allocations, lot);
    SumUpdate(TakenBy(settlements, lot), id, taken);
    assert TakenBy(settlements[id := t], lot) == TakenBy(settlements, lot)[id := taken];
  }

  /** Soundness only looks at the request's terms and at which lots there are. */
  lemma SoundStays(c: Custody, d: Custody, t: Settlement)
    requires Sound(c, t) && t.requestId in d.requests
    requires d.requests[t.requestId] == c.requests[t.requestId].(status := d.requests[t.requestId].status)
    requires c.lots.Keys <= d.lots.Keys
    requires forall id | id in c.lots ::
               d.lots[id] == c.lots[id].(remaining := d.lots[id].remaining, status := d.lots[id].status)
    ensures Sound(d, t)
  {
    hide SumQuantity;
  }

  lemma SettledTally(c: Custody, d: Custody, id: Str, t: Settlement)
    requires RequestsTally(c) && id !in c.settlements && t.requestId in c.requests
        && c.requests[t.requestId].status == Pending
    requires d.settlements == c.settlements[id := t]
    requires d.requests == c.requests[t.requestId := c.requests[t.requestId].(status := Settled)]
    ensures RequestsTally(d)
  {
    forall r | r in d.requests
      ensures |SettlementsOf(d.settlements, r)| == if d.requests[r].status == Settled then 1 else 0
    {
      assert SettlementsOf(d.settlements, r)
          == if r == t.requestId then SettlementsOf(c.settlements, r) + {id} else SettlementsOf(c.settlements, r);
    }
  }

  lemma {:induction false} SettledConserved(s: State, tx: Tx)
    requires tx.SettleRedemption? && Valid(s, tx) && Conserved(s.custody)
    ensures Conserved(NextCustody(s, tx))
  {
    var c := s.custody;
    var r := c.requests[tx.requestId];
    hide Available, Inventory, Allocate, DrawAll, LotsKept, LotsBalance, AllSound, RequestsTally, SumQuantity, Sum;
    var queue := Inventory(c.lots, r.asset, tx.warehouse, r.sku);
    var t := Settlement(tx.requestId, Allocate(queue, tx.quantity), tx.burnAmount, tx.quantity);
    var d := NextCustody(s, tx);
    assert d == Custody(DrawAll(c.lots, t.allocations), c.requests[tx.requestId := r.(status := Settled)],
                        c.settlements[tx.settlementId := t]);
    Covered(c.lots, r.asset, tx.warehouse, r.sku, tx.quantity);
    AllocationExact(c.lots, r.asset, tx.warehouse, r.sku, tx.quantity);
    SettledLots(c, d, tx.settlementId, t);
    SettledTally(c, d, tx.settlementId, t);
    assert Sound(c, t) by { hide Valid, NextCustody; }
    hide Valid, NextCustody, Sound, IsQueue, DrawnFrom, DrawnHere;
    SettledSound(c, d, tx.settlementId, t);
  }

  /** The wrapped total that validation compares never exceeds the real one. */
  lemma Covered(lots: map<Str, Lot>, asset: Str, warehouse: Str, sku: Str, quantity: int)
    requires LotsKept(lots) && Wrap64(Available(lots, asset, warehouse, sku)) >= quantity > 0
    ensures 0 <= quantity <= Available(lots, asset, warehouse, sku)
  {
    AvailableIsRemaining(lots, asset, warehouse, sku);
  }

  lemma SettledSound(c: Custody, d: Custody, id: Str, t: Settlement)
    requires LotsKept(c.lots) && AllSound(c) && Sound(c, t) && d.settlements == c.settlements[id := t]
    requires t.requestId in c.requests
        && d.requests == c.requests[t.requestId := c.requests[t.requestId].(status := Settled)]
    requires d.lots == DrawAll(c.lots, t.allocations)
    ensures AllSound(d)
  {
    DrawnPointwise(c.lots, t.allocations);
    hide DrawAll, LotsKept, Sound, Taken, RefreshedStatus;
    forall x | x in d.settlements ensures Sound(d, d.settlements[x]) {
      assert Sound(c, d.settlements[x]);
      SoundNames(c, d.settlements[x]);
      SoundStays(c, d, d.settlements[x]);
    }
  }

  lemma SoundNames(c: Custody, t: Settlement)
    requires Sound(c, t)
    ensures t.requestId in c.requests
  {
  }

  // ----- every run -----

  lemma {:induction false} StepConserved(s: State, tx: Tx)
    requires Valid(s, tx) && Conserved(s.custody)
    ensures Conserved(NextCustody(s, tx))
  {
    hide Conserved, Available, Inventory, Allocate, DrawAll;
    match tx
    case RecordLot(id, a, w, sku, quantity, now) =>
      RecordedConserved(s.custody, Lot(id, a, w, sku, quantity, quantity, Recorded, now));
    case RequestRedemption(id, a, account, w, sku, silo, quantity) =>
      RequestedConserved(s.custody, id, Request(a, account, w, sku, silo, quantity, Pending));
    case SettleRedemption(_, _, _, _, _) => SettledConserved(s, tx);
    case _ =>
  }

  /** Every reachable state: lots within bounds with the status their figures call for,
      lots and settlements in balance, settlements sound, requests settled exactly once. */
  lemma {:induction false} InventoryConserved(txs: seq<Tx>)
    ensures Conserved(Run(txs).custody)
    decreases |txs|
  {
    if txs == [] {
      assert EMPTY.custody == Custody(map[], map[], map[]);
    } else {
      var before, tx := txs[..|txs| - 1], txs[|txs| - 1];
      InventoryConserved(before);
      if Valid(Run(before), tx) {
        StepConserved(Run(before), tx);
      }
      hide Conserved, Valid, NextCustody, NextLedger, NextLists;
    }
  }

  /** Whatever passes validation can be allocated in full: no accepted settlement comes out
      short, wherever in a run it happens. */
  lemma {:induction false} SettlementsNeverShort(txs: seq<Tx>, tx: Tx)
    requires tx.SettleRedemption? && Valid(Run(txs), tx)
    ensures var c, d := Run(txs).custody, NextCustody(Run(txs), tx);
      var r := c.requests[tx.requestId];
      var queue := Inventory(c.lots, r.asset, r.warehouse, r.sku);
      && tx.settlementId in d.settlements
      && IsFifo(queue, tx.quantity, d.settlements[tx.settlementId].allocations)
      && DrawnFrom(c.lots, d.lots, queue, d.settlements[tx.settlementId].allocations)
      && Available(d.lots, r.asset, r.warehouse, r.sku) == Available(c.lots, r.asset, r.warehouse, r.sku) - tx.quantity
  {
    InventoryConserved(txs);
    var c := Run(txs).custody;
    var r := c.requests[tx.requestId];
    assert LotsKept(c.lots);
    Covered(c.lots, r.asset, r.warehouse, r.sku, tx.quantity);
    hide Available, Inventory, Allocate, DrawAll, LotsKept, Conserved, Run, IsFifo, DrawnFrom, IsQueue, DrawnHere;
    AllocationExact(c.lots, r.asset, r.warehouse, r.sku, tx.quantity);
  }
}
