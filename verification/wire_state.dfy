/** The shywire state as the object that updates its maps in place. Each execute method is
    tied to the transition of WireSpec; loops over maps visit keys in any order. */
module WireState {
  import opened Ordering
  import opened Sums
  import opened WireSpec
  import opened WireCustody
  import opened WireInventory

  // ----- what no step breaks -----

  /** Every asset has a supply record, and whatever has a balance is a registered asset. */
  ghost predicate Backed(l: Ledger) {
    && l.assets.Keys == l.supply.Keys
    && forall k | k in l.accounts && l.accounts[k].balance != 0 :: k.0 in l.assets
  }

  ghost predicate Good(s: State) {
    Backed(s.ledger) && LotsKept(s.custody.lots)
  }

  /** The asset whose supply record a step dereferences. */
  ghost function SuppliedAsset(s: State, tx: Tx): Str
    requires Valid(s, tx) && Supplies(tx)
  {
    match tx
    case Mint(a, _, _) => a
    case Burn(a, _, _) => a
    case ApplyDemurrage(a, _, _) => a
    case SettleRedemption(_, requestId, _, _, _) => s.custody.requests[requestId].asset
  }

  predicate Supplies(tx: Tx) {
    tx.Mint? || tx.Burn? || tx.SettleRedemption? || tx.ApplyDemurrage?
  }

  lemma SupplyRecorded(s: State, tx: Tx)
    requires Valid(s, tx) && Supplies(tx) && Backed(s.ledger)
    ensures SuppliedAsset(s, tx) in s.ledger.supply && SuppliedAsset(s, tx) in s.ledger.assets
  {
    hide Available;
  }

  lemma MovedBacked(l: Ledger, k: Key, delta: int)
    requires Backed(l) && k in l.accounts && k.0 in l.assets
    ensures Backed(Moved(l, k, delta)) && Moved(l, k, delta).assets == l.assets
    ensures Moved(l, k, delta).accounts.Keys == l.accounts.Keys
  {
  }

  lemma RestockedBacked(l: Ledger, a: Str, minted: int, burned: int)
    requires Backed(l) && a in l.assets
    ensures Backed(Restocked(l, a, minted, burned))
  {
  }

  lemma StepBacked(s: State, tx: Tx)
    requires Valid(s, tx) && Backed(s.ledger)
    ensures Backed(NextLedger(s, tx))
  {
    var l := s.ledger;
    if Supplies(tx) {
      SupplyRecorded(s, tx);
    }
    hide Moved, Restocked, Available, Targeted;
    match tx
    case Mint(a, c, amount) =>
      MovedBacked(WithAccount(l, (a, c)), (a, c), amount);
      RestockedBacked(Moved(WithAccount(l, (a, c)), (a, c), amount), a, amount, 0);
    case Burn(a, c, amount) => BurnedBacked(l, (a, c), amount);
    case MakeTransfer(a, sender, recipient, amount, _, _) => PaidBacked(l, (a, sender), (a, recipient), amount);
    case ExecuteContract(_, a, party, counterparty, amount, _, _, _) =>
      if MovesValue(tx) {
        MovedBacked(l, (a, party), -amount);
        if counterparty != [] {
          PaidBacked(l, (a, party), (a, counterparty), amount);
        }
      }
    case SettleRedemption(_, requestId, _, burn, _) =>
      BurnedBacked(l, (s.custody.requests[requestId].asset, s.custody.requests[requestId].account), burn);
    case ApplyDemurrage(a, c, amount) => BurnedBacked(l, (a, c), amount);
    case AdverseAction(c, a, action) => ActedBacked(l, c, a, action);
    case _ =>
  }

  lemma BurnedBacked(l: Ledger, k: Key, amount: int)
    requires Backed(l) && k in l.accounts && k.0 in l.assets
    ensures Backed(Burned(l, k, amount))
  {
    hide Moved, Restocked, Backed;
    MovedBacked(l, k, -amount);
    RestockedBacked(Moved(l, k, -amount), k.0, 0, amount);
  }

  lemma PaidBacked(l: Ledger, j: Key, k: Key, amount: int)
    requires Backed(l) && j in l.accounts && k in l.accounts && j.0 == k.0 && j.0 in l.assets
    ensures Backed(Moved(Moved(l, j, -amount), k, amount))
  {
    hide Moved, Backed;
    MovedBacked(l, j, -amount);
    MovedBacked(Moved(l, j, -amount), k, amount);
  }

  lemma ActedBacked(l: Ledger, c: Str, asset: Str, action: Action)
    requires Backed(l)
    ensures Backed(l.(accounts := ActedOn(l.accounts, c, asset, action)))
  {
    hide Targeted;
  }

  /** In every reachable state. */
  lemma {:induction false} RunGood(txs: seq<Tx>)
    ensures Good(Run(txs))
    decreases |txs|
  {
    InventoryConserved(txs);
    hide LotsKept, LotsBalance, AllSound, RequestsTally, Valid, NextCustody, NextLedger, NextLists, Backed;
    if txs == [] {
      EmptyBacked();
    } else {
      var before, tx := txs[..|txs| - 1], txs[|txs| - 1];
      RunGood(before);
      if Valid(Run(before), tx) {
        StepBacked(Run(before), tx);
      }
    }
  }

  lemma EmptyBacked()
    ensures Backed(EMPTY.ledger)
  {
  }

  /** No accepted mint, burn, settlement or demurrage ever dereferences a missing supply
      record, although settlement and demurrage do not look the asset up. */
  lemma {:induction false} SupplyNeverMissing(txs: seq<Tx>, tx: Tx)
    requires Valid(Run(txs), tx) && Supplies(tx)
    ensures SuppliedAsset(Run(txs), tx) in Run(txs).ledger.supply
  {
    RunGood(txs);
    hide Valid, Run, LotsKept;
    SupplyRecorded(Run(txs), tx);
  }

  // ----- the loops over lots -----

  ghost function StockIn(lots: map<Str, Lot>, asset: Str, warehouse: Str, sku: Str, ids: set<Str>): set<Str> {
    set id | id in ids && id in lots && Matches(lots[id], asset, warehouse, sku) && InStock(lots[id])
  }

  lemma StockStep(lots: map<Str, Lot>, asset: Str, warehouse: Str, sku: Str, ids: set<Str>, id: Str)
    requires id in lots && id !in ids
    ensures var found, more := StockIn(lots, asset, warehouse, sku, ids),
        StockIn(lots, asset, warehouse, sku, ids + {id});
      multiset(more) == multiset(found) + (if Matches(lots[id], asset, warehouse, sku) && InStock(lots[id])
        then multiset{id} else multiset{})
  {
    var found, more := StockIn(lots, asset, warehouse, sku, ids), StockIn(lots, asset, warehouse, sku, ids + {id});
    assert more == found + if Matches(lots[id], asset, warehouse, sku) && InStock(lots[id]) then {id} else {};
  }

  lemma LotsAtMore(lots: map<Str, Lot>, ids: seq<Str>, id: Str)
    requires id in lots && forall x | x in ids :: x in lots
    ensures forall x | x in ids + [id] :: x in lots
    ensures LotsAt(lots, ids + [id]) == LotsAt(lots, ids) + [lots[id]]
  {
  }

  lemma StockFound(lots: map<Str, Lot>, asset: Str, warehouse: Str, sku: Str)
    ensures StockIn(lots, asset, warehouse, sku, lots.Keys) == StockIds(lots, asset, warehouse, sku)
  {
  }

  method InventoryLots(lots: map<Str, Lot>, asset: Str, warehouse: Str, sku: Str) returns (queue: seq<Lot>)
    requires LotsKept(lots)
    ensures queue == Inventory(lots, asset, warehouse, sku)
  {
    hide Matches, InStock, LotsKept, Inventory, Sort, LotLe, StockIds, LotsAt;
    queue := [];
    ghost var ids: seq<Str> := [];
    assert LotsAt(lots, ids) == [];
    var rest := lots.Keys;
    ghost var done: set<Str> := {};
    while rest != {}
      invariant done + rest == lots.Keys && done !! rest
      invariant multiset(ids) == multiset(StockIn(lots, asset, warehouse, sku, done))
      invariant (forall id | id in ids :: id in lots) && queue == LotsAt(lots, ids)
      decreases rest
    {
      var id :| id in rest;
      StockStep(lots, asset, warehouse, sku, done, id);
      if Matches(lots[id], asset, warehouse, sku) && InStock(lots[id]) {
        LotsAtMore(lots, ids, id);
        queue, ids := queue + [lots[id]], ids + [id];
      }
      rest, done := rest - {id}, done + {id};
    }
    assert done == lots.Keys;
    StockFound(lots, asset, warehouse, sku);
    CollectedInventory(lots, asset, warehouse, sku, ids);
    queue := Sort(LotLe, queue);
  }

  lemma {:induction false} SumRemainingLast(queue: seq<Lot>)
    requires queue != []
    ensures var n := |queue| - 1; SumRemaining(queue) == SumRemaining(queue[..n]) + queue[n].remaining
  {
    var n := |queue| - 1;
    if n > 0 {
      SumRemainingLast(queue[1..]);
      assert queue[1..][..n - 1] == queue[..n][1..];
    }
  }

  lemma TotalStep(queue: seq<Lot>, i: nat)
    requires i < |queue|
    ensures Wrap64(Wrap64(SumRemaining(queue[..i])) + queue[i].remaining) == Wrap64(SumRemaining(queue[..i + 1]))
  {
    SumRemainingLast(queue[..i + 1]);
    assert queue[..i + 1][..i] == queue[..i];
    WrapAdds(SumRemaining(queue[..i]), queue[i].remaining);
  }

  lemma TotalStart(queue: seq<Lot>)
    ensures Wrap64(SumRemaining(queue[..0])) == 0
  {
  }

  method AvailableCustodyInventory(lots: map<Str, Lot>, asset: Str, warehouse: Str, sku: Str) returns (total: int)
    requires LotsKept(lots)
    ensures total == Wrap64(Available(lots, asset, warehouse, sku))
  {
    hide *;
    var queue := InventoryLots(lots, asset, warehouse, sku);
    InventorySum(lots, asset, warehouse, sku);
    TotalStart(queue);
    total := 0;
    for i := 0 to |queue|
      invariant total == Wrap64(SumRemaining(queue[..i]))
    {
      TotalStep(queue, i);
      total := Wrap64(total + queue[i].remaining);
    }
    assert queue[..|queue|] == queue;
  }

  class WireState {
    var assets: map<Str, int>
    var supply: map<Str, Supply>
    var accounts: map<Key, Account>
    var transfers: map<Str, Transfer>
    var participants: map<Str, Participant>
    var executions: map<Str, Execution>
    var contracts: map<Str, Contract>
    var lots: map<Str, Lot>
    var requests: map<Str, Request>
    var settlements: map<Str, Settlement>

    ghost function Snapshot(): State
      reads this
    {
      State(Ledger(assets, supply, accounts), Lists(transfers, participants, executions, contracts),
            Custody(lots, requests, settlements))
    }

    constructor ()
      ensures Snapshot() == EMPTY
    {
      assets, supply, accounts := map[], map[], map[];
      transfers, participants, executions, contracts := map[], map[], map[], map[];
      lots, requests, settlements := map[], map[], map[];
    }

    // ----- supply -----

    method ExecuteRegisterAsset(tx: Tx)
      requires tx.RegisterAsset? && Valid(Snapshot(), tx)
      modifies this
      ensures Snapshot() == Step(old(Snapshot()), tx)
    {
      assets := assets[tx.asset := 0];
      supply := supply[tx.asset := Supply(0, 0, 0)];
    }

    method Restock(a: Str, minted: int, burned: int)
      requires a in supply
      modifies `assets, `supply
      ensures Snapshot() == old(Snapshot()).(ledger := Restocked(old(Snapshot()).ledger, a, minted, burned))
    {
      var sup := supply[a];
      sup := sup.(totalMinted := Wrap64(sup.totalMinted + minted), totalBurned := Wrap64(sup.totalBurned + burned));
      sup := sup.(totalSupply := Wrap64(sup.totalMinted - sup.totalBurned));
      supply := supply[a := sup];
      assets := assets[a := sup.totalSupply];
    }

    method AddBalance(k: Key, delta: int)
      requires k in accounts
      modifies `accounts
      ensures Snapshot() == old(Snapshot()).(ledger := Moved(old(Snapshot()).ledger, k, delta))
    {
      accounts := accounts[k := accounts[k].(balance := Wrap64(accounts[k].balance + delta))];
    }

    method ExecuteMint(tx: Tx)
      requires tx.Mint? && Valid(Snapshot(), tx) && Good(Snapshot())
      modifies this
      ensures Snapshot() == Step(old(Snapshot()), tx)
    {
      SupplyRecorded(Snapshot(), tx);
      hide Moved, Restocked, Good;
      var k := (tx.asset, tx.account);
      if k !in accounts {
        accounts := accounts[k := Account(tx.asset, tx.account, 0, false, false)];
      }
      AddBalance(k, tx.amount);
      Restock(tx.asset, tx.amount, 0);
    }

    method ExecuteBurn(tx: Tx)
      requires tx.Burn? && Valid(Snapshot(), tx) && Good(Snapshot())
      modifies this
      ensures Snapshot() == Step(old(Snapshot()), tx)
    {
      SupplyRecorded(Snapshot(), tx);
      hide Moved, Restocked, Good;
      AddBalance((tx.asset, tx.account), -tx.amount);
      Restock(tx.asset, 0, tx.amount);
    }

    method ExecuteApplyCustodyDemurrage(tx: Tx)
      requires tx.ApplyDemurrage? && Valid(Snapshot(), tx) && Good(Snapshot())
      modifies this
      ensures Snapshot() == Step(old(Snapshot()), tx)
    {
      SupplyRecorded(Snapshot(), tx);
      hide Moved, Restocked, Good;
      AddBalance((tx.asset, tx.account), -tx.amount);
      Restock(tx.asset, 0, tx.amount);
    }

    // ----- transfers -----

    method ExecuteRegisterAccount(tx: Tx)
      requires tx.RegisterAccount? && Valid(Snapshot(), tx)
      modifies this
      ensures Snapshot() == Step(old(Snapshot()), tx)
    {
      accounts := accounts[(SENTINEL, tx.commitment) := Account(SENTINEL, tx.commitment, 0, false, false)];
    }

    method WriteLists(id: Str, asset: Str, amount: int, nullifier: Str)
      modifies `transfers, `participants
      ensures Snapshot() == old(Snapshot()).(lists := Listed(old(Snapshot()).lists, id, asset, amount, nullifier))
    {
      transfers := transfers[id := Transfer(id, asset, amount)];
      participants := participants[nullifier := Participant(id, nullifier)];
    }

    method ExecuteTransfer(tx: Tx)
      requires tx.MakeTransfer? && Valid(Snapshot(), tx)
      modifies this
      ensures Snapshot() == Step(old(Snapshot()), tx)
    {
      hide Moved, Listed, Available;
      WriteLists(tx.transferId, tx.asset, tx.amount, tx.nullifier);
      MovedKeys(Snapshot().ledger, (tx.asset, tx.sender), -tx.amount);
      AddBalance((tx.asset, tx.sender), -tx.amount);
      AddBalance((tx.asset, tx.recipient), tx.amount);
    }

    method ExecuteExecuteContract(tx: Tx)
      requires tx.ExecuteContract? && Valid(Snapshot(), tx)
      modifies this
      ensures Snapshot() == Step(old(Snapshot()), tx)
    {
      hide Moved, Listed, Available;
      ListedContracts(Snapshot().lists, tx.executionId, tx.asset, tx.amount, tx.nullifier);
      WriteLists(tx.executionId, tx.asset, tx.amount, tx.nullifier);
      executions := executions[tx.executionId := Execution(tx.contract, tx.asset, tx.amount)];
      if tx.asset != [] && tx.amount > 0 {
        MovedKeys(Snapshot().ledger, (tx.asset, tx.party), -tx.amount);
        AddBalance((tx.asset, tx.party), -tx.amount);
        if tx.counterparty != [] {
          AddBalance((tx.asset, tx.counterparty), tx.amount);
        }
      }
      var c := contracts[tx.contract];
      contracts := contracts[tx.contract := c.(executionCount := c.executionCount + 1,
                                               totalExecuted := Wrap64(c.totalExecuted + tx.amount))];
    }

    method ExecuteRegisterContract(tx: Tx)
      requires tx.RegisterContract? && Valid(Snapshot(), tx)
      modifies this
      ensures Snapshot() == Step(old(Snapshot()), tx)
    {
      var status := Active;
      if tx.pending {
        status := PendingCondition;
      }
      contracts := contracts[tx.contract := Contract(tx.asset, status, tx.expiry, 0, 0)];
    }

    method ExecuteActivateContract(tx: Tx)
      requires tx.ActivateContract? && Valid(Snapshot(), tx)
      modifies this
      ensures Snapshot() == Step(old(Snapshot()), tx)
    {
      contracts := contracts[tx.contract := contracts[tx.contract].(status := Active)];
    }

    // ----- authority -----

    method ExecuteAdverseAction(tx: Tx)
      requires tx.AdverseAction? && Valid(Snapshot(), tx)
      modifies this
      ensures Snapshot() == Step(old(Snapshot()), tx)
    {
      ghost var was := accounts;
      var rest := accounts.Keys;
      ghost var done: set<Key> := {};
      hide Acted, Valid;
      while rest != {}
        invariant done + rest == was.Keys && done !! rest && accounts.Keys == was.Keys
        invariant forall k | k in rest :: accounts[k] == was[k]
        invariant forall k | k in done ::
          accounts[k] == if Targeted(was[k], tx.commitment, tx.asset) then Acted(was[k], tx.action) else was[k]
        invariant Snapshot() == old(Snapshot()).(ledger := old(Snapshot()).ledger.(accounts := accounts))
        decreases rest
      {
        var k :| k in rest;
        if Targeted(accounts[k], tx.commitment, tx.asset) {
          accounts := accounts[k := Acted(accounts[k], tx.action)];
        }
        rest, done := rest - {k}, done + {k};
      }
      assert accounts == ActedOn(was, tx.commitment, tx.asset, tx.action);
    }

    // ----- custody -----

    method ExecuteRecordCustodyIntakeLot(tx: Tx)
      requires tx.RecordLot? && Valid(Snapshot(), tx)
      modifies this
      ensures Snapshot() == Step(old(Snapshot()), tx)
    {
      lots := lots[tx.lotId := Lot(tx.lotId, tx.asset, tx.warehouse, tx.sku, tx.quantity, tx.quantity, Recorded,
                                   tx.now)];
    }

    method ValidateRequestCustodyRedemption(tx: Tx) returns (ok: bool)
      requires tx.RequestRedemption? && Good(Snapshot())
      ensures ok == Valid(Snapshot(), tx)
    {
      hide Available, LotsKept, Wrap64;
      var k := (tx.asset, tx.account);
      if tx.siloAmount <= 0 || tx.quantity <= 0 || tx.requestId in requests || tx.asset !in assets {
        return false;
      }
      if (SENTINEL, tx.account) !in accounts || k !in accounts || accounts[k].balance < tx.siloAmount {
        return false;
      }
      var available := AvailableCustodyInventory(lots, tx.asset, tx.warehouse, tx.sku);
      ok := available >= tx.quantity;
    }

    method ExecuteRequestCustodyRedemption(tx: Tx)
      requires tx.RequestRedemption? && Valid(Snapshot(), tx)
      modifies this
      ensures Snapshot() == Step(old(Snapshot()), tx)
    {
      hide Available;
      requests := requests[tx.requestId :=
        Request(tx.asset, tx.account, tx.warehouse, tx.sku, tx.siloAmount, tx.quantity, Pending)];
    }

    method ValidateSettleCustodyRedemption(tx: Tx) returns (ok: bool)
      requires tx.SettleRedemption? && Good(Snapshot())
      ensures ok == Valid(Snapshot(), tx)
    {
      hide Available, LotsKept, Wrap64;
      if tx.burnAmount <= 0 || tx.quantity <= 0 || tx.settlementId in settlements || tx.requestId !in requests {
        return false;
      }
      var r := requests[tx.requestId];
      if r.status != Pending || r.warehouse != tx.warehouse || tx.quantity > r.quantity
        || tx.burnAmount > r.siloAmount {
        return false;
      }
      var available := AvailableCustodyInventory(lots, r.asset, tx.warehouse, r.sku);
      if available < tx.quantity {
        return false;
      }
      var k := (r.asset, r.account);
      ok := k in accounts && accounts[k].balance >= tx.burnAmount;
    }

    /** Draws the lots in place, oldest first, stopping when nothing remains to be drawn. */
    method AllocateCustodyInventory(asset: Str, warehouse: Str, sku: Str, quantity: int)
        returns (allocations: seq<Allocation>)
      requires LotsKept(lots)
      modifies `lots
      ensures allocations == Allocate(Inventory(old(lots), asset, warehouse, sku), quantity)
      ensures lots == DrawAll(old(lots), allocations)
    {
      hide Inventory, LotsKept, Ahead, LotLe, RefreshedStatus, Allocate, DrawAll, AllocateFrom;
      allocations := [];
      DrawNone(lots);
      if quantity <= 0 {
        AllocateNothing(Inventory(lots, asset, warehouse, sku), quantity);
        return;
      }
      var queue := InventoryLots(lots, asset, warehouse, sku);
      InventoryAhead(lots, asset, warehouse, sku, queue);
      AllocateRest(queue, quantity);
      var remaining := quantity;
      var i := 0;
      while i < |queue| && remaining != 0
        invariant 0 <= i <= |queue| && remaining >= 0
        invariant AllocateFrom(queue, i, allocations, remaining, quantity)
        invariant lots == DrawAll(old(lots), allocations) && Ahead(lots, queue, i)
      {
        AheadAt(lots, queue, i);
        var lot := lots[queue[i].lotId];
        var consume := Least(lot.remaining, remaining);
        AllocateStep(queue, i, allocations, remaining, quantity);
        lot := lot.(remaining := lot.remaining - consume);
        lot := lot.(status := RefreshedStatus(lot.remaining, lot.quantity));
        assert lot == Drawn(queue[i], consume);
        AheadMore(lots, queue, i, lot);
        DrawAllMore(old(lots), allocations, Allocation(queue[i].lotId, consume));
        lots := lots[queue[i].lotId := lot];
        allocations := allocations + [Allocation(queue[i].lotId, consume)];
        remaining := remaining - consume;
        i := i + 1;
      }
      AllocateDone(queue, i, allocations, remaining, quantity);
    }

    method ExecuteSettleCustodyRedemption(tx: Tx)
      requires tx.SettleRedemption? && Valid(Snapshot(), tx) && Good(Snapshot())
      modifies this
      ensures Snapshot() == Step(old(Snapshot()), tx)
    {
      hide Moved, Restocked, Available, Allocate, DrawAll, Inventory, LotsKept, Valid, Step, Good;
      SettleStep(Snapshot(), tx);
      var r := requests[tx.requestId];
      MovedKeeps(Snapshot().ledger, (r.asset, r.account), -tx.burnAmount);
      var allocations := AllocateCustodyInventory(r.asset, tx.warehouse, r.sku, tx.quantity);
      AddBalance((r.asset, r.account), -tx.burnAmount);
      Restock(r.asset, 0, tx.burnAmount);
      requests := requests[tx.requestId := r.(status := Settled)];
      settlements := settlements[tx.settlementId := Settlement(tx.requestId, allocations, tx.burnAmount, tx.quantity)];
    }
  }

  lemma SettleStep(s: State, tx: Tx)
    requires tx.SettleRedemption? && Valid(s, tx) && Good(s)
    ensures tx.requestId in s.custody.requests && s.custody.requests[tx.requestId].asset in s.ledger.supply
    ensures LotsKept(s.custody.lots)
    ensures var c := s.custody;
      var r := c.requests[tx.requestId];
      var allocations := Allocate(Inventory(c.lots, r.asset, tx.warehouse, r.sku), tx.quantity);
      && (r.asset, r.account) in s.ledger.accounts
      && Step(s, tx) == State(
           Burned(s.ledger, (r.asset, r.account), tx.burnAmount), s.lists,
           Custody(DrawAll(c.lots, allocations), c.requests[tx.requestId := r.(status := Settled)],
                   c.settlements[tx.settlementId := Settlement(tx.requestId, allocations, tx.burnAmount, tx.quantity)]))
  {
    SupplyRecorded(s, tx);
    hide Available, Inventory, Allocate, DrawAll, Burned, LotsKept, Backed;
  }

  lemma MovedKeeps(l: Ledger, k: Key, delta: int)
    requires k in l.accounts
    ensures var m := Moved(l, k, delta);
      m.accounts.Keys == l.accounts.Keys && m.supply == l.supply && m.assets == l.assets
  {
  }

  // ----- the allocation loop -----

  /** From position i on the lots of the queue are as they were when it was built. */
  ghost predicate Ahead(lots: map<Str, Lot>, queue: seq<Lot>, i: int)
    requires 0 <= i
  {
    && (forall j | i <= j < |queue| ::
          queue[j].lotId in lots && lots[queue[j].lotId] == queue[j] && queue[j].remaining > 0)
    && (forall j, k | i <= j < k < |queue| :: queue[j].lotId != queue[k].lotId)
  }

  lemma InventoryAhead(lots: map<Str, Lot>, asset: Str, warehouse: Str, sku: Str, queue: seq<Lot>)
    requires LotsKept(lots) && queue == Inventory(lots, asset, warehouse, sku)
    ensures Ahead(lots, queue, 0)
  {
    hide *;
    InventoryIsQueue(lots, asset, warehouse, sku);
    StockIdsKnown(lots, asset, warehouse, sku);
    QueueStocked(lots, asset, warehouse, sku, queue);
    QueueAhead(lots, StockIds(lots, asset, warehouse, sku), queue);
  }

  lemma StockIdsKnown(lots: map<Str, Lot>, asset: Str, warehouse: Str, sku: Str)
    ensures StockIds(lots, asset, warehouse, sku) <= lots.Keys
  {
  }

  lemma QueueAhead(lots: map<Str, Lot>, ids: set<Str>, queue: seq<Lot>)
    requires ids <= lots.Keys && IsQueue(lots, ids, queue) && Stocked(queue)
    ensures Ahead(lots, queue, 0)
  {
    hide LotLe;
  }

  lemma AheadAt(lots: map<Str, Lot>, queue: seq<Lot>, i: nat)
    requires Ahead(lots, queue, i) && i < |queue|
    ensures queue[i].lotId in lots && lots[queue[i].lotId] == queue[i] && queue[i].remaining > 0
  {
  }

  lemma AheadMore(lots: map<Str, Lot>, queue: seq<Lot>, i: nat, lot: Lot)
    requires Ahead(lots, queue, i) && i < |queue|
    ensures Ahead(lots[queue[i].lotId := lot], queue, i + 1)
  {
  }

  /** What was allocated so far, followed by what the rest of the queue will give. */
  ghost predicate AllocateFrom(queue: seq<Lot>, i: int, allocations: seq<Allocation>, remaining: int, quantity: int)
    requires 0 <= i <= |queue|
  {
    allocations + Allocate(queue[i..], remaining) == Allocate(queue, quantity)
  }

  lemma AllocateRest(queue: seq<Lot>, quantity: int)
    ensures AllocateFrom(queue, 0, [], quantity, quantity)
  {
    assert queue[0..] == queue;
  }

  lemma AllocateStep(queue: seq<Lot>, i: nat, allocations: seq<Allocation>, remaining: int, quantity: int)
    requires i < |queue| && remaining > 0 && AllocateFrom(queue, i, allocations, remaining, quantity)
    ensures var consume := Least(queue[i].remaining, remaining);
      AllocateFrom(queue, i + 1, allocations + [Allocation(queue[i].lotId, consume)], remaining - consume, quantity)
  {
    assert queue[i..][0] == queue[i] && queue[i..][1..] == queue[i + 1..];
  }

  lemma AllocateDone(queue: seq<Lot>, i: nat, allocations: seq<Allocation>, remaining: int, quantity: int)
    requires i <= |queue| && (i == |queue| || remaining == 0)
        && AllocateFrom(queue, i, allocations, remaining, quantity)
    ensures allocations == Allocate(queue, quantity)
  {
    assert Allocate(queue[i..], remaining) == [];
  }

  lemma AllocateNothing(queue: seq<Lot>, quantity: int)
    requires quantity <= 0
    ensures Allocate(queue, quantity) == []
  {
  }

  lemma DrawNone(lots: map<Str, Lot>)
    ensures DrawAll(lots, []) == lots
  {
  }

  lemma ListedContracts(l: Lists, id: Str, asset: Str, amount: int, nullifier: Str)
    ensures var m := Listed(l, id, asset, amount, nullifier);
      m.contracts == l.contracts && m.executions == l.executions
  {
  }

  lemma DrawAllMore(lots: map<Str, Lot>, allocations: seq<Allocation>, next: Allocation)
    ensures var before := DrawAll(lots, allocations);
      DrawAll(lots, allocations + [next])
        == if next.lotId in before then before[next.lotId := Drawn(before[next.lotId], next.quantity)] else before
  {
    assert (allocations + [next])[..|allocations|] == allocations;
  }
}
