/** Where the records of shywire come from: each transfer, participant, contract, execution,
    lot, request and settlement of any reachable state is what the accepted transaction that
    last wrote it said. */
module WireOrigins {
  import opened Ordering
  import opened Sums
  import opened Histories
  import opened WireSpec
  import opened WireCustody
  import opened WireInventory
  import opened WireFlows
  import opened WireFlags
  import WireLists
  import WireState

  // ----- what one transaction says about one id -----

  ghost function TransferMark(s: State, tx: Tx, id: Str): Mark<Transfer> {
    if Valid(s, tx) && WireLists.Lists2(tx) && WireLists.ListedId(tx) == id then Sets(Transfer(id, tx.asset, tx.amount))
    else Keeps
  }

  ghost function ParticipantMark(s: State, tx: Tx, nullifier: Str): Mark<Participant> {
    if Valid(s, tx) && WireLists.Lists2(tx) && tx.nullifier == nullifier then
      Sets(Participant(WireLists.ListedId(tx), nullifier))
    else Keeps
  }

  ghost function ExecutionMark(s: State, tx: Tx, id: Str): Mark<Execution> {
    if Valid(s, tx) && tx.ExecuteContract? && tx.executionId == id
      then Sets(Execution(tx.contract, tx.asset, tx.amount))
    else Keeps
  }

  /** What a contract is registered with. */
  datatype Terms = Terms(asset: Str, expiry: int)

  ghost function TermsMark(s: State, tx: Tx, id: Str): Mark<Terms> {
    if Valid(s, tx) && tx.RegisterContract? && tx.contract == id then Sets(Terms(tx.asset, tx.expiry)) else Keeps
  }

  ghost function ActiveMark(s: State, tx: Tx, id: Str): Mark<ContractStatus> {
    if Valid(s, tx) && tx.RegisterContract? && tx.contract == id
      then Sets(if tx.pending then PendingCondition else Active)
    else if Valid(s, tx) && tx.ActivateContract? && tx.contract == id then Sets(Active)
    else Keeps
  }

  /** What a lot is recorded with. */
  datatype Intake = Intake(asset: Str, warehouse: Str, sku: Str, quantity: int, createdAt: int)

  ghost function IntakeMark(s: State, tx: Tx, id: Str): Mark<Intake> {
    if Valid(s, tx) && tx.RecordLot? && tx.lotId == id then
      Sets(Intake(tx.asset, tx.warehouse, tx.sku, tx.quantity, tx.now))
    else Keeps
  }

  ghost function RequestMark(s: State, tx: Tx, id: Str): Mark<Request> {
    if Valid(s, tx) && tx.RequestRedemption? && tx.requestId == id then
      Sets(Request(tx.asset, tx.account, tx.warehouse, tx.sku, tx.siloAmount, tx.quantity, Pending))
    else Keeps
  }

  ghost function SettledMark(s: State, tx: Tx, id: Str): Mark<()> {
    if Valid(s, tx) && tx.SettleRedemption? && tx.requestId == id then Sets(()) else Keeps
  }

  /** What a settlement settles. */
  datatype Settling = Settling(requestId: Str, burnAmount: int, quantity: int)

  ghost function SettlingMark(s: State, tx: Tx, id: Str): Mark<Settling> {
    if Valid(s, tx) && tx.SettleRedemption? && tx.settlementId == id then
      Sets(Settling(tx.requestId, tx.burnAmount, tx.quantity))
    else Keeps
  }

  ghost function AssetMark(s: State, tx: Tx, id: Str): Mark<()> {
    if Valid(s, tx) && tx.RegisterAsset? && tx.asset == id then Sets(()) else Keeps
  }

  /** Every step but a registration keeps the set of assets. */
  lemma {:induction false} AssetStep(s: State, tx: Tx, id: Str)
    requires Valid(s, tx) && WireState.Backed(s.ledger)
    ensures id in NextLedger(s, tx).assets <==> id in s.ledger.assets || AssetMark(s, tx, id).Sets?
  {
    hide Available, ActedOn, Wrap64;
    if Burns(tx) {
      WireState.SupplyRecorded(s, tx);
    }
  }

  lemma AssetMarks(s: State, tx: Tx, id: Str)
    ensures !AssetMark(s, tx, id).Clears?
  {
    hide Valid;
  }

  /** An asset is there exactly if an accepted transaction registered it. */
  lemma {:induction false} AssetsExact(txs: seq<Tx>, id: Str)
    ensures id in Run(txs).ledger.assets <==> Told(Run, txs, id, AssetMark).Sets?
    decreases |txs|
  {
    hide AssetMark, Valid, NextLedger, NextLists, NextCustody, Told, WireState.Backed, LotsKept;
    if txs == [] {
      ToldNothing(Run, id, AssetMark);
    } else {
      var before, tx := txs[..|txs| - 1], txs[|txs| - 1];
      AssetsExact(before, id);
      WireState.RunGood(before);
      ToldMore(Run, txs, id, AssetMark);
      if Valid(Run(before), tx) {
        AssetStep(Run(before), tx, id);
        AssetMarks(Run(before), tx, id);
      } else {
        Silent(Run(before), tx, id);
      }
    }
  }

  // ----- the two lists and their overlay -----

  ghost predicate ListedAsTold(l: Lists, id: Str, transfer: Mark<Transfer>, participant: Mark<Participant>,
                               execution: Mark<Execution>) {
    && (id in l.transfers <==> transfer.Sets?) && (id in l.transfers ==> transfer.value == l.transfers[id])
    && (id in l.participants <==> participant.Sets?)
      && (id in l.participants ==> participant.value == l.participants[id])
    && (id in l.executions <==> execution.Sets?) && (id in l.executions ==> execution.value == l.executions[id])
  }

  lemma {:induction false} ListedStep(s: State, tx: Tx, id: Str, transfer: Mark<Transfer>,
                                      participant: Mark<Participant>,
                                      execution: Mark<Execution>)
    requires Valid(s, tx) && ListedAsTold(s.lists, id, transfer, participant, execution)
    ensures ListedAsTold(NextLists(s, tx), id, After(transfer, TransferMark(s, tx, id)),
                         After(participant, ParticipantMark(s, tx, id)), After(execution, ExecutionMark(s, tx, id)))
  {
    hide Available;
  }

  /** Both lists and the overlay of executions. */
  lemma {:induction false} ListsExact(txs: seq<Tx>, id: Str)
    ensures ListedAsTold(Run(txs).lists, id, Told(Run, txs, id, TransferMark), Told(Run, txs, id, ParticipantMark),
                         Told(Run, txs, id, ExecutionMark))
    decreases |txs|
  {
    hide TransferMark, ParticipantMark, ExecutionMark, Valid, NextLedger, NextLists, NextCustody, Told, ListedAsTold;
    if txs == [] {
      ToldNothing(Run, id, TransferMark);
      ToldNothing(Run, id, ParticipantMark);
      ToldNothing(Run, id, ExecutionMark);
      NothingListed(id);
    } else {
      var before, tx := txs[..|txs| - 1], txs[|txs| - 1];
      ListsExact(before, id);
      ToldMore(Run, txs, id, TransferMark);
      ToldMore(Run, txs, id, ParticipantMark);
      ToldMore(Run, txs, id, ExecutionMark);
      if Valid(Run(before), tx) {
        ListedStep(Run(before), tx, id, Told(Run, before, id, TransferMark), Told(Run, before, id, ParticipantMark),
                   Told(Run, before, id, ExecutionMark));
      } else {
        Silent(Run(before), tx, id);
      }
    }
  }

  lemma NothingListed(id: Str)
    ensures ListedAsTold(EMPTY.lists, id, Clears, Clears, Clears)
    ensures ContractAsTold(EMPTY.lists, id, Clears, Clears)
    ensures CustodyAsTold(EMPTY.custody, id, Clears, Clears, Clears, Clears)
  {
  }

  lemma Silent(s: State, tx: Tx, id: Str)
    requires !Valid(s, tx)
    ensures TransferMark(s, tx, id).Keeps? && ParticipantMark(s, tx, id).Keeps? && ExecutionMark(s, tx, id).Keeps?
    ensures TermsMark(s, tx, id).Keeps? && ActiveMark(s, tx, id).Keeps? && IntakeMark(s, tx, id).Keeps?
    ensures AssetMark(s, tx, id).Keeps?
    ensures RequestMark(s, tx, id).Keeps? && SettledMark(s, tx, id).Keeps? && SettlingMark(s, tx, id).Keeps?
  {
    hide Valid;
  }

  // ----- contracts -----

  ghost predicate ContractAsTold(l: Lists, id: Str, terms: Mark<Terms>, active: Mark<ContractStatus>) {
    && (id in l.contracts <==> terms.Sets?)
    && (id in l.contracts ==>
          terms.value == Terms(l.contracts[id].asset, l.contracts[id].expiry) && active == Sets(l.contracts[id].status))
  }

  lemma {:induction false} ContractStep(s: State, tx: Tx, id: Str, terms: Mark<Terms>, active: Mark<ContractStatus>)
    requires Valid(s, tx) && ContractAsTold(s.lists, id, terms, active)
    ensures ContractAsTold(NextLists(s, tx), id, After(terms, TermsMark(s, tx, id)),
                           After(active, ActiveMark(s, tx, id)))
  {
    hide Available, Wrap64;
  }

  /** Every contract has the asset and expiry it was registered with, and is active exactly
      if it was registered without a condition or activated since. */
  lemma {:induction false} ContractsExact(txs: seq<Tx>, id: Str)
    ensures ContractAsTold(Run(txs).lists, id, Told(Run, txs, id, TermsMark), Told(Run, txs, id, ActiveMark))
    decreases |txs|
  {
    hide TermsMark, ActiveMark, Valid, NextLedger, NextLists, NextCustody, Told, ContractAsTold;
    if txs == [] {
      ToldNothing(Run, id, TermsMark);
      ToldNothing(Run, id, ActiveMark);
      NothingListed(id);
    } else {
      var before, tx := txs[..|txs| - 1], txs[|txs| - 1];
      ContractsExact(before, id);
      ToldMore(Run, txs, id, TermsMark);
      ToldMore(Run, txs, id, ActiveMark);
      if Valid(Run(before), tx) {
        ContractStep(Run(before), tx, id, Told(Run, before, id, TermsMark), Told(Run, before, id, ActiveMark));
      } else {
        Silent(Run(before), tx, id);
      }
    }
  }

  /** In any run a contract execution is accepted exactly if its contract was registered, is
      active and not past its expiry, its nullifier was never used, and whatever value it
      moves is of the contract's asset, covered by the party's account, and goes to an
      account that was opened. */
  lemma {:induction false} ExecutionAcceptedIff(txs: seq<Tx>, tx: Tx)
    requires tx.ExecuteContract?
    ensures var terms := Told(Run, txs, tx.contract, TermsMark);
      Valid(Run(txs), tx) <==>
        && terms.Sets? && Told(Run, txs, tx.contract, ActiveMark) == Sets(Active) && Int64(tx.amount)
        && (terms.value.expiry > 0 ==> tx.timestamp <= terms.value.expiry)
        && !Told(Run, txs, tx.nullifier, ParticipantMark).Sets?
        && (tx.asset != [] && tx.amount > 0 ==>
              && (terms.value.asset == [] || terms.value.asset == tx.asset)
              && BalanceOf(Run(txs).ledger, (tx.asset, tx.party)) >= tx.amount
              && (tx.counterparty != [] ==> Open(txs, (tx.asset, tx.counterparty))))
  {
    ContractsExact(txs, tx.contract);
    ListsExact(txs, tx.nullifier);
    FlagsExact(txs, (tx.asset, tx.counterparty));
    hide Run, Told, TermsMark, ActiveMark, ParticipantMark, TransferMark, ExecutionMark, OpenMark, ShutMark, HoldMark;
  }

  // ----- custody -----

  ghost predicate LotAsTold(lots: map<Str, Lot>, id: Str, intake: Mark<Intake>) {
    && (id in lots <==> intake.Sets?)
    && (id in lots ==>
          intake.value
            == Intake(lots[id].asset, lots[id].warehouse, lots[id].sku, lots[id].quantity, lots[id].createdAt))
  }

  ghost predicate RequestAsTold(requests: map<Str, Request>, id: Str, request: Mark<Request>, settled: Mark<()>) {
    && (id in requests <==> request.Sets?)
    && (id in requests ==> request.value == requests[id].(status := Pending))
    && (settled.Sets? <==> id in requests && requests[id].status == Settled)
  }

  ghost predicate SettlementAsTold(settlements: map<Str, Settlement>, id: Str, settling: Mark<Settling>) {
    && (id in settlements <==> settling.Sets?)
    && (id in settlements ==>
          settling.value
            == Settling(settlements[id].requestId, settlements[id].burnAmount, settlements[id].settledQuantity))
  }

  ghost predicate CustodyAsTold(c: Custody, id: Str, intake: Mark<Intake>, request: Mark<Request>, settled: Mark<()>,
                                settling: Mark<Settling>) {
    && LotAsTold(c.lots, id, intake) && RequestAsTold(c.requests, id, request, settled)
    && SettlementAsTold(c.settlements, id, settling)
  }

  lemma {:induction false} LotStep(s: State, tx: Tx, id: Str, intake: Mark<Intake>)
    requires Valid(s, tx) && LotAsTold(s.custody.lots, id, intake) && LotsKept(s.custody.lots)
    ensures LotAsTold(NextCustody(s, tx).lots, id, After(intake, IntakeMark(s, tx, id)))
  {
    hide Available, DrawAll, Allocate, Inventory, LotsKept, Taken, RefreshedStatus;
    if tx.SettleRedemption? {
      var r := s.custody.requests[tx.requestId];
      DrawnPointwise(s.custody.lots, Allocate(Inventory(s.custody.lots, r.asset, tx.warehouse, r.sku), tx.quantity));
    }
  }

  lemma {:induction false} RequestStep(s: State, tx: Tx, id: Str, request: Mark<Request>, settled: Mark<()>)
    requires Valid(s, tx) && RequestAsTold(s.custody.requests, id, request, settled)
    ensures RequestAsTold(NextCustody(s, tx).requests, id, After(request, RequestMark(s, tx, id)),
                          After(settled, SettledMark(s, tx, id)))
  {
    hide Available, DrawAll, Allocate, Inventory;
  }

  lemma {:induction false} SettlementStep(s: State, tx: Tx, id: Str, settling: Mark<Settling>)
    requires Valid(s, tx) && SettlementAsTold(s.custody.settlements, id, settling)
    ensures SettlementAsTold(NextCustody(s, tx).settlements, id, After(settling, SettlingMark(s, tx, id)))
  {
    hide Available, DrawAll, Allocate, Inventory;
  }

  /** Every lot has the asset, warehouse, SKU, quantity and time it was recorded with, every
      request its terms, every settlement its request, burn and quantity; a request is
      settled exactly if an accepted settlement named it. */
  lemma {:induction false} CustodyExact(txs: seq<Tx>, id: Str)
    ensures CustodyAsTold(Run(txs).custody, id, Told(Run, txs, id, IntakeMark), Told(Run, txs, id, RequestMark),
                          Told(Run, txs, id, SettledMark), Told(Run, txs, id, SettlingMark))
    decreases |txs|
  {
    hide IntakeMark, RequestMark, SettledMark, SettlingMark, Valid, NextLedger, NextLists, NextCustody, Told,
      LotAsTold, RequestAsTold, SettlementAsTold, LotsKept, LotsBalance, AllSound, RequestsTally;
    if txs == [] {
      ToldNothing(Run, id, IntakeMark);
      ToldNothing(Run, id, RequestMark);
      ToldNothing(Run, id, SettledMark);
      ToldNothing(Run, id, SettlingMark);
      NothingListed(id);
    } else {
      var before, tx := txs[..|txs| - 1], txs[|txs| - 1];
      CustodyExact(before, id);
      InventoryConserved(before);
      ToldMore(Run, txs, id, IntakeMark);
      ToldMore(Run, txs, id, RequestMark);
      ToldMore(Run, txs, id, SettledMark);
      ToldMore(Run, txs, id, SettlingMark);
      if Valid(Run(before), tx) {
        LotStep(Run(before), tx, id, Told(Run, before, id, IntakeMark));
        RequestStep(Run(before), tx, id, Told(Run, before, id, RequestMark), Told(Run, before, id, SettledMark));
        SettlementStep(Run(before), tx, id, Told(Run, before, id, SettlingMark));
      } else {
        Silent(Run(before), tx, id);
      }
    }
  }

  /** A request is only taken while the account, which must be open, holds what is to be
      redeemed and the lots really hold the quantity, whatever the wrapped total says. */
  lemma {:induction false} RequestsCovered(txs: seq<Tx>, tx: Tx)
    requires tx.RequestRedemption? && Valid(Run(txs), tx)
    ensures Open(txs, (SENTINEL, tx.account)) && BalanceOf(Run(txs).ledger, (tx.asset, tx.account)) >= tx.siloAmount > 0
    ensures Available(Run(txs).custody.lots, tx.asset, tx.warehouse, tx.sku) >= tx.quantity > 0
    ensures !Told(Run, txs, tx.requestId, RequestMark).Sets?
  {
    FlagsExact(txs, (SENTINEL, tx.account));
    CustodyExact(txs, tx.requestId);
    InventoryConserved(txs);
    hide Run, Told, Available, RequestMark, IntakeMark, SettledMark, SettlingMark, OpenMark, ShutMark, HoldMark,
      LotsKept,
      LotsBalance, AllSound, RequestsTally;
    Covered(Run(txs).custody.lots, tx.asset, tx.warehouse, tx.sku, tx.quantity);
  }
}
