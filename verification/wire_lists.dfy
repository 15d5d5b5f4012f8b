/** The two transfer lists of shywire and the contract counters: List 2 maps onto List 1,
    and what exactly a reused transfer nonce costs. */
module WireLists {
  import opened Ordering
  import opened Sums
  import opened WireSpec

  predicate Lists2(tx: Tx) {
    tx.MakeTransfer? || tx.ExecuteContract?
  }

  function ListedId(tx: Tx): Str
    requires Lists2(tx)
  {
    if tx.MakeTransfer? then tx.transferId else tx.executionId
  }

  /** Accepted transfers and executions whose id was already in List 1: ids are hashes of a
      sender-chosen nonce, and validation does not look them up. */
  ghost function Reused(txs: seq<Tx>): nat {
    if txs == [] then 0
    else
      var before, tx := txs[..|txs| - 1], txs[|txs| - 1];
      Reused(before)
        + (if Valid(Run(before), tx) && Lists2(tx) && ListedId(tx) in Run(before).lists.transfers then 1 else 0)
  }

  /** Whether a step replaces an execution record of the contract. */
  ghost predicate Replaces(s: State, tx: Tx, contract: Str) {
    && Valid(s, tx) && tx.ExecuteContract? && tx.executionId in s.lists.executions
    && s.lists.executions[tx.executionId].contract == contract
  }

  ghost function Replaced(txs: seq<Tx>, contract: Str): nat {
    if txs == [] then 0
    else
      var before, tx := txs[..|txs| - 1], txs[|txs| - 1];
      Replaced(before, contract) + (if Replaces(Run(before), tx, contract) then 1 else 0)
  }

  ghost function ReplacedAmount(txs: seq<Tx>, contract: Str): int {
    if txs == [] then 0
    else
      var before, tx := txs[..|txs| - 1], txs[|txs| - 1];
      ReplacedAmount(before, contract)
        + (if Replaces(Run(before), tx, contract) then Run(before).lists.executions[tx.executionId].amount else 0)
  }

  ghost function Amounts(executions: map<Str, Execution>, contract: Str): map<Str, int> {
    map id | id in executions && executions[id].contract == contract :: executions[id].amount
  }

  // ----- the mapping from List 2 to List 1 -----

  ghost predicate MapsOnto(l: Lists) {
    && (forall id | id in l.transfers :: l.transfers[id].transferId == id)
    && (forall n | n in l.participants ::
          l.participants[n].identityHash == n && l.participants[n].transferId in l.transfers)
    && (forall id | id in l.transfers :: exists n :: n in l.participants && l.participants[n].transferId == id)
    && l.executions.Keys <= l.transfers.Keys
  }

  ghost predicate OneToOne(l: Lists) {
    forall m, n | m in l.participants && n in l.participants
      && l.participants[m].transferId == l.participants[n].transferId :: m == n
  }

  lemma GrowCount<K, V>(m: map<K, V>, k: K, v: V)
    ensures |m[k := v]| == |m| + (if k in m then 0 else 1)
  {
    assert |m[k := v].Keys| == |m[k := v]| && |m.Keys| == |m|;
    assert m[k := v].Keys == m.Keys + {k};
  }

  lemma ListedCounts(l: Lists, id: Str, asset: Str, amount: int, nullifier: Str)
    requires nullifier !in l.participants
    ensures var m := Listed(l, id, asset, amount, nullifier);
      && |m.participants| == |l.participants| + 1
      && |m.transfers| == |l.transfers| + (if id in l.transfers then 0 else 1)
  {
    GrowCount(l.participants, nullifier, Participant(id, nullifier));
    GrowCount(l.transfers, id, Transfer(id, asset, amount));
  }

  lemma ListedOnto(l: Lists, id: Str, asset: Str, amount: int, nullifier: Str)
    requires MapsOnto(l) && nullifier !in l.participants
    ensures var m := Listed(l, id, asset, amount, nullifier); MapsOnto(m) && id in m.transfers
  {
    var m := Listed(l, id, asset, amount, nullifier);
    forall x | x in m.transfers ensures exists n :: n in m.participants && m.participants[n].transferId == x {
      if x == id {
        assert nullifier in m.participants && m.participants[nullifier].transferId == x;
      } else {
        var n :| n in l.participants && l.participants[n].transferId == x;
        assert n in m.participants && m.participants[n].transferId == x;
      }
    }
  }

  lemma {:induction false} ListedMapsOnto(l: Lists, id: Str, asset: Str, amount: int, nullifier: Str)
    requires MapsOnto(l) && nullifier !in l.participants
    ensures var m := Listed(l, id, asset, amount, nullifier);
      && MapsOnto(m) && id in m.transfers
      && |m.participants| == |l.participants| + 1
      && |m.transfers| == |l.transfers| + (if id in l.transfers then 0 else 1)
      && (OneToOne(m) <==> OneToOne(l) && id !in l.transfers)
  {
    ListedOneToOne(l, Listed(l, id, asset, amount, nullifier), id, nullifier);
    hide MapsOnto, OneToOne, Listed;
    ListedOnto(l, id, asset, amount, nullifier);
    ListedCounts(l, id, asset, amount, nullifier);
  }

  lemma ListedOneToOne(l: Lists, m: Lists, id: Str, nullifier: Str)
    requires MapsOnto(l) && nullifier !in l.participants
    requires m.participants == l.participants[nullifier := Participant(id, nullifier)]
    ensures OneToOne(m) <==> OneToOne(l) && id !in l.transfers
  {
    if id in l.transfers {
      var n :| n in l.participants && l.participants[n].transferId == id;
      assert n in m.participants && m.participants[n].transferId == m.participants[nullifier].transferId;
    }
    if OneToOne(m) {
      forall x, y | x in l.participants && y in l.participants
        && l.participants[x].transferId == l.participants[y].transferId
        ensures x == y
      {
        assert x in m.participants && y in m.participants
          && m.participants[x].transferId == m.participants[y].transferId;
      }
    }
  }

  /** In every reachable state the nullifiers of List 2 map onto List 1, List 2 is longer
      by the number of reused ids, and the mapping is one-to-one exactly when none was. */
  lemma {:induction false} ListsCorrespond(txs: seq<Tx>)
    ensures var l := Run(txs).lists;
      && MapsOnto(l)
      && |l.participants| == |l.transfers| + Reused(txs)
      && (OneToOne(l) <==> Reused(txs) == 0)
    decreases |txs|
  {
    hide MapsOnto, OneToOne, NextLists, NextLedger, NextCustody, Valid;
    if txs == [] {
      EmptyLists();
    } else {
      var before, tx := txs[..|txs| - 1], txs[|txs| - 1];
      ListsCorrespond(before);
      if Valid(Run(before), tx) {
        StepCorresponds(Run(before), tx);
      }
    }
  }

  lemma EmptyLists()
    ensures MapsOnto(EMPTY.lists) && OneToOne(EMPTY.lists)
  {
  }

  lemma {:induction false} StepCorresponds(s: State, tx: Tx)
    requires Valid(s, tx) && MapsOnto(s.lists)
    ensures var l, m := s.lists, NextLists(s, tx);
      && MapsOnto(m)
      && (if Lists2(tx) then
            && |m.participants| == |l.participants| + 1
            && |m.transfers| == |l.transfers| + (if ListedId(tx) in l.transfers then 0 else 1)
            && (OneToOne(m) <==> OneToOne(l) && ListedId(tx) !in l.transfers)
          else m.participants == l.participants && m.transfers == l.transfers && (OneToOne(m) <==> OneToOne(l)))
  {
    hide Available, Listed, Executed, MapsOnto, OneToOne;
    var l := s.lists;
    match tx
    case MakeTransfer(a, _, _, amount, nullifier, id) => ListedMapsOnto(l, id, a, amount, nullifier);
    case ExecuteContract(c, a, _, _, amount, nullifier, id, _) =>
      ListedMapsOnto(l, id, a, amount, nullifier);
      ListedKeepsContracts(l, id, a, amount, nullifier);
      ExecutedMapsOnto(Listed(l, id, a, amount, nullifier), id, Execution(c, a, amount));
    case RegisterContract(_, _, _, _) => OnlyContractsMove(l, NextLists(s, tx));
    case ActivateContract(_) => OnlyContractsMove(l, NextLists(s, tx));
    case _ =>
  }

  lemma OnlyContractsMove(l: Lists, m: Lists)
    requires m == l.(contracts := m.contracts) && MapsOnto(l)
    ensures MapsOnto(m) && (OneToOne(m) <==> OneToOne(l))
  {
  }

  lemma ListedKeepsContracts(l: Lists, id: Str, asset: Str, amount: int, nullifier: Str)
    ensures Listed(l, id, asset, amount, nullifier).contracts == l.contracts
    ensures Listed(l, id, asset, amount, nullifier).executions == l.executions
  {
  }

  lemma ExecutedMapsOnto(l: Lists, id: Str, e: Execution)
    requires MapsOnto(l) && id in l.transfers && e.contract in l.contracts
    ensures var m := Executed(l, id, e);
      MapsOnto(m) && m.participants == l.participants && m.transfers == l.transfers && (OneToOne(m) <==> OneToOne(l))
  {
  }

  // ----- contract counters -----

  lemma AmountsAt(executions: map<Str, Execution>, id: Str, contract: Str)
    ensures id in Amounts(executions, contract) <==> id in executions && executions[id].contract == contract
    ensures id in Amounts(executions, contract) ==> Amounts(executions, contract)[id] == executions[id].amount
  {
  }

  lemma AmountsAfter(executions: map<Str, Execution>, id: Str, e: Execution, contract: Str)
    ensures Amounts(executions[id := e], contract)
         == if e.contract == contract then Amounts(executions, contract)[id := e.amount]
           else Amounts(executions, contract) - {id}
  {
  }

  lemma AmountsGrow(executions: map<Str, Execution>, id: Str, e: Execution, contract: Str)
    ensures var old_, new_ := Amounts(executions, contract), Amounts(executions[id := e], contract);
      var lost, won := id in executions && executions[id].contract == contract, e.contract == contract;
      && |new_| == |old_| - (if lost then 1 else 0) + (if won then 1 else 0)
      && Sum(new_) == Sum(old_) - (if lost then executions[id].amount else 0) + (if won then e.amount else 0)
  {
    var before := Amounts(executions, contract);
    AmountsAt(executions, id, contract);
    AmountsAfter(executions, id, e, contract);
    hide Amounts, Sum;
    if e.contract == contract {
      SumUpdate(before, id, e.amount);
      GrowCount(before, id, e.amount);
    } else if id in before {
      SumSplit(before, id);
      GrowCount(before - {id}, id, before[id]);
      assert (before - {id})[id := before[id]] == before;
    } else {
      assert before - {id} == before;
    }
  }

  /** The counters of a contract against a recount of its records. */
  ghost predicate CountersAgree(l: Lists, contract: Str, replaced: int, replacedAmount: int) {
    var records := Amounts(l.executions, contract);
    if contract in l.contracts then
      && l.contracts[contract].executionCount == |records| + replaced
      && l.contracts[contract].totalExecuted == Wrap64(Sum(records) + replacedAmount)
    else records == map[] && replaced == replacedAmount == 0
  }

  lemma {:induction false} ExecutedCounts(l: Lists, id: Str, e: Execution, contract: Str, replaced: int,
                                          replacedAmount: int)
    requires CountersAgree(l, contract, replaced, replacedAmount) && e.contract in l.contracts
    ensures var lost := id in l.executions && l.executions[id].contract == contract;
      CountersAgree(Executed(l, id, e), contract, replaced + (if lost then 1 else 0),
                    replacedAmount + (if lost then l.executions[id].amount else 0))
  {
    hide Sum, Wrap64, Amounts, CountersAgree, Executed;
    if contract == e.contract {
      ExecutedOwn(l, id, e, replaced, replacedAmount);
    } else {
      ExecutedOther(l, id, e, contract, replaced, replacedAmount);
    }
  }

  lemma {:induction false} ExecutedOwn(l: Lists, id: Str, e: Execution, replaced: int, replacedAmount: int)
    requires e.contract in l.contracts && CountersAgree(l, e.contract, replaced, replacedAmount)
    ensures var lost := id in l.executions && l.executions[id].contract == e.contract;
      CountersAgree(Executed(l, id, e), e.contract, replaced + (if lost then 1 else 0),
                    replacedAmount + (if lost then l.executions[id].amount else 0))
  {
    hide Sum, Wrap64, Amounts;
    AmountsGrow(l.executions, id, e, e.contract);
    WrapAdds(Sum(Amounts(l.executions, e.contract)) + replacedAmount, e.amount);
  }

  lemma ExecutedOther(l: Lists, id: Str, e: Execution, contract: Str, replaced: int, replacedAmount: int)
    requires e.contract in l.contracts && contract != e.contract && CountersAgree(l, contract, replaced, replacedAmount)
    ensures var lost := id in l.executions && l.executions[id].contract == contract;
      CountersAgree(Executed(l, id, e), contract, replaced + (if lost then 1 else 0),
                    replacedAmount + (if lost then l.executions[id].amount else 0))
  {
    hide Sum, Wrap64, Amounts;
    AmountsAt(l.executions, id, contract);
    AmountsAfter(l.executions, id, e, contract);
    AmountsGrow(l.executions, id, e, contract);
  }

  /** For every run and contract: the execution counter is the number of its records plus
      the records a reused id replaced, and the running total is the int64 wrap of their
      amounts plus the replaced ones. */
  lemma {:induction false} CountersExact(txs: seq<Tx>, contract: Str)
    ensures CountersAgree(Run(txs).lists, contract, Replaced(txs, contract), ReplacedAmount(txs, contract))
    decreases |txs|
  {
    if txs == [] {
      assert Amounts(EMPTY.lists.executions, contract) == map[];
    } else {
      var before, tx := txs[..|txs| - 1], txs[|txs| - 1];
      CountersExact(before, contract);
      if Valid(Run(before), tx) {
        StepCounts(Run(before), tx, contract, Replaced(before, contract), ReplacedAmount(before, contract));
      }
      hide CountersAgree, NextLedger, NextLists, NextCustody, Valid;
    }
  }

  lemma StepCounts(s: State, tx: Tx, contract: Str, replaced: int, replacedAmount: int)
    requires Valid(s, tx) && CountersAgree(s.lists, contract, replaced, replacedAmount)
    ensures var lost := Replaces(s, tx, contract);
      CountersAgree(NextLists(s, tx), contract, replaced + (if lost then 1 else 0),
                    replacedAmount + (if lost then s.lists.executions[tx.executionId].amount else 0))
  {
    hide Sum, Wrap64, Available, Amounts;
    if tx.ExecuteContract? {
      var listed := Listed(s.lists, tx.executionId, tx.asset, tx.amount, tx.nullifier);
      assert CountersAgree(listed, contract, replaced, replacedAmount);
      ExecutedCounts(listed, tx.executionId, Execution(tx.contract, tx.asset, tx.amount), contract, replaced,
                     replacedAmount);
    } else if tx.RegisterContract? && tx.contract == contract {
      NoRecords(Amounts(s.lists.executions, contract));
    }
  }

  lemma NoRecords(records: map<Str, int>)
    requires records == map[]
    ensures |records| == 0 && Sum(records) == 0 && Wrap64(0) == 0
  {
  }

  /** With ids never reused, both counters are exactly the recount. */
  lemma {:induction false} CountersMatchRecords(txs: seq<Tx>, contract: Str)
    requires Reused(txs) == 0 && contract in Run(txs).lists.contracts
    ensures var l := Run(txs).lists;
      && |l.participants| == |l.transfers| && OneToOne(l)
      && l.contracts[contract].executionCount == |Amounts(l.executions, contract)|
      && l.contracts[contract].totalExecuted == Wrap64(Sum(Amounts(l.executions, contract)))
  {
    ListsCorrespond(txs);
    CountersExact(txs, contract);
    NothingReplaced(txs, contract);
  }

  lemma {:induction false} NothingReplaced(txs: seq<Tx>, contract: Str)
    requires Reused(txs) == 0
    ensures Replaced(txs, contract) == 0 && ReplacedAmount(txs, contract) == 0
    decreases |txs|
  {
    if txs != [] {
      NothingReplaced(txs[..|txs| - 1], contract);
      ListsCorrespond(txs[..|txs| - 1]);
    }
  }
}
