/** Restarting shywire: committing any run at any points and reloading gives back the
    tables of the last commit. */
module WireStore {
  import opened Ordering
  import K = Keys
  import opened Store
  import opened WireSpec
  import WireState
  import WireLists
  import WireCustody

  /** What is marshalled into one entry, with the fields its key is made from on reload. */
  datatype Record =
    | AssetRecord(assetId: Str, totalSupply: int)
    | SupplyRecord(assetId: Str, supply: Supply)
    | AccountRecord(account: Account)
    | TransferRecord(transfer: Transfer)
    | ParticipantRecord(participant: Participant)
    | ContractRecord(contractId: Str, contract: Contract)
    | LotRecord(lot: Lot)
    | RequestRecord(requestId: Str, request: Request)
    | SettlementRecord(settlementId: Str, settlement: Settlement)

  function IdOf(r: Record): Str {
    match r
    case AssetRecord(id, _) => id
    case SupplyRecord(id, _) => id
    case AccountRecord(a) => K.Key(a.asset, a.commitment)
    case TransferRecord(t) => t.transferId
    case ParticipantRecord(p) => p.identityHash
    case ContractRecord(id, _) => id
    case LotRecord(l) => l.lotId
    case RequestRecord(id, _) => id
    case SettlementRecord(id, _) => id
  }

  datatype Namespace =
    | Assets | Supplies | Accounts | Transfers | Participants | Contracts | Lots | Requests | Settlements

  /** asset, supply, account, transfer, participant, contract, custody_lot,
      custody_redemption, custody_settlement. */
  function Spelled(n: Namespace): Str {
    match n
    case Assets => [97, 115, 115, 101, 116]
    case Supplies => [115, 117, 112, 112, 108, 121]
    case Accounts => [97, 99, 99, 111, 117, 110, 116]
    case Transfers => [116, 114, 97, 110, 115, 102, 101, 114]
    case Participants => [112, 97, 114, 116, 105, 99, 105, 112, 97, 110, 116]
    case Contracts => [99, 111, 110, 116, 114, 97, 99, 116]
    case Lots => [99, 117, 115, 116, 111, 100, 121, 95, 108, 111, 116]
    case Requests => [99, 117, 115, 116, 111, 100, 121, 95, 114, 101, 100, 101, 109, 112, 116, 105, 111, 110]
    case Settlements => [99, 117, 115, 116, 111, 100, 121, 95, 115, 101, 116, 116, 108, 101, 109, 101, 110, 116]
  }

  lemma SpelledApart(m: Namespace, n: Namespace)
    ensures K.ColonFree(Spelled(n))
    ensures Spelled(m) == Spelled(n) ==> m == n
  {
    assert Spelled(m) != Spelled(n) || Spelled(m)[0] == Spelled(n)[0];
    assert |Spelled(m)| == |Spelled(n)| || Spelled(m) != Spelled(n);
  }

  // ----- the tables -----

  /** Every account carries the pair it is filed under, and its asset is registered or the
      sentinel. */
  ghost predicate Filed(s: State) {
    FiledLedger(s.ledger)
  }

  /** No two accounts share a joined key `asset:commitment`. The code's map is keyed by the
      joined string: where two accounts do share one, the code has a single record for them
      and the accounts here no longer stand for what it holds. */
  ghost predicate Apart(s: State) {
    forall j, k | j in s.ledger.accounts && k in s.ledger.accounts && K.Key(j.0, j.1) == K.Key(k.0, k.1) :: j == k
  }

  ghost function AccountTable(s: State): Table<Record> {
    map id | id in AccountIds(s) :: AccountRecord(s.ledger.accounts[AccountKey(s, id)])
  }

  ghost function AccountIds(s: State): set<Str> {
    set k | k in s.ledger.accounts :: K.Key(k.0, k.1)
  }

  ghost function AccountKey(s: State, id: Str): (k: WireSpec.Key)
    requires id in AccountIds(s)
    ensures k in s.ledger.accounts && K.Key(k.0, k.1) == id
  {
    var k :| k in s.ledger.accounts && K.Key(k.0, k.1) == id;
    k
  }

  ghost function TableOf(s: State, n: Namespace): Table<Record> {
    match n
    case Assets => map id | id in s.ledger.assets :: AssetRecord(id, s.ledger.assets[id])
    case Supplies => map id | id in s.ledger.supply :: SupplyRecord(id, s.ledger.supply[id])
    case Accounts => AccountTable(s)
    case Transfers => map id | id in s.lists.transfers :: TransferRecord(s.lists.transfers[id])
    case Participants => map id | id in s.lists.participants :: ParticipantRecord(s.lists.participants[id])
    case Contracts => map id | id in s.lists.contracts :: ContractRecord(id, s.lists.contracts[id])
    case Lots => map id | id in s.custody.lots :: LotRecord(s.custody.lots[id])
    case Requests => map id | id in s.custody.requests :: RequestRecord(id, s.custody.requests[id])
    case Settlements => map id | id in s.custody.settlements :: SettlementRecord(id, s.custody.settlements[id])
  }

  const ALL := {Assets, Supplies, Accounts, Transfers, Participants, Contracts, Lots, Requests, Settlements}

  ghost function ImageOf(s: State): Image<Record> {
    Image(map n | n in ALL :: Spelled(n) := TableOf(s, n), map[])
  }

  /** The joined key finds the account it was made for and no other. */
  lemma AccountFound(s: State, k: WireSpec.Key)
    requires Apart(s) && k in s.ledger.accounts
    ensures K.Key(k.0, k.1) in AccountTable(s)
        && AccountTable(s)[K.Key(k.0, k.1)] == AccountRecord(s.ledger.accounts[k])
  {
    var j := AccountKey(s, K.Key(k.0, k.1));
    assert j == k;
  }

  // ----- what every run keeps -----

  /** The account table changes its entries but not what they are filed under. */
  ghost predicate SameFiling(l: Ledger, m: Ledger) {
    && l.accounts.Keys == m.accounts.Keys && l.assets.Keys == m.assets.Keys && l.supply.Keys == m.supply.Keys
    && forall k | k in l.accounts ::
         m.accounts[k].asset == l.accounts[k].asset && m.accounts[k].commitment == l.accounts[k].commitment
  }

  lemma MovedFiling(l: Ledger, k: WireSpec.Key, delta: int)
    requires k in l.accounts
    ensures SameFiling(l, Moved(l, k, delta))
  {
  }

  lemma RestockedFiling(l: Ledger, a: Str, minted: int, burned: int)
    requires a in l.assets && a in l.supply
    ensures SameFiling(l, Restocked(l, a, minted, burned))
  {
  }

  lemma ActedFiling(l: Ledger, c: Str, asset: Str, action: Action)
    ensures SameFiling(l, l.(accounts := ActedOn(l.accounts, c, asset, action)))
  {
  }

  /** Nothing is dropped. */
  ghost predicate Grows(l: Ledger, m: Ledger) {
    && l.accounts.Keys <= m.accounts.Keys && l.assets.Keys <= m.assets.Keys && l.supply.Keys <= m.supply.Keys
  }

  ghost predicate FiledLedger(l: Ledger) {
    && (forall k | k in l.accounts :: l.accounts[k].asset == k.0 && l.accounts[k].commitment == k.1)
    && forall k | k in l.accounts :: k.0 in l.assets || k.0 == SENTINEL
  }

  lemma Refiled(l: Ledger, m: Ledger)
    requires SameFiling(l, m)
    ensures Grows(l, m) && (FiledLedger(l) ==> FiledLedger(m))
  {
  }

  lemma BurnedFiled(l: Ledger, k: WireSpec.Key, amount: int)
    requires k in l.accounts && k.0 in l.assets && k.0 in l.supply && FiledLedger(l)
    ensures FiledLedger(Burned(l, k, amount)) && Grows(l, Burned(l, k, amount))
  {
    hide Moved, Restocked, FiledLedger;
    MovedFiling(l, k, -amount);
    Refiled(l, Moved(l, k, -amount));
    RestockedFiling(Moved(l, k, -amount), k.0, 0, amount);
    Refiled(Moved(l, k, -amount), Burned(l, k, amount));
  }

  lemma MintedFiled(l: Ledger, k: WireSpec.Key, amount: int)
    requires k.0 in l.assets && k.0 in l.supply && FiledLedger(l)
    ensures FiledLedger(Minted(l, k, amount)) && Grows(l, Minted(l, k, amount))
  {
    var w := WithAccount(l, k);
    assert FiledLedger(w) && Grows(l, w) && k in w.accounts;
    hide Moved, Restocked, FiledLedger, WithAccount;
    MovedFiling(w, k, amount);
    Refiled(w, Moved(w, k, amount));
    RestockedFiling(Moved(w, k, amount), k.0, amount, 0);
    Refiled(Moved(w, k, amount), Minted(l, k, amount));
  }

  lemma PaidFiled(l: Ledger, j: WireSpec.Key, k: WireSpec.Key, amount: int)
    requires j in l.accounts && k in l.accounts && FiledLedger(l)
    ensures var m := Moved(Moved(l, j, -amount), k, amount); FiledLedger(m) && Grows(l, m)
  {
    hide Moved, FiledLedger;
    MovedFiling(l, j, -amount);
    Refiled(l, Moved(l, j, -amount));
    MovedFiling(Moved(l, j, -amount), k, amount);
    Refiled(Moved(l, j, -amount), Moved(Moved(l, j, -amount), k, amount));
  }

  lemma {:induction false} StepFiled(s: State, tx: Tx)
    requires Valid(s, tx) && WireState.Backed(s.ledger) && FiledLedger(s.ledger)
    ensures FiledLedger(NextLedger(s, tx)) && Grows(s.ledger, NextLedger(s, tx))
  {
    var l := s.ledger;
    hide Moved, Restocked, Available, WireState.Backed, ActedOn, FiledLedger, Grows, Minted, Burned, SameFiling;
    GrowsFromItself(l);
    if WireState.Supplies(tx) {
      SuppliedFiled(s, tx);
      return;
    }
    match tx
    case MakeTransfer(a, sender, recipient, amount, _, _) => PaidFiled(l, (a, sender), (a, recipient), amount);
    case ExecuteContract(_, a, party, counterparty, amount, _, _, _) =>
      if MovesValue(tx) {
        if counterparty != [] {
          PaidFiled(l, (a, party), (a, counterparty), amount);
        } else {
          MovedFiling(l, (a, party), -amount);
          Refiled(l, Moved(l, (a, party), -amount));
        }
      }
    case AdverseAction(c, a, action) =>
      ActedFiling(l, c, a, action);
      Refiled(l, NextLedger(s, tx));
    case RegisterAsset(a) => AssetFiled(l, a);
    case RegisterAccount(c) => AccountFiled(l, c);
    case _ =>
  }

  lemma SuppliedFiled(s: State, tx: Tx)
    requires Valid(s, tx) && WireState.Supplies(tx) && WireState.Backed(s.ledger) && FiledLedger(s.ledger)
    ensures FiledLedger(NextLedger(s, tx)) && Grows(s.ledger, NextLedger(s, tx))
  {
    hide Moved, Restocked, Available, WireState.Backed, FiledLedger, Grows, Minted, Burned;
    var l := s.ledger;
    WireState.SupplyRecorded(s, tx);
    match tx
    case Mint(a, c, amount) => MintedFiled(l, (a, c), amount);
    case Burn(a, c, amount) => BurnedFiled(l, (a, c), amount);
    case ApplyDemurrage(a, c, amount) => BurnedFiled(l, (a, c), amount);
    case SettleRedemption(_, requestId, _, burn, _) =>
      BurnedFiled(l, (s.custody.requests[requestId].asset, s.custody.requests[requestId].account), burn);
  }

  lemma GrowsFromItself(l: Ledger)
    ensures Grows(l, l)
  {
  }

  lemma AssetFiled(l: Ledger, a: Str)
    requires FiledLedger(l)
    ensures var m := l.(assets := l.assets[a := 0], supply := l.supply[a := Supply(0, 0, 0)]);
      FiledLedger(m) && Grows(l, m)
  {
  }

  lemma AccountFiled(l: Ledger, c: Str)
    requires FiledLedger(l)
    ensures var m := l.(accounts := l.accounts[(SENTINEL, c) := Account(SENTINEL, c, 0, false, false)]);
      FiledLedger(m) && Grows(l, m)
  {
  }

  ghost predicate TablesGrow(s: State, t: State) {
    && Grows(s.ledger, t.ledger)
    && s.lists.transfers.Keys <= t.lists.transfers.Keys && s.lists.participants.Keys <= t.lists.participants.Keys
    && s.lists.contracts.Keys <= t.lists.contracts.Keys
    && s.custody.lots.Keys <= t.custody.lots.Keys && s.custody.requests.Keys <= t.custody.requests.Keys
    && s.custody.settlements.Keys <= t.custody.settlements.Keys
  }

  lemma ListsGrow(s: State, tx: Tx)
    requires Valid(s, tx)
    ensures var l, m := s.lists, NextLists(s, tx);
      l.transfers.Keys <= m.transfers.Keys && l.participants.Keys <= m.participants.Keys
        && l.contracts.Keys <= m.contracts.Keys
  {
    hide Available;
  }

  lemma {:induction false} CustodyGrows(s: State, tx: Tx)
    requires Valid(s, tx) && WireCustody.LotsKept(s.custody.lots)
    ensures var c, d := s.custody, NextCustody(s, tx);
      c.lots.Keys <= d.lots.Keys && c.requests.Keys <= d.requests.Keys && c.settlements.Keys <= d.settlements.Keys
  {
    if tx.SettleRedemption? {
      var r := s.custody.requests[tx.requestId];
      WireCustody.SameLots(s.custody.lots,
                           Allocate(Inventory(s.custody.lots, r.asset, tx.warehouse, r.sku), tx.quantity));
    }
    hide Available, DrawAll, Allocate, Inventory, WireCustody.LotsKept;
  }

  /** In every run. */
  lemma {:induction false} RunFiled(txs: seq<Tx>)
    ensures Filed(Run(txs))
    ensures txs != [] ==> TablesGrow(Run(txs[..|txs| - 1]), Run(txs))
    decreases |txs|
  {
    if txs != [] {
      var before, tx := txs[..|txs| - 1], txs[|txs| - 1];
      RunFiled(before);
      WireState.RunGood(before);
      hide FiledLedger, Valid, NextLedger, NextLists, NextCustody, WireCustody.LotsKept, WireState.Backed;
      if Valid(Run(before), tx) {
        StepFiled(Run(before), tx);
        ListsGrow(Run(before), tx);
        CustodyGrows(Run(before), tx);
      }
    }
  }

  // ----- when a joined key means one account -----

  /** Colon-free asset ids are enough, and so are colon-free commitments. */
  lemma {:induction false} RunApart(txs: seq<Tx>)
    requires (forall a | a in Run(txs).ledger.assets :: K.ColonFree(a))
      || forall k | k in Run(txs).ledger.accounts :: K.ColonFree(k.1)
    ensures Apart(Run(txs))
  {
    RunFiled(txs);
    hide Run;
    ApartIf(Run(txs));
  }

  lemma ApartIf(s: State)
    requires Filed(s)
    requires (forall a | a in s.ledger.assets :: K.ColonFree(a))
      || forall k | k in s.ledger.accounts :: K.ColonFree(k.1)
    ensures Apart(s)
  {
    forall j, k | j in s.ledger.accounts && k in s.ledger.accounts && K.Key(j.0, j.1) == K.Key(k.0, k.1)
      ensures j == k {
      K.KeyInjective(j.0, j.1, k.0, k.1);
    }
  }

  // a, a:b, b:c and c
  const A: Str := [97]
  const AB: Str := [97, 58, 98]
  const BC: Str := [98, 58, 99]
  const C: Str := [99]

  /** Nothing keeps a colon out of an asset id: asset a minted to b:c and asset a:b minted
      to c are two accounts with one joined key. */
  lemma SharedKey()
    ensures var txs := [RegisterAsset(A), RegisterAsset(AB), Mint(A, BC, 1), Mint(AB, C, 1)];
      var s := Run(txs);
      && (A, BC) in s.ledger.accounts && (AB, C) in s.ledger.accounts && K.Key(A, BC) == K.Key(AB, C)
      && s.ledger.accounts[(A, BC)].balance == s.ledger.accounts[(AB, C)].balance == 1
      && !Apart(s)
  {
    hide Minted;
    var t1, t2, t3, t4 := RegisterAsset(A), RegisterAsset(AB), Mint(A, BC, 1), Mint(AB, C, 1);
    var s1, s2 := Step(EMPTY, t1), Step(Step(EMPTY, t1), t2);
    assert s1.ledger == Ledger(map[A := 0], map[A := Supply(0, 0, 0)], map[]);
    assert AB[1] == 58 && s2.ledger.accounts == map[];
    FirstMint(s2, A, BC);
    var s3 := Step(s2, t3);
    FirstMint(s3, AB, C);
    RunOfFour(t1, t2, t3, t4);
    assert K.Key(A, BC) == [97, 58, 98, 58, 99] == K.Key(AB, C);
  }

  lemma FirstMint(s: State, a: Str, c: Str)
    requires a in s.ledger.assets && (a, c) !in s.ledger.accounts
    ensures var t := Step(s, Mint(a, c, 1));
      && t.ledger.accounts == s.ledger.accounts[(a, c) := Account(a, c, 1, false, false)]
      && t.ledger.assets.Keys == s.ledger.assets.Keys
  {
  }

  lemma RunOfFour(a: Tx, b: Tx, c: Tx, d: Tx)
    ensures Run([a, b, c, d]) == Step(Step(Step(Step(EMPTY, a), b), c), d)
  {
    hide Step;
    assert [a][..0] == [] && [a, b][..1] == [a] && [a, b, c][..2] == [a, b] && [a, b, c, d][..3] == [a, b, c];
    assert Run([a]) == Step(EMPTY, a);
    assert Run([a, b]) == Step(Run([a]), b);
    assert Run([a, b, c]) == Step(Run([a, b]), c);
  }

  lemma {:induction false} TablesOnlyGrow(txs: seq<Tx>, i: nat, j: nat)
    requires i <= j <= |txs|
    ensures TablesGrow(Run(txs[..i]), Run(txs[..j]))
    decreases j
  {
    if i < j {
      TablesOnlyGrow(txs, i, j - 1);
      RunFiled(txs[..j]);
      assert txs[..j][..j - 1] == txs[..j - 1];
      hide Run, Filed;
    }
  }

  // ----- commit and reload -----

  lemma {:induction false} KeysOfTable(s: State, t: State, n: Namespace)
    requires TablesGrow(s, t)
    ensures TableOf(s, n).Keys <= TableOf(t, n).Keys
  {
    if n == Accounts {
      forall id | id in AccountIds(s) ensures id in AccountIds(t) {
        var k := AccountKey(s, id);
        assert k in t.ledger.accounts;
      }
    }
  }

  /** Every stored record carries the key it is stored under. */
  lemma {:induction false} RecordsNameTheirKeys(txs: seq<Tx>, n: Namespace, id: Str)
    requires id in TableOf(Run(txs), n)
    ensures IdOf(TableOf(Run(txs), n)[id]) == id
  {
    hide Run, TableOf, IdOf, Filed, TablesGrow, WireState.Backed, WireLists.MapsOnto, WireLists.OneToOne,
      WireCustody.LotsKept;
    WireState.RunGood(txs);
    WireLists.ListsCorrespond(txs);
    RunFiled(txs);
    NamedRecords(Run(txs), n, id);
  }

  lemma {:induction false} NamedRecords(s: State, n: Namespace, id: Str)
    requires Filed(s) && WireLists.MapsOnto(s.lists) && WireCustody.LotsKept(s.custody.lots) && id in TableOf(s, n)
    ensures IdOf(TableOf(s, n)[id]) == id
  {
    hide Filed, WireLists.MapsOnto, WireCustody.LotsKept;
    match n
    case Accounts => NamedAccount(s, id);
    case Transfers => NamedList(s.lists);
    case Participants => NamedList(s.lists);
    case Lots => NamedLot(s.custody.lots, id);
    case _ =>
  }

  lemma NamedAccount(s: State, id: Str)
    requires Filed(s) && id in AccountTable(s)
    ensures IdOf(AccountTable(s)[id]) == id
  {
    var k := AccountKey(s, id);
  }

  lemma NamedList(l: Lists)
    requires WireLists.MapsOnto(l)
    ensures forall id | id in l.transfers :: l.transfers[id].transferId == id
    ensures forall n | n in l.participants :: l.participants[n].identityHash == n
  {
  }

  lemma NamedLot(lots: map<Str, Lot>, id: Str)
    requires WireCustody.LotsKept(lots) && id in lots
    ensures lots[id].lotId == id
  {
  }

  ghost predicate Points(txs: seq<Tx>, points: seq<nat>) {
    points != [] && (forall i | 0 <= i < |points| :: points[i] <= |txs|)
    && forall i, j | 0 <= i < j < |points| :: points[i] <= points[j]
  }

  ghost predicate Commits(txs: seq<Tx>, points: seq<nat>, history: seq<Image<Record>>) {
    |history| == |points| && forall i | 0 <= i < |points| ::
      points[i] <= |txs| && history[i] == ImageOf(Run(txs[..points[i]]))
  }

  lemma {:induction false} ImageTables(s: State, n: Namespace)
    ensures Committable(ImageOf(s)) && Spelled(n) in ImageOf(s).tables && ImageOf(s).tables[Spelled(n)] == TableOf(s, n)
  {
    hide Spelled, TableOf, K.ColonFree;
    forall ns | ns in ImageOf(s).tables ensures K.ColonFree(ns) {
      var m :| m in ALL && Spelled(m) == ns;
      SpelledApart(m, m);
    }
    AllNamespaces(n);
    forall m | m in ALL && Spelled(m) == Spelled(n) ensures m == n {
      SpelledApart(m, n);
    }
  }

  lemma AllNamespaces(n: Namespace)
    ensures n in ALL
  {
  }

  /** Whatever run and whatever commits along it: a scan of any namespace of the store
      finds exactly the table of the last commit. */
  lemma {:induction false} ScanIsLastTable(txs: seq<Tx>, points: seq<nat>, history: seq<Image<Record>>, n: Namespace)
    requires Points(txs, points) && Commits(txs, points, history)
    ensures forall m | m in history :: Committable(m)
    ensures Scanned(CommittedAll(history), Spelled(n)) == TableOf(Run(txs[..points[|points| - 1]]), n)
  {
    hide Run, TableOf, ImageOf, Committed, Scanned, Spelled, TablesGrow;
    var z := |points| - 1;
    var last := Run(txs[..points[z]]);
    forall i | 0 <= i < |history|
      ensures Committable(history[i]) && Spelled(n) in history[i].tables
      ensures history[i].tables[Spelled(n)] == TableOf(Run(txs[..points[i]]), n)
      ensures history[i].tables[Spelled(n)].Keys <= TableOf(last, n).Keys
    {
      var s := Run(txs[..points[i]]);
      ImageTables(s, n);
      TablesOnlyGrow(txs, points[i], points[z]);
      KeysOfTable(s, last, n);
    }
    SpelledApart(n, n);
    ReloadExact(history, Spelled(n));
  }

  /** The entries of a namespace carry, in their records, the keys they are stored under. */
  ghost predicate SelfKeyed(db: map<Str, Record>, n: Namespace) {
    forall k | k in db && InNamespace(k, Spelled(n)) :: K.Key(Spelled(n), IdOf(db[k])) == k
  }

  lemma {:induction false} StoreSelfKeyed(txs: seq<Tx>, points: seq<nat>, history: seq<Image<Record>>, n: Namespace)
    requires Points(txs, points) && Commits(txs, points, history)
    ensures forall m | m in history :: Committable(m)
    ensures SelfKeyed(CommittedAll(history), n)
  {
    hide Run, TableOf, ImageOf, Committed, CommittedAll, Scanned, Spelled, IdOf, Commits, Points;
    ScanIsLastTable(txs, points, history, n);
    LastPoint(txs, points);
    var db, last := CommittedAll(history), txs[..points[|points| - 1]];
    forall k | k in db && InNamespace(k, Spelled(n)) ensures K.Key(Spelled(n), IdOf(db[k])) == k {
      var id := k[|Spelled(n)| + 1..];
      assert k == K.Key(Spelled(n), id);
      ScannedRecord(db, Spelled(n), id);
      RecordsNameTheirKeys(last, n, id);
    }
  }

  lemma LastPoint(txs: seq<Tx>, points: seq<nat>)
    requires Points(txs, points)
    ensures points != [] && points[|points| - 1] <= |txs|
  {
  }

  /** The loader of a table: it scans the namespace and enters every record under the key
      that the record itself calls for. After any run and any commits along it, that gives
      back exactly the table of the last commit. */
  method ReloadTable(store: Database<Record>, n: Namespace, ghost txs: seq<Tx>, ghost points: seq<nat>,
                     ghost history: seq<Image<Record>>) returns (table: Table<Record>)
    requires Points(txs, points) && Commits(txs, points, history)
    requires (forall m | m in history :: Committable(m)) && store.db == CommittedAll(history)
    ensures table == TableOf(Run(txs[..points[|points| - 1]]), n)
  {
    hide Run, TableOf, ImageOf, Committed, CommittedAll, Scanned, Spelled, IdOf, Commits;
    ScanIsLastTable(txs, points, history, n);
    StoreSelfKeyed(txs, points, history, n);
    table := store.LoadTable(Spelled(n), IdOf);
  }

  /** All tables, in the form of one map. */
  method LoadState(store: Database<Record>, ghost txs: seq<Tx>, ghost points: seq<nat>,
                   ghost history: seq<Image<Record>>)
      returns (tables: map<Namespace, Table<Record>>)
    requires Points(txs, points) && Commits(txs, points, history)
    requires (forall m | m in history :: Committable(m)) && store.db == CommittedAll(history)
    ensures tables.Keys == ALL
    ensures forall n | n in ALL :: tables[n] == TableOf(Run(txs[..points[|points| - 1]]), n)
  {
    hide Run, TableOf, ImageOf, Committed, CommittedAll, Commits;
    tables := map[];
    var rest := ALL;
    while rest != {}
      invariant rest <= ALL && tables.Keys == ALL - rest
      invariant forall n | n in tables :: tables[n] == TableOf(Run(txs[..points[|points| - 1]]), n)
      decreases rest
    {
      var n :| n in rest;
      var table := ReloadTable(store, n, txs, points, history);
      tables := tables[n := table];
      rest := rest - {n};
    }
  }

  /** Every account is found under its joined key. */
  ghost predicate AllFound(s: State) {
    forall k | k in s.ledger.accounts ::
      K.Key(k.0, k.1) in TableOf(s, Accounts)
        && TableOf(s, Accounts)[K.Key(k.0, k.1)] == AccountRecord(s.ledger.accounts[k])
  }

  /** In every run: the stored table holds nothing that is not an account, and it holds
      every account, each under its joined key, exactly when no two accounts share one. */
  lemma {:induction false} AccountsRestored(txs: seq<Tx>)
    ensures AllFound(Run(txs)) <==> Apart(Run(txs))
    ensures forall id ::
      id in TableOf(Run(txs), Accounts) <==> exists k :: k in Run(txs).ledger.accounts && K.Key(k.0, k.1) == id
  {
    RunFiled(txs);
    hide Run;
    var s := Run(txs);
    if Apart(s) {
      forall k | k in s.ledger.accounts
        ensures K.Key(k.0, k.1) in TableOf(s, Accounts)
        ensures TableOf(s, Accounts)[K.Key(k.0, k.1)] == AccountRecord(s.ledger.accounts[k])
      {
        AccountFound(s, k);
      }
    }
    if AllFound(s) {
      forall j, k | j in s.ledger.accounts && k in s.ledger.accounts && K.Key(j.0, j.1) == K.Key(k.0, k.1)
        ensures j == k
      {
        assert AccountRecord(s.ledger.accounts[j]) == AccountRecord(s.ledger.accounts[k]);
      }
    }
  }
}
