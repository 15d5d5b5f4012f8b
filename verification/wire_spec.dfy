/** The shywire ledger as a transition system: balances and supply, the two transfer
    lists with their contracts, and custody inventory.

    Account keys `asset:commitment` are pairs here; module Keys says when that is sound.
    All int64 arithmetic on balances, supply and contract totals wraps as in Go. */
module WireSpec {
  import opened Ordering
  import opened Sums

  type Key = (Str, Str)

  datatype Account = Account(asset: Str, commitment: Str, balance: int, disabled: bool, frozen: bool)
  datatype Supply = Supply(totalMinted: int, totalBurned: int, totalSupply: int)
  datatype Ledger = Ledger(assets: map<Str, int>, supply: map<Str, Supply>, accounts: map<Key, Account>)

  datatype Transfer = Transfer(transferId: Str, asset: Str, amount: int)
  datatype Participant = Participant(transferId: Str, identityHash: Str)
  datatype ContractStatus = PendingCondition | Active
  datatype Contract = Contract(asset: Str, status: ContractStatus, expiry: int, executionCount: int, totalExecuted: int)
  datatype Execution = Execution(contract: Str, asset: Str, amount: int)
  datatype Lists = Lists(
    transfers: map<Str, Transfer>,        // List 1, by transfer id
    participants: map<Str, Participant>,  // List 2, by nullifier
    executions: map<Str, Execution>,      // overlay on List 1, by execution id
    contracts: map<Str, Contract>)

  datatype LotStatus = Recorded | PartiallyAllocated | Exhausted
  datatype Lot = Lot(lotId: Str, asset: Str, warehouse: Str, sku: Str, quantity: int, remaining: int,
                     status: LotStatus, createdAt: int)
  datatype RequestStatus = Pending | Settled
  datatype Request = Request(asset: Str, account: Str, warehouse: Str, sku: Str, siloAmount: int, quantity: int,
                             status: RequestStatus)
  datatype Allocation = Allocation(lotId: Str, quantity: int)
  datatype Settlement = Settlement(requestId: Str, allocations: seq<Allocation>, burnAmount: int, settledQuantity: int)
  datatype Custody = Custody(lots: map<Str, Lot>, requests: map<Str, Request>, settlements: map<Str, Settlement>)

  datatype State = State(ledger: Ledger, lists: Lists, custody: Custody)

  datatype Action = Disable | Rescind | Freeze | Restore | RedeemForced

  datatype Tx =
    | RegisterAsset(asset: Str)
    | Mint(asset: Str, account: Str, amount: int)
    | Burn(asset: Str, account: Str, amount: int)
    | MakeTransfer(asset: Str, sender: Str, recipient: Str, amount: int, nullifier: Str, transferId: Str)
    | RegisterAccount(commitment: Str)
    | RegisterContract(contract: Str, asset: Str, pending: bool, expiry: int)
    | ActivateContract(contract: Str)
    | ExecuteContract(contract: Str, asset: Str, party: Str, counterparty: Str, amount: int,
                      nullifier: Str, executionId: Str, timestamp: int)
    | RecordLot(lotId: Str, asset: Str, warehouse: Str, sku: Str, quantity: int, now: int)
    | RequestRedemption(requestId: Str, asset: Str, account: Str, warehouse: Str, sku: Str, siloAmount: int,
                        quantity: int)
    | SettleRedemption(settlementId: Str, requestId: Str, warehouse: Str, burnAmount: int, quantity: int)
    | ApplyDemurrage(asset: Str, account: Str, amount: int)
    | AdverseAction(commitment: Str, asset: Str, action: Action)

  const SENTINEL: Str := [95]

  const EMPTY := State(Ledger(map[], map[], map[]), Lists(map[], map[], map[], map[]), Custody(map[], map[], map[]))

  // ----- custody inventory -----

  predicate Matches(lot: Lot, asset: Str, warehouse: Str, sku: Str) {
    lot.asset == asset && lot.warehouse == warehouse && lot.sku == sku
  }

  predicate InStock(lot: Lot) {
    lot.remaining > 0 && lot.status != Exhausted
  }

  ghost function StockIds(lots: map<Str, Lot>, asset: Str, warehouse: Str, sku: Str): set<Str> {
    set id | id in lots && Matches(lots[id], asset, warehouse, sku) && InStock(lots[id])
  }

  ghost function Available(lots: map<Str, Lot>, asset: Str, warehouse: Str, sku: Str): int {
    Sum(map id | id in StockIds(lots, asset, warehouse, sku) :: lots[id].remaining)
  }

  /** First in, first out: by creation time, then by lot id. */
  predicate LotLe(a: Lot, b: Lot) {
    a.createdAt < b.createdAt || (a.createdAt == b.createdAt && StrLe(a.lotId, b.lotId))
  }

  function LotsAt(lots: map<Str, Lot>, ids: seq<Str>): (r: seq<Lot>)
    requires forall id | id in ids :: id in lots
    ensures |r| == |ids|
  {
    seq(|ids|, i requires 0 <= i < |ids| => assert ids[i] in ids; lots[ids[i]])
  }

  lemma ListedIds(s: set<Str>)
    ensures forall id :: id in Listing(s) <==> id in s
  {
    forall id ensures id in Listing(s) <==> id in s {
      assert id in Listing(s) <==> id in multiset(Listing(s));
    }
  }

  ghost function Inventory(lots: map<Str, Lot>, asset: Str, warehouse: Str, sku: Str): seq<Lot> {
    ListedIds(StockIds(lots, asset, warehouse, sku));
    Sort(LotLe, LotsAt(lots, Listing(StockIds(lots, asset, warehouse, sku))))
  }

  function Least(a: int, b: int): int {
    if a > b then b else a
  }

  /** What the allocation loop takes from each lot of the queue. */
  function Allocate(queue: seq<Lot>, quantity: int): seq<Allocation> {
    if quantity <= 0 || queue == [] then []
    else
      var consume := Least(queue[0].remaining, quantity);
      [Allocation(queue[0].lotId, consume)] + Allocate(queue[1..], quantity - consume)
  }

  function RefreshedStatus(remaining: int, quantity: int): LotStatus {
    if remaining <= 0 then Exhausted else if remaining < quantity then PartiallyAllocated else Recorded
  }

  function Drawn(lot: Lot, q: int): Lot {
    lot.(remaining := lot.remaining - q, status := RefreshedStatus(lot.remaining - q, lot.quantity))
  }

  function DrawAll(lots: map<Str, Lot>, allocations: seq<Allocation>): map<Str, Lot> {
    if allocations == [] then lots
    else
      var rest, last := DrawAll(lots, allocations[..|allocations| - 1]), allocations[|allocations| - 1];
      if last.lotId in rest then rest[last.lotId := Drawn(rest[last.lotId], last.quantity)] else rest
  }

  // ----- when a transaction is accepted -----

  predicate Funded(l: Ledger, k: Key, amount: int) {
    k in l.accounts && l.accounts[k].balance >= amount
  }

  predicate MovesValue(tx: Tx)
    requires tx.ExecuteContract?
  {
    tx.asset != [] && tx.amount > 0
  }

  /** Stateless and stateful validation. Authority signatures, enrollment proofs and the
      policy, operator and SKU look-ups narrow it further and are left out. */
  ghost predicate Valid(s: State, tx: Tx) {
    match tx
    case RegisterAsset(a) => a !in s.ledger.assets && a != []
    case Mint(a, _, amount) => a in s.ledger.assets && amount > 0 && Int64(amount)
    case Burn(a, c, amount) => a in s.ledger.assets && amount > 0 && Funded(s.ledger, (a, c), amount)
    case MakeTransfer(a, sender, recipient, amount, nullifier, _) =>
      && a in s.ledger.assets && amount > 0 && nullifier !in s.lists.participants
      && Funded(s.ledger, (a, sender), amount)
      && !s.ledger.accounts[(a, sender)].disabled && !s.ledger.accounts[(a, sender)].frozen
      && (a, recipient) in s.ledger.accounts && !s.ledger.accounts[(a, recipient)].disabled
    case RegisterAccount(c) => (SENTINEL, c) !in s.ledger.accounts
    case RegisterContract(id, a, _, _) => id !in s.lists.contracts && (a != [] ==> a in s.ledger.assets)
    case ActivateContract(id) => id in s.lists.contracts && s.lists.contracts[id].status == PendingCondition
    case ExecuteContract(id, a, party, counterparty, amount, nullifier, _, timestamp) =>
      && id in s.lists.contracts && s.lists.contracts[id].status == Active && Int64(amount)
      && !(s.lists.contracts[id].expiry > 0 && timestamp > s.lists.contracts[id].expiry)
      && nullifier !in s.lists.participants
      && (MovesValue(tx) ==>
            && (s.lists.contracts[id].asset == [] || s.lists.contracts[id].asset == a)
            && Funded(s.ledger, (a, party), amount)
            && (counterparty != [] ==> (a, counterparty) in s.ledger.accounts))
    case RecordLot(id, a, _, _, quantity, _) => id !in s.custody.lots && a in s.ledger.assets && quantity > 0
    case RequestRedemption(id, a, c, w, sku, silo, quantity) =>
      && id !in s.custody.requests && a in s.ledger.assets && silo > 0 && quantity > 0
      && (SENTINEL, c) in s.ledger.accounts && Funded(s.ledger, (a, c), silo)
      && Wrap64(Available(s.custody.lots, a, w, sku)) >= quantity
    case SettleRedemption(id, requestId, w, burn, quantity) =>
      && id !in s.custody.settlements && requestId in s.custody.requests && burn > 0 && quantity > 0
      && var r := s.custody.requests[requestId];
      && r.status == Pending && r.warehouse == w && quantity <= r.quantity && burn <= r.siloAmount
      && Wrap64(Available(s.custody.lots, r.asset, w, r.sku)) >= quantity
      && Funded(s.ledger, (r.asset, r.account), burn)
    case ApplyDemurrage(a, c, amount) => amount > 0 && Funded(s.ledger, (a, c), amount)
    case AdverseAction(c, _, _) => (SENTINEL, c) in s.ledger.accounts
  }

  // ----- what it does -----

  function Moved(l: Ledger, k: Key, delta: int): Ledger
    requires k in l.accounts
  {
    l.(accounts := l.accounts[k := l.accounts[k].(balance := Wrap64(l.accounts[k].balance + delta))])
  }

  lemma MovedKeys(l: Ledger, k: Key, delta: int)
    requires k in l.accounts
    ensures Moved(l, k, delta).accounts.Keys == l.accounts.Keys
  {
  }

  function WithAccount(l: Ledger, k: Key): Ledger {
    if k in l.accounts then l else l.(accounts := l.accounts[k := Account(k.0, k.1, 0, false, false)])
  }

  /** A missing supply record would be a nil dereference; WireLedger proves that no
      accepted transaction meets one. */
  function SupplyOf(l: Ledger, a: Str): Supply {
    if a in l.supply then l.supply[a] else Supply(0, 0, 0)
  }

  function Restocked(l: Ledger, a: Str, minted: int, burned: int): Ledger {
    var m, b := Wrap64(SupplyOf(l, a).totalMinted + minted), Wrap64(SupplyOf(l, a).totalBurned + burned);
    l.(supply := l.supply[a := Supply(m, b, Wrap64(m - b))], assets := l.assets[a := Wrap64(m - b)])
  }

  function Minted(l: Ledger, k: Key, amount: int): Ledger {
    Restocked(Moved(WithAccount(l, k), k, amount), k.0, amount, 0)
  }

  function Burned(l: Ledger, k: Key, amount: int): Ledger
    requires k in l.accounts
  {
    Restocked(Moved(l, k, -amount), k.0, 0, amount)
  }

  function Acted(acct: Account, action: Action): Account {
    match action
    case Disable => acct.(disabled := true, frozen := false)
    case Rescind => acct.(disabled := true, frozen := false)
    case Freeze => if acct.disabled then acct else acct.(frozen := true)
    case Restore => acct.(disabled := false, frozen := false)
    case RedeemForced => acct.(disabled := true, balance := 0)
  }

  predicate Targeted(acct: Account, commitment: Str, asset: Str) {
    acct.commitment == commitment && (asset == [] || acct.asset == asset)
  }

  function ActedOn(accounts: map<Key, Account>, commitment: Str, asset: Str, action: Action): map<Key, Account> {
    map k | k in accounts ::
      if Targeted(accounts[k], commitment, asset) then Acted(accounts[k], action) else accounts[k]
  }

  function Listed(l: Lists, id: Str, asset: Str, amount: int, nullifier: Str): Lists {
    l.(transfers := l.transfers[id := Transfer(id, asset, amount)],
       participants := l.participants[nullifier := Participant(id, nullifier)])
  }

  function Executed(l: Lists, id: Str, e: Execution): Lists
    requires e.contract in l.contracts
  {
    var c := l.contracts[e.contract];
    l.(executions := l.executions[id := e],
       contracts := l.contracts[e.contract := c.(executionCount := c.executionCount + 1,
                                                 totalExecuted := Wrap64(c.totalExecuted + e.amount))])
  }

  ghost function NextLedger(s: State, tx: Tx): Ledger
    requires Valid(s, tx)
  {
    var l := s.ledger;
    match tx
    case RegisterAsset(a) => l.(assets := l.assets[a := 0], supply := l.supply[a := Supply(0, 0, 0)])
    case Mint(a, c, amount) => Minted(l, (a, c), amount)
    case Burn(a, c, amount) => Burned(l, (a, c), amount)
    case MakeTransfer(a, sender, recipient, amount, _, _) =>
      Moved(Moved(l, (a, sender), -amount), (a, recipient), amount)
    case RegisterAccount(c) => l.(accounts := l.accounts[(SENTINEL, c) := Account(SENTINEL, c, 0, false, false)])
    case ExecuteContract(_, a, party, counterparty, amount, _, _, _) =>
      if !MovesValue(tx) then l
      else if counterparty == [] then Moved(l, (a, party), -amount)
      else Moved(Moved(l, (a, party), -amount), (a, counterparty), amount)
    case SettleRedemption(_, requestId, _, burn, _) =>
      var r := s.custody.requests[requestId];
      Burned(l, (r.asset, r.account), burn)
    case ApplyDemurrage(a, c, amount) => Burned(l, (a, c), amount)
    case AdverseAction(c, a, action) => l.(accounts := ActedOn(l.accounts, c, a, action))
    case _ => l
  }

  ghost function NextLists(s: State, tx: Tx): Lists
    requires Valid(s, tx)
  {
    var l := s.lists;
    match tx
    case MakeTransfer(a, _, _, amount, nullifier, id) => Listed(l, id, a, amount, nullifier)
    case RegisterContract(id, a, pending, expiry) =>
      l.(contracts := l.contracts[id := Contract(a, if pending then PendingCondition else Active, expiry, 0, 0)])
    case ActivateContract(id) => l.(contracts := l.contracts[id := l.contracts[id].(status := Active)])
    case ExecuteContract(contract, a, _, _, amount, nullifier, id, _) =>
      Executed(Listed(l, id, a, amount, nullifier), id, Execution(contract, a, amount))
    case _ => l
  }

  ghost function NextCustody(s: State, tx: Tx): Custody
    requires Valid(s, tx)
  {
    var c := s.custody;
    match tx
    case RecordLot(id, a, w, sku, quantity, now) =>
      c.(lots := c.lots[id := Lot(id, a, w, sku, quantity, quantity, Recorded, now)])
    case RequestRedemption(id, a, account, w, sku, silo, quantity) =>
      c.(requests := c.requests[id := Request(a, account, w, sku, silo, quantity, Pending)])
    case SettleRedemption(id, requestId, w, burn, quantity) =>
      var r := c.requests[requestId];
      var allocations := Allocate(Inventory(c.lots, r.asset, w, r.sku), quantity);
      Custody(DrawAll(c.lots, allocations), c.requests[requestId := r.(status := Settled)],
              c.settlements[id := Settlement(requestId, allocations, burn, quantity)])
    case _ => c
  }

  ghost function Step(s: State, tx: Tx): State {
    if Valid(s, tx) then State(NextLedger(s, tx), NextLists(s, tx), NextCustody(s, tx)) else s
  }

  /** The state after any sequence of submitted transactions. */
  ghost function Run(txs: seq<Tx>): State {
    if txs == [] then EMPTY else Step(Run(txs[..|txs| - 1]), txs[|txs| - 1])
  }
}
