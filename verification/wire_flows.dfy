/** Every balance and every supply figure as plain arithmetic over the transactions that
    were accepted: what the wrapped updates of the ledger amount to. */
module WireFlows {
  import opened Ordering
  import opened Sums
  import opened WireSpec
  import opened WireLedger
  import opened WireInventory

  // ----- one step in plain arithmetic -----

  predicate Burns(tx: Tx) {
    tx.Burn? || tx.ApplyDemurrage? || tx.SettleRedemption?
  }

  /** The account that a burn, a demurrage or a settlement names, and the amount. */
  ghost function BurnedFrom(s: State, tx: Tx): Key
    requires Valid(s, tx) && Burns(tx)
  {
    if tx.SettleRedemption? then (s.custody.requests[tx.requestId].asset, s.custody.requests[tx.requestId].account)
    else (tx.asset, tx.account)
  }

  function BurnedAmount(tx: Tx): int
    requires Burns(tx)
  {
    if tx.SettleRedemption? then tx.burnAmount else tx.amount
  }

  /** Exactly `n` leaves the account, exactly `n` is booked as burned, nothing else moves. */
  ghost predicate LosesExactly(l: Ledger, m: Ledger, k: Key, n: int) {
    && k in l.accounts && l.accounts[k].balance >= n && k.0 in l.supply
    && m.accounts == l.accounts[k := l.accounts[k].(balance := l.accounts[k].balance - n)]
    && var u := l.supply[k.0];
    && m.supply == l.supply[k.0 := Supply(u.totalMinted, u.totalBurned + n, u.totalSupply - n)]
    && m.assets == l.assets[k.0 := u.totalSupply - n]
  }

  lemma BurnedExactly(l: Ledger, k: Key, n: int, sink: int)
    requires Keyed(l, k.0) && Balanced(l, k.0, sink) && Funded(l, k, n) && n > 0
    ensures LosesExactly(l, Burned(l, k, n), k, n)
  {
    hide Total;
    FundedMeansRegistered(l, k, n, sink);
    WithinSupply(l, k, k, sink);
  }

  lemma BurnIs(s: State, tx: Tx)
    requires Valid(s, tx) && Burns(tx)
    ensures var k, n := BurnedFrom(s, tx), BurnedAmount(tx);
      n > 0 && Funded(s.ledger, k, n) && NextLedger(s, tx) == Burned(s.ledger, k, n)
  {
    hide Available, Burned;
  }

  /** With mints of the asset that fit, an accepted burn, demurrage or settlement lowers
      exactly the named account by exactly its amount and raises the total burned by it. */
  lemma {:induction false} BurnExact(txs: seq<Tx>, tx: Tx)
    requires Valid(Run(txs), tx) && Burns(tx) && MintsFit(txs, BurnedFrom(Run(txs), tx).0)
    ensures LosesExactly(Run(txs).ledger, NextLedger(Run(txs), tx), BurnedFrom(Run(txs), tx), BurnedAmount(tx))
  {
    hide Valid, NextLedger, Burned, LosesExactly, Keyed, Balanced, Run, MintsFit;
    var k := BurnedFrom(Run(txs), tx);
    RunBalanced(txs, k.0);
    BurnIs(Run(txs), tx);
    BurnedExactly(Run(txs).ledger, k, BurnedAmount(tx), Sink(txs, k.0));
  }

  ghost function BalanceOf(l: Ledger, k: Key): int {
    if k in l.accounts then l.accounts[k].balance else 0
  }

  /** The account, created with nothing if need be, gains exactly `n`. */
  ghost predicate GainsExactly(l: Ledger, m: Ledger, k: Key, n: int) {
    && k in m.accounts && m.accounts[k].balance == BalanceOf(l, k) + n
    && (k in l.accounts ==> m.accounts[k] == l.accounts[k].(balance := l.accounts[k].balance + n))
    && (k !in l.accounts ==> m.accounts[k] == Account(k.0, k.1, n, false, false))
    && m.accounts == l.accounts[k := m.accounts[k]]
    && var u := SupplyOf(l, k.0);
    && m.supply == l.supply[k.0 := Supply(u.totalMinted + n, u.totalBurned, u.totalSupply + n)]
    && m.assets == l.assets[k.0 := u.totalSupply + n]
  }

  lemma MintedExactly(l: Ledger, k: Key, n: int, sink: int)
    requires Keyed(l, k.0) && Balanced(l, k.0, sink) && n > 0 && SupplyOf(l, k.0).totalMinted + n <= MAX64
    ensures GainsExactly(l, Minted(l, k, n), k, n)
  {
    hide Total;
    if k in l.accounts {
      WithinSupply(l, k, k, sink);
    }
  }

  /** With mints of the asset that fit, an accepted mint credits the account it names and no
      other, with exactly its amount. */
  lemma {:induction false} MintExact(txs: seq<Tx>, tx: Tx)
    requires tx.Mint? && Valid(Run(txs), tx) && MintsFit(txs + [tx], tx.asset)
    ensures GainsExactly(Run(txs).ledger, NextLedger(Run(txs), tx), (tx.asset, tx.account), tx.amount)
  {
    assert (txs + [tx])[..|txs|] == txs;
    hide Minted, Keyed, Balanced, Run, SupplyOf, GainsExactly;
    RunBalanced(txs, tx.asset);
    MintedExactly(Run(txs).ledger, (tx.asset, tx.account), tx.amount, Sink(txs, tx.asset));
  }

  // ----- a balance over a whole run -----

  function If(b: bool, n: int): int {
    if b then n else 0
  }

  /** What an accepted transaction adds to one account. */
  ghost function Delta(s: State, tx: Tx, k: Key): int
    requires Valid(s, tx)
  {
    match tx
    case Mint(a, c, n) => If((a, c) == k, n)
    case MakeTransfer(a, sender, recipient, n, _, _) => If((a, recipient) == k, n) - If((a, sender) == k, n)
    case ExecuteContract(_, a, party, counterparty, n, _, _, _) =>
      if MovesValue(tx) then If(counterparty != [] && (a, counterparty) == k, n) - If((a, party) == k, n) else 0
    case AdverseAction(c, a, action) =>
      If(action == RedeemForced && c == k.1 && (a == [] || a == k.0), -BalanceOf(s.ledger, k))
    case _ => if Burns(tx) && BurnedFrom(s, tx) == k then -BurnedAmount(tx) else 0
  }

  /** The first balance of an account is nothing, and every accepted transaction adds its
      part. */
  ghost function Flow(txs: seq<Tx>, k: Key): int {
    if txs == [] then 0
    else
      var before, tx := txs[..|txs| - 1], txs[|txs| - 1];
      Flow(before, k) + (if Valid(Run(before), tx) then Delta(Run(before), tx, k) else 0)
  }

  /** Accounts come into being by a mint or a registration. */
  predicate Opens(tx: Tx, k: Key) {
    (tx.Mint? && (tx.asset, tx.account) == k) || (tx.RegisterAccount? && (SENTINEL, tx.commitment) == k)
  }

  ghost predicate Adds(l: Ledger, m: Ledger, k: Key, n: int) {
    BalanceOf(m, k) == BalanceOf(l, k) + n
  }

  lemma SameAssetAdds(l: Ledger, m: Ledger, k: Key)
    requires SameAsset(l, m, k.0)
    ensures Adds(l, m, k, 0)
  {
  }

  lemma MintDelta(l: Ledger, j: Key, n: int, k: Key, sink: int)
    requires Keyed(l, k.0) && Balanced(l, k.0, sink) && n > 0
    requires j.0 == k.0 ==> SupplyOf(l, k.0).totalMinted + n <= MAX64
    ensures Adds(l, Minted(l, j, n), k, If(j == k, n))
  {
    hide Minted, Keyed, Balanced, SupplyOf, SameAsset;
    if j.0 == k.0 {
      MintedExactly(l, j, n, sink);
    } else {
      MintedElsewhere(l, j, n, k.0);
      SameAssetAdds(l, Minted(l, j, n), k);
    }
  }

  lemma BurnDelta(l: Ledger, j: Key, n: int, k: Key, sink: int)
    requires Keyed(l, k.0) && Balanced(l, k.0, sink) && n > 0 && Funded(l, j, n)
    ensures Adds(l, Burned(l, j, n), k, If(j == k, -n))
  {
    hide Burned, Keyed, Balanced, SameAsset;
    if j.0 == k.0 {
      BurnedExactly(l, j, n, sink);
    } else {
      BurnedElsewhere(l, j, n, k.0);
      SameAssetAdds(l, Burned(l, j, n), k);
    }
  }

  lemma SinkDelta(l: Ledger, j: Key, n: int, k: Key, sink: int)
    requires Keyed(l, k.0) && Balanced(l, k.0, sink) && n > 0 && Funded(l, j, n)
    ensures Adds(l, Moved(l, j, -n), k, -If(j == k, n))
  {
    if j == k {
      hide Keyed, Balanced, Moved;
      DebitedExactly(l, j, n, sink);
    }
  }

  lemma PayDelta(l: Ledger, i: Key, j: Key, n: int, k: Key, sink: int)
    requires Keyed(l, k.0) && Balanced(l, k.0, sink) && n > 0 && Funded(l, i, n) && j in l.accounts && j.0 == i.0
    ensures Adds(l, Moved(Moved(l, i, -n), j, n), k, If(j == k, n) - If(i == k, n))
  {
    MovedKeys(l, i, -n);
    if k == i || k == j {
      hide Keyed, Balanced, Moved, Total;
      PaidExactly(l, i, j, n, sink);
    }
  }

  lemma ActedDelta(l: Ledger, c: Str, asset: Str, action: Action, k: Key, sink: int)
    requires Keyed(l, k.0) && Balanced(l, k.0, sink)
    ensures var m := l.(accounts := ActedOn(l.accounts, c, asset, action));
      Adds(l, m, k, If(action == RedeemForced && c == k.1 && (asset == [] || asset == k.0), -BalanceOf(l, k)))
  {
  }

  lemma RegisteredDelta(l: Ledger, c: Str, k: Key)
    requires (SENTINEL, c) !in l.accounts
    ensures Adds(l, l.(accounts := l.accounts[(SENTINEL, c) := Account(SENTINEL, c, 0, false, false)]), k, 0)
  {
  }

  lemma {:induction false} StepDelta(s: State, tx: Tx, k: Key, sink: int)
    requires Valid(s, tx) && Keyed(s.ledger, k.0) && Balanced(s.ledger, k.0, sink)
    requires tx.Mint? && tx.asset == k.0 ==> SupplyOf(s.ledger, k.0).totalMinted + tx.amount <= MAX64
    ensures Adds(s.ledger, NextLedger(s, tx), k, Delta(s, tx, k))
  {
    hide Keyed, Balanced, Available, Moved, Minted, Burned, ActedOn, SupplyOf, BalanceOf;
    var l := s.ledger;
    if Burns(tx) {
      BurnIs(s, tx);
      BurnDelta(l, BurnedFrom(s, tx), BurnedAmount(tx), k, sink);
      return;
    }
    match tx
    case Mint(a, c, n) => MintDelta(l, (a, c), n, k, sink);
    case MakeTransfer(a, sender, recipient, n, _, _) => PayDelta(l, (a, sender), (a, recipient), n, k, sink);
    case ExecuteContract(_, a, party, counterparty, n, _, _, _) =>
      if MovesValue(tx) && counterparty == [] {
        SinkDelta(l, (a, party), n, k, sink);
      } else if MovesValue(tx) {
        PayDelta(l, (a, party), (a, counterparty), n, k, sink);
      }
    case AdverseAction(c, a, action) => ActedDelta(l, c, a, action, k, sink);
    case RegisterAccount(c) => RegisteredDelta(l, c, k);
    case RegisterAsset(_) => assert NextLedger(s, tx).accounts == l.accounts; SameAccounts(l, NextLedger(s, tx), k);
    case _ =>
  }

  lemma SameAccounts(l: Ledger, m: Ledger, k: Key)
    requires m.accounts == l.accounts
    ensures Adds(l, m, k, 0)
  {
  }

  /** The balance of every account after every run in which the mints of its asset fit is
      the sum of what the accepted transactions added to it, in plain arithmetic. */
  lemma {:induction false} BalancesExact(txs: seq<Tx>, k: Key)
    requires MintsFit(txs, k.0)
    ensures BalanceOf(Run(txs).ledger, k) == Flow(txs, k)
    decreases |txs|
  {
    hide Keyed, Balanced, NextLedger, NextLists, NextCustody, Valid, SupplyOf, Delta;
    if txs != [] {
      var before, tx := txs[..|txs| - 1], txs[|txs| - 1];
      BalancesExact(before, k);
      RunBalanced(before, k.0);
      if Valid(Run(before), tx) {
        StepDelta(Run(before), tx, k, Sink(before, k.0));
      }
    }
  }

  // ----- the supply figures over a whole run -----

  /** Burns and demurrages of an asset. */
  ghost function DirectBurns(txs: seq<Tx>, a: Str): int {
    if txs == [] then 0
    else
      var before, tx := txs[..|txs| - 1], txs[|txs| - 1];
      var direct := Valid(Run(before), tx) && (tx.Burn? || tx.ApplyDemurrage?);
      DirectBurns(before, a) + (if direct && tx.asset == a then tx.amount else 0)
  }

  ghost function Mints(txs: seq<Tx>, a: Str): int {
    if txs == [] then 0
    else
      var before, tx := txs[..|txs| - 1], txs[|txs| - 1];
      Mints(before, a) + (if Valid(Run(before), tx) && tx.Mint? && tx.asset == a then tx.amount else 0)
  }

  /** What the settlement records of an asset say was burned. */
  ghost function SettledBurns(c: Custody, a: Str): map<Str, int> {
    map id | id in c.settlements && c.settlements[id].requestId in c.requests
           && c.requests[c.settlements[id].requestId].asset == a :: c.settlements[id].burnAmount
  }

  ghost predicate Books(l: Ledger, m: Ledger, a: Str, minted: int, burned: int) {
    && SupplyOf(m, a).totalMinted == SupplyOf(l, a).totalMinted + minted
    && SupplyOf(m, a).totalBurned == SupplyOf(l, a).totalBurned + burned
  }

  lemma SameAssetBooks(l: Ledger, m: Ledger, a: Str)
    requires SameAsset(l, m, a)
    ensures Books(l, m, a, 0, 0)
  {
  }

  lemma BurnBooks(l: Ledger, j: Key, n: int, a: Str, sink: int)
    requires Keyed(l, a) && Balanced(l, a, sink) && n > 0 && Funded(l, j, n)
    ensures Books(l, Burned(l, j, n), a, 0, If(j.0 == a, n))
  {
    hide Burned, Keyed, Balanced, SameAsset;
    if j.0 == a {
      BurnedExactly(l, j, n, sink);
    } else {
      BurnedElsewhere(l, j, n, a);
      SameAssetBooks(l, Burned(l, j, n), a);
    }
  }

  lemma MintBooks(l: Ledger, j: Key, n: int, a: Str, sink: int)
    requires Keyed(l, a) && Balanced(l, a, sink) && n > 0 && (j.0 == a ==> SupplyOf(l, a).totalMinted + n <= MAX64)
    ensures Books(l, Minted(l, j, n), a, If(j.0 == a, n), 0)
  {
    hide Minted, Keyed, Balanced, SameAsset;
    if j.0 == a {
      MintedExactly(l, j, n, sink);
    } else {
      MintedElsewhere(l, j, n, a);
      SameAssetBooks(l, Minted(l, j, n), a);
    }
  }

  lemma SupplyKept(s: State, tx: Tx, a: Str)
    requires Valid(s, tx) && !Burns(tx) && !tx.Mint? && (a in s.ledger.supply ==> a in s.ledger.assets)
    ensures Books(s.ledger, NextLedger(s, tx), a, 0, 0)
  {
    hide Available, ActedOn;
  }

  lemma {:induction false} StepBooks(s: State, tx: Tx, a: Str, sink: int)
    requires Valid(s, tx) && Keyed(s.ledger, a) && Balanced(s.ledger, a, sink)
    requires tx.Mint? && tx.asset == a ==> SupplyOf(s.ledger, a).totalMinted + tx.amount <= MAX64
    ensures Books(s.ledger, NextLedger(s, tx), a,
                  if tx.Mint? && tx.asset == a then tx.amount else 0,
                  if Burns(tx) && BurnedFrom(s, tx).0 == a then BurnedAmount(tx) else 0)
  {
    hide Balanced, Available, Minted, Burned, Books, SupplyOf;
    if Burns(tx) {
      BurnIs(s, tx);
      BurnBooks(s.ledger, BurnedFrom(s, tx), BurnedAmount(tx), a, sink);
    } else if tx.Mint? {
      MintBooks(s.ledger, (tx.asset, tx.account), tx.amount, a, sink);
    } else {
      SupplyKept(s, tx, a);
    }
  }

  lemma SoundRequests(c: Custody)
    requires AllSound(c)
    ensures forall id | id in c.settlements :: c.settlements[id].requestId in c.requests
  {
    forall id | id in c.settlements ensures c.settlements[id].requestId in c.requests {
      SoundNames(c, c.settlements[id]);
    }
  }

  /** A settlement adds its record; nothing else changes what the records say. */
  lemma {:induction false} RecordsStep(s: State, tx: Tx, a: Str)
    requires Valid(s, tx) && AllSound(s.custody)
    ensures Sum(SettledBurns(NextCustody(s, tx), a)) == Sum(SettledBurns(s.custody, a))
        + (if tx.SettleRedemption? && BurnedFrom(s, tx).0 == a then tx.burnAmount else 0)
  {
    hide Available, AllSound, Sum, DrawAll, Inventory, Allocate;
    var c, d := s.custody, NextCustody(s, tx);
    SoundRequests(c);
    if tx.SettleRedemption? {
      SettledMore(c, d, tx.settlementId, tx.requestId, tx.burnAmount, a);
    } else {
      assert SettledBurns(d, a) == SettledBurns(c, a);
    }
  }

  lemma SettledMore(c: Custody, d: Custody, id: Str, request: Str, burn: int, a: Str)
    requires id !in c.settlements && request in c.requests && id in d.settlements
    requires d.settlements == c.settlements[id := d.settlements[id]]
    requires d.settlements[id].requestId == request && d.settlements[id].burnAmount == burn
    requires d.requests == c.requests[request := c.requests[request].(status := Settled)]
    requires forall x | x in c.settlements :: c.settlements[x].requestId in c.requests
    ensures Sum(SettledBurns(d, a)) == Sum(SettledBurns(c, a)) + If(c.requests[request].asset == a, burn)
  {
    hide Sum;
    SumUpdate(SettledBurns(c, a), id, burn);
    assert SettledBurns(d, a)
        == if c.requests[request].asset == a then SettledBurns(c, a)[id := burn] else SettledBurns(c, a);
  }

  /** The supply record of every asset over every run in which its mints fit: minted is what
      the accepted mints say; burned is what the accepted burns and demurrages say and what
      the settlement records of the asset say. */
  lemma {:induction false} SupplyExact(txs: seq<Tx>, a: Str)
    requires MintsFit(txs, a)
    ensures var u := SupplyOf(Run(txs).ledger, a);
      && u.totalMinted == Mints(txs, a)
      && u.totalBurned == DirectBurns(txs, a) + Sum(SettledBurns(Run(txs).custody, a))
    decreases |txs|
  {
    hide Keyed, Balanced, NextLedger, NextLists, NextCustody, Valid, SupplyOf, Sum, SettledBurns, AllSound,
      BurnedFrom, RequestsTally, LotsBalance;
    if txs == [] {
      NothingBooked(a);
    } else {
      var before, tx := txs[..|txs| - 1], txs[|txs| - 1];
      SupplyExact(before, a);
      RunBalanced(before, a);
      InventoryConserved(before);
      if Valid(Run(before), tx) {
        StepBooks(Run(before), tx, a, Sink(before, a));
        RecordsStep(Run(before), tx, a);
        if tx.Burn? || tx.ApplyDemurrage? {
          NamedAsset(Run(before), tx);
        }
      }
    }
  }

  lemma NothingBooked(a: Str)
    ensures SupplyOf(EMPTY.ledger, a) == Supply(0, 0, 0) && Sum(SettledBurns(EMPTY.custody, a)) == 0
  {
    assert SettledBurns(EMPTY.custody, a) == map[];
  }

  lemma NamedAsset(s: State, tx: Tx)
    requires Valid(s, tx) && (tx.Burn? || tx.ApplyDemurrage?)
    ensures BurnedFrom(s, tx).0 == tx.asset
  {
  }
}
