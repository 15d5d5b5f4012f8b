/** Conservation of value in the shywire ledger, and why no int64 overflows. */
module WireLedger {
  import opened Ordering
  import opened Sums
  import opened WireSpec

  ghost function Balances(accounts: map<Key, Account>, a: Str): map<Key, int> {
    map k | k in accounts && k.0 == a :: accounts[k].balance
  }

  ghost function Total(l: Ledger, a: Str): int {
    Sum(Balances(l.accounts, a))
  }

  /** What a step takes out of circulation without burning it: a contract execution with no
      counterparty, and the balances a forced redemption zeroes. */
  ghost function Sunk(s: State, tx: Tx, a: Str): int
    requires Valid(s, tx)
  {
    match tx
    case ExecuteContract(_, asset, _, counterparty, amount, _, _, _) =>
      if MovesValue(tx) && counterparty == [] && asset == a then amount else 0
    case AdverseAction(c, asset, action) =>
      if action == RedeemForced && (asset == [] || asset == a) && (a, c) in s.ledger.accounts
      then s.ledger.accounts[(a, c)].balance else 0
    case _ => 0
  }

  ghost function Sink(txs: seq<Tx>, a: Str): int {
    if txs == [] then 0
    else
      var before, tx := txs[..|txs| - 1], txs[|txs| - 1];
      Sink(before, a) + (if Valid(Run(before), tx) then Sunk(Run(before), tx, a) else 0)
  }

  /** The one thing the ledger leaves to its operator: every accepted mint of the asset
      keeps its total minted within an int64. */
  ghost predicate MintsFit(txs: seq<Tx>, a: Str) {
    txs == [] ||
    (var before, tx := txs[..|txs| - 1], txs[|txs| - 1];
     MintsFit(before, a)
     && (tx.Mint? && tx.asset == a && Valid(Run(before), tx) ==>
           SupplyOf(Run(before).ledger, a).totalMinted + tx.amount <= MAX64))
  }

  ghost predicate Keyed(l: Ledger, a: Str) {
    && (forall k | k in l.accounts && k.0 == a ::
          l.accounts[k].asset == a && l.accounts[k].commitment == k.1 && l.accounts[k].balance >= 0)
    && (a in l.assets <==> a in l.supply)
  }

  ghost predicate Balanced(l: Ledger, a: Str, sink: int) {
    var u := SupplyOf(l, a);
    && 0 <= u.totalBurned <= u.totalMinted <= MAX64 && sink >= 0
    && u.totalSupply == u.totalMinted - u.totalBurned == Total(l, a) + sink
    && (a in l.assets ==> l.assets[a] == u.totalSupply)
  }

  // ----- other assets -----

  /** Accounts, supply and asset record of one asset are the same in both ledgers. */
  ghost predicate SameAsset(l: Ledger, m: Ledger, a: Str) {
    && (forall k: Key | k.0 == a :: k in l.accounts <==> k in m.accounts)
    && (forall k: Key | k.0 == a && k in l.accounts :: l.accounts[k] == m.accounts[k])
    && (a in l.supply <==> a in m.supply) && (a in l.supply ==> l.supply[a] == m.supply[a])
    && (a in l.assets <==> a in m.assets) && (a in l.assets ==> l.assets[a] == m.assets[a])
  }

  lemma SameAssetBalanced(l: Ledger, m: Ledger, a: Str, sink: int)
    requires SameAsset(l, m, a) && Keyed(l, a) && Balanced(l, a, sink)
    ensures Keyed(m, a) && Balanced(m, a, sink)
  {
    assert Balances(m.accounts, a) == Balances(l.accounts, a);
    hide Sum;
  }

  lemma SameAssetChains(l: Ledger, m: Ledger, n: Ledger, a: Str)
    requires SameAsset(l, m, a) && SameAsset(m, n, a)
    ensures SameAsset(l, n, a)
  {
  }

  lemma MovedElsewhere(l: Ledger, k: Key, delta: int, a: Str)
    requires k in l.accounts && k.0 != a
    ensures SameAsset(l, Moved(l, k, delta), a)
  {
  }

  lemma WithAccountElsewhere(l: Ledger, k: Key, a: Str)
    requires k.0 != a
    ensures SameAsset(l, WithAccount(l, k), a)
  {
  }

  lemma RestockedElsewhere(l: Ledger, b: Str, minted: int, burned: int, a: Str)
    requires b != a
    ensures SameAsset(l, Restocked(l, b, minted, burned), a)
  {
  }

  lemma BurnedElsewhere(l: Ledger, k: Key, amount: int, a: Str)
    requires k in l.accounts && k.0 != a
    ensures SameAsset(l, Burned(l, k, amount), a)
  {
    hide SameAsset, Moved, Restocked;
    MovedElsewhere(l, k, -amount, a);
    RestockedElsewhere(Moved(l, k, -amount), k.0, 0, amount, a);
    SameAssetChains(l, Moved(l, k, -amount), Burned(l, k, amount), a);
  }

  lemma MintedElsewhere(l: Ledger, k: Key, amount: int, a: Str)
    requires k.0 != a
    ensures SameAsset(l, Minted(l, k, amount), a)
  {
    var w := WithAccount(l, k);
    assert k in w.accounts;
    hide SameAsset, Moved, Restocked, WithAccount;
    WithAccountElsewhere(l, k, a);
    MovedElsewhere(w, k, amount, a);
    RestockedElsewhere(Moved(w, k, amount), k.0, amount, 0, a);
    SameAssetChains(l, w, Moved(w, k, amount), a);
    SameAssetChains(l, Moved(w, k, amount), Minted(l, k, amount), a);
  }

  lemma PaidElsewhere(l: Ledger, j: Key, k: Key, amount: int, a: Str)
    requires j in l.accounts && k in l.accounts && j.0 == k.0 != a
    ensures SameAsset(l, Moved(Moved(l, j, -amount), k, amount), a)
  {
    MovedKeys(l, j, -amount);
    hide SameAsset, Moved;
    MovedElsewhere(l, j, -amount, a);
    MovedElsewhere(Moved(l, j, -amount), k, amount, a);
    SameAssetChains(l, Moved(l, j, -amount), Moved(Moved(l, j, -amount), k, amount), a);
  }

  // ----- balances under one change -----

  lemma MovedBalances(l: Ledger, k: Key, delta: int)
    requires k in l.accounts
    ensures var b := Wrap64(l.accounts[k].balance + delta);
      Total(Moved(l, k, delta), k.0) == Total(l, k.0) + b - l.accounts[k].balance
  {
    var m := Moved(l, k, delta);
    var b := m.accounts[k].balance;
    assert Balances(m.accounts, k.0) == Balances(l.accounts, k.0)[k := b];
    SumUpdate(Balances(l.accounts, k.0), k, b);
    hide Sum;
  }

  lemma NewAccountBalances(l: Ledger, k: Key, acct: Account)
    requires k !in l.accounts && acct.balance == 0
    ensures Total(l.(accounts := l.accounts[k := acct]), k.0) == Total(l, k.0)
  {
    var accounts := l.accounts[k := acct];
    assert Balances(accounts, k.0) == Balances(l.accounts, k.0)[k := 0];
    SumUpdate(Balances(l.accounts, k.0), k, 0);
    hide Sum;
  }

  lemma RestockedBalances(l: Ledger, b: Str, minted: int, burned: int)
    ensures Total(Restocked(l, b, minted, burned), b) == Total(l, b)
  {
  }

  /** What a forced redemption takes from one asset. */
  ghost function Zeroed(l: Ledger, c: Str, asset: Str, action: Action, a: Str): int {
    if action == RedeemForced && (asset == [] || asset == a) && (a, c) in l.accounts then l.accounts[(a, c)].balance
      else 0
  }

  lemma ActedBalances(l: Ledger, c: Str, asset: Str, action: Action, a: Str)
    requires Keyed(l, a)
    ensures var after := l.(accounts := ActedOn(l.accounts, c, asset, action));
      Keyed(after, a) && Total(after, a) == Total(l, a) - Zeroed(l, c, asset, action, a)
  {
    hide Sum;
    var accounts := ActedOn(l.accounts, c, asset, action);
    if action == RedeemForced && (asset == [] || asset == a) && (a, c) in l.accounts {
      assert Balances(accounts, a) == Balances(l.accounts, a)[(a, c) := 0];
      SumUpdate(Balances(l.accounts, a), (a, c), 0);
    } else {
      assert Balances(accounts, a) == Balances(l.accounts, a);
    }
  }

  // ----- bounds -----

  /** No balance, and no two balances together, exceed the supply of the asset. */
  lemma WithinSupply(l: Ledger, j: Key, k: Key, sink: int)
    requires j in l.accounts && k in l.accounts && j.0 == k.0 && Keyed(l, j.0) && Balanced(l, j.0, sink)
    ensures l.accounts[j].balance <= SupplyOf(l, j.0).totalSupply <= MAX64
    ensures j != k ==> l.accounts[j].balance + l.accounts[k].balance <= SupplyOf(l, j.0).totalSupply
  {
    SumBounds(Balances(l.accounts, j.0), j, k);
    hide Sum;
  }

  /** Something to take means a registered asset. */
  lemma FundedMeansRegistered(l: Ledger, k: Key, amount: int, sink: int)
    requires Keyed(l, k.0) && Balanced(l, k.0, sink) && Funded(l, k, amount) && amount > 0
    ensures k.0 in l.supply && k.0 in l.assets
  {
    WithinSupply(l, k, k, sink);
  }

  // ----- each kind of step, for the asset it moves -----

  /** Moving an amount that leaves the account within int64 changes exactly its total. */
  lemma MovedExactly(l: Ledger, k: Key, delta: int)
    requires k in l.accounts && Keyed(l, k.0) && 0 <= l.accounts[k].balance + delta <= MAX64
    ensures var m := Moved(l, k, delta);
      && Keyed(m, k.0) && m.accounts.Keys == l.accounts.Keys && m.supply == l.supply && m.assets == l.assets
      && m.accounts[k].balance == l.accounts[k].balance + delta
      && (forall j | j in l.accounts && j != k :: m.accounts[j] == l.accounts[j])
      && Total(m, k.0) == Total(l, k.0) + delta
  {
    hide Total;
    MovedBalances(l, k, delta);
  }

  lemma DebitedExactly(l: Ledger, k: Key, amount: int, sink: int)
    requires Keyed(l, k.0) && Balanced(l, k.0, sink) && Funded(l, k, amount) && amount > 0
    ensures var m := Moved(l, k, -amount);
      && Keyed(m, k.0) && m.accounts.Keys == l.accounts.Keys && m.supply == l.supply && m.assets == l.assets
      && m.accounts[k].balance == l.accounts[k].balance - amount
      && (forall j | j in l.accounts && j != k :: m.accounts[j] == l.accounts[j])
      && Total(m, k.0) == Total(l, k.0) - amount
  {
    hide Total, Moved, Keyed, Balanced;
    WithinSupply(l, k, k, sink);
    MovedExactly(l, k, -amount);
  }

  lemma BurnedBalanced(l: Ledger, k: Key, amount: int, sink: int)
    requires Keyed(l, k.0) && Balanced(l, k.0, sink) && Funded(l, k, amount) && amount > 0
    ensures Keyed(Burned(l, k, amount), k.0) && Balanced(Burned(l, k, amount), k.0, sink)
  {
    hide Total, Moved;
    WithinSupply(l, k, k, sink);
    FundedMeansRegistered(l, k, amount, sink);
    DebitedExactly(l, k, amount, sink);
    RestockedBalances(Moved(l, k, -amount), k.0, 0, amount);
  }

  lemma WithAccountBalanced(l: Ledger, k: Key, sink: int)
    requires Keyed(l, k.0) && Balanced(l, k.0, sink)
    ensures Keyed(WithAccount(l, k), k.0) && Balanced(WithAccount(l, k), k.0, sink) && k in WithAccount(l, k).accounts
    ensures WithAccount(l, k).supply == l.supply && WithAccount(l, k).assets == l.assets
  {
    hide Total;
    if k !in l.accounts {
      NewAccountBalances(l, k, Account(k.0, k.1, 0, false, false));
    }
  }

  lemma CreditedBalanced(l: Ledger, k: Key, amount: int, sink: int)
    requires Keyed(l, k.0) && Balanced(l, k.0, sink) && k in l.accounts
    requires k.0 in l.assets && amount > 0 && SupplyOf(l, k.0).totalMinted + amount <= MAX64
    ensures var m := Restocked(Moved(l, k, amount), k.0, amount, 0); Keyed(m, k.0) && Balanced(m, k.0, sink)
  {
    hide Total, Moved;
    WithinSupply(l, k, k, sink);
    MovedExactly(l, k, amount);
    RestockedBalances(Moved(l, k, amount), k.0, amount, 0);
  }

  lemma MintedBalanced(l: Ledger, k: Key, amount: int, sink: int)
    requires Keyed(l, k.0) && Balanced(l, k.0, sink)
    requires k.0 in l.assets && amount > 0 && SupplyOf(l, k.0).totalMinted + amount <= MAX64
    ensures Keyed(Minted(l, k, amount), k.0) && Balanced(Minted(l, k, amount), k.0, sink)
  {
    hide Total, Keyed, Balanced, Moved, Restocked;
    WithAccountBalanced(l, k, sink);
    CreditedBalanced(WithAccount(l, k), k, amount, sink);
  }

  lemma KeyedAt(l: Ledger, k: Key)
    requires Keyed(l, k.0) && k in l.accounts
    ensures l.accounts[k].balance >= 0
  {
  }

  /** A debit and the matching credit; also when both name the same account. */
  lemma PaidExactly(l: Ledger, j: Key, k: Key, amount: int, sink: int)
    requires Keyed(l, j.0) && Balanced(l, j.0, sink)
    requires Funded(l, j, amount) && amount > 0 && k in l.accounts && k.0 == j.0
    ensures var m := Moved(Moved(l, j, -amount), k, amount);
      && Keyed(m, j.0) && m.accounts.Keys == l.accounts.Keys && m.supply == l.supply && m.assets == l.assets
      && Total(m, j.0) == Total(l, j.0)
      && m.accounts[k].balance == l.accounts[k].balance + (if j == k then 0 else amount)
      && (j != k ==> m.accounts[j].balance == l.accounts[j].balance - amount)
  {
    hide Total, Moved, Keyed, Balanced;
    DebitedExactly(l, j, amount, sink);
    KeyedAt(l, k);
    WithinSupply(l, j, k, sink);
    MovedExactly(Moved(l, j, -amount), k, amount);
  }

  lemma PaidBalanced(l: Ledger, j: Key, k: Key, amount: int, sink: int)
    requires Keyed(l, j.0) && Balanced(l, j.0, sink)
    requires Funded(l, j, amount) && amount > 0 && k in l.accounts && k.0 == j.0
    ensures var m := Moved(Moved(l, j, -amount), k, amount); Keyed(m, j.0) && Balanced(m, j.0, sink)
  {
    hide Total, Moved, Keyed;
    PaidExactly(l, j, k, amount, sink);
  }

  lemma SunkBalanced(l: Ledger, j: Key, amount: int, sink: int)
    requires Keyed(l, j.0) && Balanced(l, j.0, sink) && Funded(l, j, amount) && amount > 0
    ensures Keyed(Moved(l, j, -amount), j.0) && Balanced(Moved(l, j, -amount), j.0, sink + amount)
  {
    hide Total, Moved, Keyed;
    DebitedExactly(l, j, amount, sink);
  }

  lemma ActedBalanced(l: Ledger, c: Str, asset: Str, action: Action, a: Str, sink: int)
    requires Keyed(l, a) && Balanced(l, a, sink)
    ensures var after := l.(accounts := ActedOn(l.accounts, c, asset, action));
      Keyed(after, a) && Balanced(after, a, sink + Zeroed(l, c, asset, action, a))
  {
    hide Total, ActedOn;
    ActedBalances(l, c, asset, action, a);
  }

  lemma RegisterBalanced(s: State, tx: Tx, a: Str, sink: int)
    requires Valid(s, tx) && (tx.RegisterAsset? || tx.RegisterAccount?) && Keyed(s.ledger, a)
        && Balanced(s.ledger, a, sink)
    ensures Keyed(NextLedger(s, tx), a) && Balanced(NextLedger(s, tx), a, sink)
  {
    hide Sum;
    if tx.RegisterAccount? {
      var k := (SENTINEL, tx.commitment);
      if a == SENTINEL {
        NewAccountBalances(s.ledger, k, Account(SENTINEL, tx.commitment, 0, false, false));
      } else {
        assert SameAsset(s.ledger, NextLedger(s, tx), a);
        SameAssetBalanced(s.ledger, NextLedger(s, tx), a, sink);
      }
    } else {
      assert Balances(NextLedger(s, tx).accounts, a) == Balances(s.ledger.accounts, a);
    }
  }

  // ----- one step -----

  lemma BurnStep(l: Ledger, k: Key, amount: int, a: Str, sink: int)
    requires Keyed(l, a) && Balanced(l, a, sink) && Funded(l, k, amount) && amount > 0
    ensures Keyed(Burned(l, k, amount), a) && Balanced(Burned(l, k, amount), a, sink)
  {
    hide Keyed, Balanced, Burned, SameAsset;
    if k.0 == a {
      BurnedBalanced(l, k, amount, sink);
    } else {
      BurnedElsewhere(l, k, amount, a);
      SameAssetBalanced(l, Burned(l, k, amount), a, sink);
    }
  }

  lemma MintStep(l: Ledger, k: Key, amount: int, a: Str, sink: int)
    requires Keyed(l, a) && Balanced(l, a, sink) && k.0 in l.assets && amount > 0
    requires k.0 == a ==> SupplyOf(l, a).totalMinted + amount <= MAX64
    ensures Keyed(Minted(l, k, amount), a) && Balanced(Minted(l, k, amount), a, sink)
  {
    hide Keyed, Balanced, Minted, SameAsset;
    if k.0 == a {
      MintedBalanced(l, k, amount, sink);
    } else {
      MintedElsewhere(l, k, amount, a);
      SameAssetBalanced(l, Minted(l, k, amount), a, sink);
    }
  }

  lemma PayStep(l: Ledger, j: Key, k: Key, amount: int, a: Str, sink: int)
    requires Keyed(l, a) && Balanced(l, a, sink)
    requires Funded(l, j, amount) && amount > 0 && k in l.accounts && k.0 == j.0
    ensures var m := Moved(Moved(l, j, -amount), k, amount); Keyed(m, a) && Balanced(m, a, sink)
  {
    MovedKeys(l, j, -amount);
    hide Keyed, Balanced, Moved, SameAsset;
    if j.0 == a {
      PaidBalanced(l, j, k, amount, sink);
    } else {
      PaidElsewhere(l, j, k, amount, a);
      SameAssetBalanced(l, Moved(Moved(l, j, -amount), k, amount), a, sink);
    }
  }

  lemma SinkStep(l: Ledger, j: Key, amount: int, a: Str, sink: int)
    requires Keyed(l, a) && Balanced(l, a, sink) && Funded(l, j, amount) && amount > 0
    ensures var m := Moved(l, j, -amount); Keyed(m, a) && Balanced(m, a, sink + (if j.0 == a then amount else 0))
  {
    hide Keyed, Balanced, Moved, SameAsset;
    if j.0 == a {
      SunkBalanced(l, j, amount, sink);
    } else {
      MovedElsewhere(l, j, -amount, a);
      SameAssetBalanced(l, Moved(l, j, -amount), a, sink);
    }
  }

  /** One accepted step: value is conserved for every asset, up to what the step sinks. Only
      a mint of that asset has to fit; other assets may do anything. */
  lemma {:induction false} StepBalanced(s: State, tx: Tx, a: Str, sink: int)
    requires Valid(s, tx) && Keyed(s.ledger, a) && Balanced(s.ledger, a, sink)
    requires tx.Mint? && tx.asset == a ==> SupplyOf(s.ledger, a).totalMinted + tx.amount <= MAX64
    ensures Keyed(NextLedger(s, tx), a) && Balanced(NextLedger(s, tx), a, sink + Sunk(s, tx, a))
  {
    hide Total, Keyed, Balanced, Available, Moved, Minted, Burned, ActedOn, SupplyOf;
    var l := s.ledger;
    match tx
    case RegisterAsset(_) => RegisterBalanced(s, tx, a, sink);
    case RegisterAccount(_) => RegisterBalanced(s, tx, a, sink);
    case Mint(b, c, amount) => MintStep(l, (b, c), amount, a, sink);
    case Burn(b, c, amount) => BurnStep(l, (b, c), amount, a, sink);
    case MakeTransfer(b, sender, recipient, amount, _, _) => PayStep(l, (b, sender), (b, recipient), amount, a, sink);
    case ExecuteContract(_, b, party, counterparty, amount, _, _, _) =>
      if MovesValue(tx) {
        if counterparty == [] {
          SinkStep(l, (b, party), amount, a, sink);
        } else {
          PayStep(l, (b, party), (b, counterparty), amount, a, sink);
        }
      }
    case SettleRedemption(_, requestId, _, burn, _) =>
      var r := s.custody.requests[requestId];
      BurnStep(l, (r.asset, r.account), burn, a, sink);
    case ApplyDemurrage(b, c, amount) => BurnStep(l, (b, c), amount, a, sink);
    case AdverseAction(c, b, action) => ActedBalanced(l, c, b, action, a, sink);
    case _ =>
  }

  lemma EmptyBalanced(a: Str)
    ensures Keyed(EMPTY.ledger, a) && Balanced(EMPTY.ledger, a, 0)
  {
    assert Balances(EMPTY.ledger.accounts, a) == map[];
  }

  /** Value conservation for one asset over every run in which its own mints fit: its
      balances are never negative and, with the sink, equal minted minus burned, which is
      the supply figure of both the supply record and the asset record. */
  lemma {:induction false} RunBalanced(txs: seq<Tx>, a: Str)
    requires MintsFit(txs, a)
    ensures Keyed(Run(txs).ledger, a) && Balanced(Run(txs).ledger, a, Sink(txs, a))
    decreases |txs|
  {
    hide Keyed, Balanced, NextLedger, NextLists, NextCustody, Valid, Sunk, SupplyOf;
    if txs == [] {
      EmptyBalanced(a);
    } else {
      var before, tx := txs[..|txs| - 1], txs[|txs| - 1];
      RunBalanced(before, a);
      if Valid(Run(before), tx) {
        StepBalanced(Run(before), tx, a, Sink(before, a));
      }
    }
  }

  /** One asset is in order after the first i transactions. */
  ghost predicate InOrder(txs: seq<Tx>, i: nat, a: Str)
    requires i <= |txs|
  {
    Keyed(Run(txs[..i]).ledger, a) && Balanced(Run(txs[..i]).ledger, a, Sink(txs[..i], a))
  }

  /** The mints of an asset fit exactly when it is in order all along: the first mint that
      does not fit turns the total minted negative. */
  lemma {:induction false} InOrderIff(txs: seq<Tx>, a: Str)
    ensures MintsFit(txs, a) <==> forall i | 0 <= i <= |txs| :: InOrder(txs, i, a)
    decreases |txs|
  {
    hide InOrder, Run, Valid;
    var n := |txs|;
    if n > 0 {
      InOrderIff(txs[..n - 1], a);
    }
    if MintsFit(txs, a) {
      InOrderNow(txs, a);
      forall i | 0 <= i < n ensures InOrder(txs, i, a) {
        InOrderBefore(txs, i, a);
      }
    }
    if n > 0 && forall i | 0 <= i <= n :: InOrder(txs, i, a) {
      var before := txs[..n - 1];
      forall i | 0 <= i < n ensures InOrder(before, i, a) {
        InOrderBefore(txs, i, a);
      }
      MintFits(txs, a);
    }
  }

  lemma InOrderBefore(txs: seq<Tx>, i: nat, a: Str)
    requires i < |txs|
    ensures InOrder(txs, i, a) <==> InOrder(txs[..|txs| - 1], i, a)
  {
    hide Keyed, Balanced, Run, Sink;
    assert txs[..|txs| - 1][..i] == txs[..i];
  }

  lemma InOrderNow(txs: seq<Tx>, a: Str)
    requires MintsFit(txs, a)
    ensures InOrder(txs, |txs|, a)
  {
    hide Keyed, Balanced, Run, Sink, MintsFit;
    RunBalanced(txs, a);
    assert txs[..|txs|] == txs;
  }

  /** A mint between two states in order has not overflowed. */
  lemma MintFits(txs: seq<Tx>, a: Str)
    requires txs != [] && InOrder(txs, |txs| - 1, a) && InOrder(txs, |txs|, a)
    ensures var before, tx := txs[..|txs| - 1], txs[|txs| - 1];
      tx.Mint? && tx.asset == a && Valid(Run(before), tx) ==>
        SupplyOf(Run(before).ledger, a).totalMinted + tx.amount <= MAX64
  {
    hide Keyed, Total, Sink, NextLists, NextCustody, Minted, SupplyOf;
    var before, tx := txs[..|txs| - 1], txs[|txs| - 1];
    assert txs[..|txs|] == txs;
    if tx.Mint? && tx.asset == a && Valid(Run(before), tx) {
      MintedSupply(Run(before).ledger, (a, tx.account), tx.amount);
    }
  }

  lemma MintedSupply(l: Ledger, k: Key, amount: int)
    requires 0 < amount <= MAX64 && 0 <= SupplyOf(l, k.0).totalMinted <= MAX64
    requires SupplyOf(Minted(l, k, amount), k.0).totalMinted >= 0
    ensures SupplyOf(l, k.0).totalMinted + amount <= MAX64
  {
    hide Moved;
    assert SupplyOf(Moved(WithAccount(l, k), k, amount), k.0) == SupplyOf(l, k.0) by {
      MovedSupply(WithAccount(l, k), k, amount);
    }
  }

  lemma MovedSupply(l: Ledger, k: Key, delta: int)
    requires k in l.accounts
    ensures Moved(l, k, delta).supply == l.supply
  {
  }

  /** Read off the records: what every reachable state of such a run looks like. */
  lemma {:induction false} ValueConserved(txs: seq<Tx>, a: Str)
    requires MintsFit(txs, a) && a in Run(txs).ledger.assets
    ensures var l := Run(txs).ledger;
      && a in l.supply
      && Total(l, a) + Sink(txs, a) == l.supply[a].totalMinted - l.supply[a].totalBurned
      && l.supply[a].totalSupply == l.assets[a] == l.supply[a].totalMinted - l.supply[a].totalBurned
      && 0 <= l.supply[a].totalBurned <= l.supply[a].totalMinted <= MAX64
      && Sink(txs, a) >= 0
      && forall c | (a, c) in l.accounts :: 0 <= l.accounts[(a, c)].balance <= l.supply[a].totalSupply
  {
    RunBalanced(txs, a);
    var l := Run(txs).ledger;
    forall c | (a, c) in l.accounts ensures l.accounts[(a, c)].balance <= l.supply[a].totalSupply {
      WithinSupply(l, (a, c), (a, c), Sink(txs, a));
    }
  }

  ghost predicate Pays(tx: Tx, payer: Str, payee: Str) {
    || (tx.MakeTransfer? && payer == tx.sender && payee == tx.recipient)
    || (tx.ExecuteContract? && MovesValue(tx) && payer == tx.party && payee == tx.counterparty && payee != [])
  }

  lemma PaymentMoves(s: State, tx: Tx, payer: Str, payee: Str)
    requires Valid(s, tx) && Pays(tx, payer, payee)
    ensures var l, j, k := s.ledger, (tx.asset, payer), (tx.asset, payee);
      && tx.amount > 0 && Funded(l, j, tx.amount) && k in l.accounts
      && NextLedger(s, tx) == Moved(Moved(l, j, -tx.amount), k, tx.amount)
  {
    hide Moved, Available;
  }

  lemma PaymentFits(l: Ledger, j: Key, k: Key, amount: int, sink: int)
    requires Keyed(l, j.0) && Balanced(l, j.0, sink)
    requires Funded(l, j, amount) && amount > 0 && k in l.accounts && k.0 == j.0
    ensures PaidInFull(l, Moved(Moved(l, j, -amount), k, amount), j, k, amount)
  {
    var m := Moved(Moved(l, j, -amount), k, amount);
    hide Moved, Total, Keyed, Balanced;
    PaidExactly(l, j, k, amount, sink);
    PaidBalanced(l, j, k, amount, sink);
    WithinSupply(m, k, k, sink);
  }

  lemma PaymentExact(s: State, tx: Tx, payer: Str, payee: Str, sink: int)
    requires Valid(s, tx) && Pays(tx, payer, payee) && Keyed(s.ledger, tx.asset) && Balanced(s.ledger, tx.asset, sink)
    ensures PaidInFull(s.ledger, NextLedger(s, tx), (tx.asset, payer), (tx.asset, payee), tx.amount)
  {
    var l, j, k := s.ledger, (tx.asset, payer), (tx.asset, payee);
    PaymentMoves(s, tx, payer, payee);
    assert j in l.accounts;
    PaymentFits(l, j, k, tx.amount, sink);
    hide *;
  }

  /** The debit and the credit in plain arithmetic, both within the supply. */
  ghost predicate PaidInFull(l: Ledger, m: Ledger, j: Key, k: Key, amount: int) {
    && j in l.accounts && k in l.accounts && m.accounts.Keys == l.accounts.Keys
    && m.accounts[k].balance == l.accounts[k].balance + (if j == k then 0 else amount)
    && (j != k ==> m.accounts[j].balance == l.accounts[j].balance - amount)
    && m.accounts[k].balance <= SupplyOf(l, j.0).totalSupply
  }

  /** With mints of the asset that fit, no credit of an accepted transfer or contract execution can
      overflow: the wrapped arithmetic gives the plain sums. */
  lemma {:induction false} CreditsNeverOverflow(txs: seq<Tx>, tx: Tx, payer: Str, payee: Str)
    requires Pays(tx, payer, payee) && Valid(Run(txs), tx) && MintsFit(txs, tx.asset)
    ensures PaidInFull(Run(txs).ledger, NextLedger(Run(txs), tx), (tx.asset, payer), (tx.asset, payee), tx.amount)
  {
    hide NextLedger, Valid, Keyed, Balanced, PaidInFull, Run, MintsFit;
    RunBalanced(txs, tx.asset);
    PaymentExact(Run(txs), tx, payer, payee, Sink(txs, tx.asset));
  }
}
