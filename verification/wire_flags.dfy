/** Disabled and frozen accounts: which adverse actions a transfer meets, over every run. */
module WireFlags {
  import opened Ordering
  import opened Histories
  import opened WireSpec
  import opened WireFlows
  import WireStore
  import WireState

  // ----- what one transaction says about one account -----

  /** An accepted action on an account that exists when it comes. */
  ghost predicate Hits(s: State, tx: Tx, k: Key) {
    && Valid(s, tx) && tx.AdverseAction? && k in s.ledger.accounts
    && tx.commitment == k.1 && (tx.asset == [] || tx.asset == k.0)
  }

  ghost function OpenMark(s: State, tx: Tx, k: Key): Mark<()> {
    if Valid(s, tx) && Opens(tx, k) then Sets(()) else Keeps
  }

  /** Whatever disables, and the restore that ends it. */
  ghost function ShutMark(s: State, tx: Tx, k: Key): Mark<()> {
    if !Hits(s, tx, k) then Keeps
    else
      match tx.action
      case Disable => Sets(())
      case Rescind => Sets(())
      case RedeemForced => Sets(())
      case Restore => Clears
      case Freeze => Keeps
  }

  /** A freeze of an account that is not disabled, and what ends it. */
  ghost function HoldMark(s: State, tx: Tx, k: Key): Mark<()> {
    if !Hits(s, tx, k) then Keeps
    else
      match tx.action
      case Freeze => if s.ledger.accounts[k].disabled then Keeps else Sets(())
      case Disable => Clears
      case Rescind => Clears
      case Restore => Clears
      case RedeemForced => Keeps
  }

  ghost predicate FlagsAsTold(l: Ledger, k: Key, open: Mark<()>, shut: Mark<()>, held: Mark<()>) {
    && (k in l.accounts <==> open.Sets?)
    && (k in l.accounts ==> l.accounts[k].disabled == shut.Sets? && l.accounts[k].frozen == held.Sets?)
    && (k !in l.accounts ==> !shut.Sets? && !held.Sets?)
  }

  // ----- one step -----

  /** An account keeps its flags, and a new one has none. */
  ghost predicate KeepsFlags(l: Ledger, m: Ledger, k: Key, opens: bool) {
    && (k in m.accounts <==> k in l.accounts || opens)
    && (k in l.accounts ==>
          m.accounts[k].disabled == l.accounts[k].disabled && m.accounts[k].frozen == l.accounts[k].frozen)
    && (k in m.accounts && k !in l.accounts ==> !m.accounts[k].disabled && !m.accounts[k].frozen)
  }

  lemma MovedFlags(l: Ledger, j: Key, delta: int, k: Key)
    requires j in l.accounts
    ensures KeepsFlags(l, Moved(l, j, delta), k, false)
  {
  }

  lemma BurnedFlags(l: Ledger, j: Key, n: int, k: Key)
    requires j in l.accounts
    ensures KeepsFlags(l, Burned(l, j, n), k, false)
  {
  }

  lemma MintedFlags(l: Ledger, j: Key, n: int, k: Key)
    ensures KeepsFlags(l, Minted(l, j, n), k, j == k)
  {
  }

  lemma PaidFlags(l: Ledger, i: Key, j: Key, n: int, k: Key)
    requires i in l.accounts && j in l.accounts
    ensures KeepsFlags(l, Moved(Moved(l, i, -n), j, n), k, false)
  {
  }

  /** Only adverse actions change flags. */
  lemma {:induction false} StepKeepsFlags(s: State, tx: Tx, k: Key)
    requires Valid(s, tx) && !tx.AdverseAction?
    ensures KeepsFlags(s.ledger, NextLedger(s, tx), k, Opens(tx, k))
  {
    hide Available, Moved, Minted, Burned;
    var l := s.ledger;
    if Burns(tx) {
      BurnIs(s, tx);
      BurnedFlags(l, BurnedFrom(s, tx), BurnedAmount(tx), k);
      return;
    }
    match tx
    case Mint(a, c, n) => MintedFlags(l, (a, c), n, k);
    case MakeTransfer(a, sender, recipient, n, _, _) => PaidFlags(l, (a, sender), (a, recipient), n, k);
    case ExecuteContract(_, a, party, counterparty, n, _, _, _) =>
      if MovesValue(tx) && counterparty == [] {
        MovedFlags(l, (a, party), -n, k);
      } else if MovesValue(tx) {
        PaidFlags(l, (a, party), (a, counterparty), n, k);
      }
    case _ =>
  }

  /** An action sets the flags of exactly the accounts it targets. */
  lemma {:induction false} ActionFlags(s: State, tx: Tx, k: Key, open: Mark<()>, shut: Mark<()>, held: Mark<()>)
    requires Valid(s, tx) && tx.AdverseAction? && WireStore.FiledLedger(s.ledger)
    requires FlagsAsTold(s.ledger, k, open, shut, held)
    ensures FlagsAsTold(NextLedger(s, tx), k, open, After(shut, ShutMark(s, tx, k)), After(held, HoldMark(s, tx, k)))
  {
  }

  lemma {:induction false} FlagsStep(s: State, tx: Tx, k: Key, open: Mark<()>, shut: Mark<()>, held: Mark<()>)
    requires Valid(s, tx) && WireStore.FiledLedger(s.ledger) && FlagsAsTold(s.ledger, k, open, shut, held)
    ensures FlagsAsTold(NextLedger(s, tx), k, After(open, OpenMark(s, tx, k)), After(shut, ShutMark(s, tx, k)),
                        After(held, HoldMark(s, tx, k)))
  {
    hide Valid, NextLedger, WireStore.FiledLedger;
    if tx.AdverseAction? {
      ActionFlags(s, tx, k, open, shut, held);
    } else {
      StepKeepsFlags(s, tx, k);
    }
  }

  // ----- every run -----

  /** In every run: an account is there exactly if a mint or a registration opened it; it is
      disabled exactly if the last accepted action that disables or restores it disabled it,
      and frozen exactly if it was frozen while not disabled and neither disabled nor
      restored since. */
  lemma {:induction false} FlagsExact(txs: seq<Tx>, k: Key)
    ensures FlagsAsTold(Run(txs).ledger, k, Told(Run, txs, k, OpenMark), Told(Run, txs, k, ShutMark),
                        Told(Run, txs, k, HoldMark))
    decreases |txs|
  {
    hide OpenMark, ShutMark, HoldMark, Valid, NextLedger, NextLists, NextCustody, Told, FlagsAsTold,
      WireStore.FiledLedger;
    if txs == [] {
      ToldNothing(Run, k, OpenMark);
      ToldNothing(Run, k, ShutMark);
      ToldNothing(Run, k, HoldMark);
      NoFlags(k);
    } else {
      var before, tx := txs[..|txs| - 1], txs[|txs| - 1];
      FlagsExact(before, k);
      ToldMore(Run, txs, k, OpenMark);
      ToldMore(Run, txs, k, ShutMark);
      ToldMore(Run, txs, k, HoldMark);
      if Valid(Run(before), tx) {
        WireStore.RunFiled(before);
        FlagsStep(Run(before), tx, k, Told(Run, before, k, OpenMark), Told(Run, before, k, ShutMark),
                  Told(Run, before, k, HoldMark));
      } else {
        Silent(Run(before), tx, k);
      }
    }
  }

  lemma NoFlags(k: Key)
    ensures FlagsAsTold(EMPTY.ledger, k, Clears, Clears, Clears)
  {
  }

  lemma Silent(s: State, tx: Tx, k: Key)
    requires !Valid(s, tx)
    ensures OpenMark(s, tx, k).Keeps? && ShutMark(s, tx, k).Keeps? && HoldMark(s, tx, k).Keeps?
  {
    hide Valid;
  }

  // ----- what a transfer meets -----

  ghost predicate Open(txs: seq<Tx>, k: Key) {
    Told(Run, txs, k, OpenMark).Sets?
  }

  ghost predicate Shut(txs: seq<Tx>, k: Key) {
    Told(Run, txs, k, ShutMark).Sets?
  }

  ghost predicate Held(txs: seq<Tx>, k: Key) {
    Told(Run, txs, k, HoldMark).Sets?
  }

  /** In any run a transfer is accepted exactly if, besides asset, amount, funds and a fresh
      nullifier, both accounts have been opened, the sender is neither disabled nor frozen,
      and the recipient is not disabled: a freeze stops sending only. */
  lemma {:induction false} TransferAcceptedIff(txs: seq<Tx>, a: Str, sender: Str, recipient: Str, n: int,
                                               nullifier: Str, id: Str)
    ensures Valid(Run(txs), MakeTransfer(a, sender, recipient, n, nullifier, id)) <==>
      && a in Run(txs).ledger.assets && n > 0 && nullifier !in Run(txs).lists.participants
      && Open(txs, (a, sender)) && BalanceOf(Run(txs).ledger, (a, sender)) >= n
      && !Shut(txs, (a, sender)) && !Held(txs, (a, sender))
      && Open(txs, (a, recipient)) && !Shut(txs, (a, recipient))
  {
    FlagsExact(txs, (a, sender));
    FlagsExact(txs, (a, recipient));
    hide Run, OpenMark, ShutMark, HoldMark, Told;
  }

  /** An adverse action needs the account to be registered, under the sentinel, and nothing
      else: whatever it is asked to do, and for whatever asset. */
  lemma {:induction false} ActionAcceptedIff(txs: seq<Tx>, c: Str, asset: Str, action: Action)
    ensures Valid(Run(txs), AdverseAction(c, asset, action)) <==> Open(txs, (SENTINEL, c))
    ensures Valid(Run(txs), RegisterAccount(c)) <==> !Open(txs, (SENTINEL, c))
  {
    FlagsExact(txs, (SENTINEL, c));
    hide Run, OpenMark, ShutMark, HoldMark, Told;
  }

  predicate Restores(tx: Tx, k: Key) {
    tx.AdverseAction? && tx.action == Restore && tx.commitment == k.1 && (tx.asset == [] || tx.asset == k.0)
  }

  ghost predicate Blocked(txs: seq<Tx>, k: Key) {
    Shut(txs, k) || Held(txs, k)
  }

  /** Once an accepted freeze, disabling, rescission or forced redemption has hit an account,
      nothing but a restore of that account unblocks it, whatever else follows. */
  lemma {:induction false} StaysBlocked(before: seq<Tx>, action: Tx, after: seq<Tx>, k: Key)
    requires Hits(Run(before), action, k) && action.action != Restore
    requires forall i | 0 <= i < |after| && Restores(after[i], k) ::
        !Valid(Run(before + [action] + after[..i]), after[i])
    ensures Blocked(before + [action] + after, k)
    ensures action.action != Freeze ==> Shut(before + [action] + after, k)
    decreases |after|
  {
    hide Run, Told;
    var all := before + [action] + after;
    if after == [] {
      assert all[..|all| - 1] == before && all[|all| - 1] == action;
      MoreFlags(all, k);
      FlagsExact(before, k);
    } else {
      var n := |after| - 1;
      assert all[..|all| - 1] == before + [action] + after[..n] && all[|all| - 1] == after[n];
      forall i | 0 <= i < n && Restores(after[..n][i], k)
        ensures !Valid(Run(before + [action] + after[..n][..i]), after[..n][i])
      {
        assert after[..n][..i] == after[..i];
      }
      StaysBlocked(before, action, after[..n], k);
      MoreFlags(all, k);
    }
  }

  lemma MoreFlags(txs: seq<Tx>, k: Key)
    requires txs != []
    ensures var before, tx := txs[..|txs| - 1], txs[|txs| - 1];
      && (Shut(txs, k) <==> After(Told(Run, before, k, ShutMark), ShutMark(Run(before), tx, k)).Sets?)
      && (Held(txs, k) <==> After(Told(Run, before, k, HoldMark), HoldMark(Run(before), tx, k)).Sets?)
  {
    hide Run, Told, ShutMark, HoldMark;
    ToldMore(Run, txs, k, ShutMark);
    ToldMore(Run, txs, k, HoldMark);
  }

  /** Right after a restore neither flag is left. */
  lemma {:induction false} RestoreUnblocks(txs: seq<Tx>, tx: Tx, k: Key)
    requires Valid(Run(txs), tx) && Restores(tx, k) && k in Run(txs).ledger.accounts
    ensures !Shut(txs + [tx], k) && !Held(txs + [tx], k)
  {
    hide Run, Told, Valid;
    assert (txs + [tx])[..|txs|] == txs;
    MoreFlags(txs + [tx], k);
  }

  /** Two states that differ in flags only. */
  ghost predicate SameButFlags(s: State, t: State) {
    && t.lists == s.lists && t.custody == s.custody
    && t.ledger.assets == s.ledger.assets && t.ledger.supply == s.ledger.supply
    && t.ledger.accounts.Keys == s.ledger.accounts.Keys
    && forall k | k in s.ledger.accounts :: t.ledger.accounts[k].balance == s.ledger.accounts[k].balance
  }

  /** Nothing but a transfer asks for the flags: burns, redemptions, demurrages and contract
      executions of a disabled or frozen account are accepted as if it were neither. */
  lemma {:induction false} FlagsStopTransfersOnly(s: State, t: State, tx: Tx)
    requires SameButFlags(s, t) && !tx.MakeTransfer?
    ensures Valid(s, tx) <==> Valid(t, tx)
  {
    hide Available;
  }
}
