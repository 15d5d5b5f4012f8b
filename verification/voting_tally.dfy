/** The roots and the confirmation figure of a tally, against the lists of every later
    state: which of them a rescission leaves behind. */
module VotingTally {
  import opened Ordering
  import opened Merkle
  import opened TwoList
  import opened VotingSpec
  import opened VotingLaws
  import opened VotingRuns
  import opened Histories
  import opened VotingOrigins

  /** The confirmed identities of a poll that were rescinded since its tally last counted
      the confirmations: at close, and whenever somebody confirms. */
  ghost function MoreStale(s: State, tx: Tx, n: nat): nat
    requires Valid(s, tx)
  {
    match tx
    case AuthorityRescind(p, _, identity) => n + One((p, identity) in s.confirms)
    case ConfirmReceipt(_, _, _) => 0
    case ClosePoll(_, _, _) => 0
    case _ => n
  }

  ghost function Stale(cfg: Config, txs: seq<Tx>, p: Str): nat {
    if txs == [] then 0
    else
      var s, tx, n := Run(cfg, txs[..|txs| - 1]), txs[|txs| - 1], Stale(cfg, txs[..|txs| - 1], p);
      if tx.poll == p && Valid(s, tx) then MoreStale(s, tx, n) else n
  }

  ghost predicate CommitsTo(cfg: Config, t: Tally, s: State, p: Str) {
    t.voteRoot == SetRoot(cfg.h, Ids(Counted(s, p))) && t.voterRoot == SetRoot(cfg.h, Ids(L2(s, p)))
  }

  ghost predicate Figures(cfg: Config, s: State, p: Str, stale: nat) {
    p in s.tallies ==>
      && s.tallies[p].confirmedCount == |ConfirmsOf(s, p)| + stale
      && s.tallies[p].rescissionCount >= 0
      && (s.tallies[p].rescissionCount == 0 ==> CommitsTo(cfg, s.tallies[p], s, p))
  }

  lemma SamePollSameFigures(cfg: Config, s: State, t: State, p: Str, n: nat)
    requires SamePoll(s, t, p) && Figures(cfg, s, p, n)
    ensures Figures(cfg, t, p, n)
  {
    SamePollSameLists(s, t, p);
    hide SetRoot, Ids, L2, Counted, ConfirmsOf;
  }

  lemma ConfirmFigures(cfg: Config, s: State, p: Str, identity: Str, n: nat)
    requires p in s.polls && Figures(cfg, s, p, n)
    ensures Figures(cfg, Confirmed(s, p, identity), p, 0)
  {
    hide SetRoot, Ids;
    var t := Confirmed(s, p, identity);
    assert L2(t, p) == L2(s, p) && Counted(t, p) == Counted(s, p);
    assert ConfirmsOf(t, p) == set k | k in s.confirms + {(p, identity)} && k.0 == p;
  }

  lemma RescindFigures(cfg: Config, s: State, p: Str, ballot: Str, identity: Str, n: nat)
    requires p in s.polls && (p, ballot) in s.votes && (p, identity) in s.voters && Figures(cfg, s, p, n)
    ensures Figures(cfg, Rescinded(s, p, ballot, identity), p, n + One((p, identity) in s.confirms))
  {
    hide SetRoot, Ids;
    RescindLists(s, p, ballot, identity);
  }

  lemma CloseFigures(cfg: Config, s: State, p: Str, degraded: bool)
    requires p in s.polls && p !in s.tallies
    ensures Figures(cfg, ClosedBy(cfg, s, p, degraded), p, 0)
  {
    hide SetRoot, Ids, Recount;
    var t := ClosedBy(cfg, s, p, degraded);
    assert L2(t, p) == L2(s, p) && Counted(t, p) == Counted(s, p) && ConfirmsOf(t, p) == ConfirmsOf(s, p);
  }

  lemma {:induction false} NoTallyBefore(cfg: Config, s: State, tx: Tx)
    requires Valid(s, tx) && tx.poll !in s.tallies && !tx.ClosePoll?
    ensures tx.poll !in Apply(cfg, s, tx).tallies
  {
    hide WriteVotes, WriteVoters, RolledAfter, Sort;
  }

  lemma {:induction false} OwnFigures(cfg: Config, s: State, tx: Tx, n: nat)
    requires Good(s) && Valid(s, tx) && Figures(cfg, s, tx.poll, n)
    ensures Figures(cfg, Apply(cfg, s, tx), tx.poll, MoreStale(s, tx, n))
  {
    hide Figures, AfterFlush, Withdrawn, Replaced, Resealed, Confirmed, Rescinded, ClosedBy, Created, Opened;
    match tx
    case ConfirmReceipt(p, identity, _) => ConfirmFigures(cfg, s, p, identity, n);
    case AuthorityRescind(p, ballot, identity) => RescindFigures(cfg, s, p, ballot, identity, n);
    case ClosePoll(p, _, degraded) => CloseFigures(cfg, s, p, degraded);
    case AuthorityRestore(p, _, identity) => SamePollSameFigures(cfg, s, Restored(s, p, identity), p, n);
    case _ =>
      assert tx.poll !in s.tallies;
      NoTallyBefore(cfg, s, tx);
      NoFigures(cfg, Apply(cfg, s, tx), tx.poll, n);
  }

  lemma NoFigures(cfg: Config, s: State, p: Str, n: nat)
    requires p !in s.tallies
    ensures Figures(cfg, s, p, n)
  {
  }

  lemma {:induction false} RunFigures(cfg: Config, txs: seq<Tx>, p: Str)
    ensures Figures(cfg, Run(cfg, txs), p, Stale(cfg, txs, p))
  {
    if txs != [] {
      var before, tx := txs[..|txs| - 1], txs[|txs| - 1];
      var s := Run(cfg, before);
      RunFigures(cfg, before, p);
      RunLaws(cfg, before, p);
      hide Figures, Good, Laws, Apply, Valid, MoreStale;
      if Valid(s, tx) {
        if tx.poll == p {
          OwnFigures(cfg, s, tx, Stale(cfg, before, p));
        } else {
          OtherPoll(cfg, s, tx, p);
          SamePollSameFigures(cfg, s, Apply(cfg, s, tx), p, Stale(cfg, before, p));
        }
      }
    }
  }

  /** For every closed poll after every sequence of transactions: the confirmed count of
      the tally is ahead of the live confirmations by exactly the confirmed identities that
      were rescinded since it was last counted, and as long as nothing was rescinded the
      two roots are the roots of the lists as they are. */
  lemma {:induction false} FiguresExact(cfg: Config, txs: seq<Tx>, p: Str)
    requires p in Run(cfg, txs).tallies
    ensures var s, t := Run(cfg, txs), Run(cfg, txs).tallies[p];
      && t.confirmedCount == |ConfirmsOf(s, p)| + Stale(cfg, txs, p)
      && (t.rescissionCount == 0 ==> CommitsTo(cfg, t, s, p))
  {
    hide *;
    RunFigures(cfg, txs, p);
    FiguresSay(cfg, Run(cfg, txs), p, Stale(cfg, txs, p));
  }

  lemma FiguresSay(cfg: Config, s: State, p: Str, n: nat)
    requires p in s.tallies && Figures(cfg, s, p, n)
    ensures s.tallies[p].confirmedCount == |ConfirmsOf(s, p)| + n
    ensures s.tallies[p].rescissionCount == 0 ==> CommitsTo(cfg, s.tallies[p], s, p)
  {
    hide CommitsTo, ConfirmsOf;
  }

  lemma {:induction false} RootsKept(cfg: Config, s: State, tx: Tx, p: Str)
    requires Good(s) && p in s.tallies
    ensures var t := Step(cfg, s, tx);
      && p in t.tallies
      && t.tallies[p].voteRoot == s.tallies[p].voteRoot && t.tallies[p].voterRoot == s.tallies[p].voterRoot
  {
    if Valid(s, tx) && tx.poll != p {
      OtherPoll(cfg, s, tx, p);
    }
    hide SetRoot, WriteVotes, WriteVoters, RolledAfter;
  }

  /** No later transaction changes the roots: after a rescission they still commit to the
      lists of the close. */
  lemma {:induction false} RootsFrozen(cfg: Config, before: seq<Tx>, after: seq<Tx>, p: Str)
    requires p in Run(cfg, before).tallies && Run(cfg, before).tallies[p].rescissionCount == 0
    ensures p in Run(cfg, before + after).tallies
    ensures CommitsTo(cfg, Run(cfg, before + after).tallies[p], Run(cfg, before), p)
    decreases |after|
  {
    hide CommitsTo, Step, Good, Laws;
    if after == [] {
      assert before + after == before;
      FiguresExact(cfg, before, p);
    } else {
      var init, tx := after[..|after| - 1], after[|after| - 1];
      assert (before + after)[..|before + after| - 1] == before + init;
      RootsFrozen(cfg, before, init, p);
      RunLaws(cfg, before + init, p);
      RootsKept(cfg, Run(cfg, before + init), tx, p);
      SameRoots(cfg, Run(cfg, before + init).tallies[p], Run(cfg, before + after).tallies[p], Run(cfg, before), p);
    }
  }

  lemma SameRoots(cfg: Config, t: Tally, u: Tally, s: State, p: Str)
    requires CommitsTo(cfg, t, s, p) && u.voteRoot == t.voteRoot && u.voterRoot == t.voterRoot
    ensures CommitsTo(cfg, u, s, p)
  {
  }

  // ----- the degraded flag -----

  ghost function DegradedMark(s: State, tx: Tx, k: Key): Mark<bool> {
    if Valid(s, tx) && tx.poll == k.0 && tx.ClosePoll? && ListsMatch(s, k.0) then Sets(tx.degraded) else Keeps
  }

  ghost predicate FlagAsTold(s: State, p: Str, degraded: Mark<bool>) {
    p in s.tallies ==>
      && degraded.Sets?
      && s.tallies[p].attestationDegraded == (degraded.value || s.tallies[p].rescissionCount > 0)
  }

  lemma {:induction false} FlagStep(cfg: Config, s: State, tx: Tx, n: nat, degraded: Mark<bool>)
    requires Good(s) && Valid(s, tx) && Figures(cfg, s, tx.poll, n) && FlagAsTold(s, tx.poll, degraded)
    ensures FlagAsTold(Apply(cfg, s, tx), tx.poll, After(degraded, DegradedMark(s, tx, (tx.poll, []))))
  {
    hide WriteVotes, WriteVoters, RolledAfter, Sort, Recount, Counted, L2, ConfirmsOf, SetRoot, ListsMatch;
  }

  /** A tally is marked as degraded exactly if its close was or a ballot was rescinded. */
  lemma {:induction false} DegradedExact(cfg: Config, txs: seq<Tx>, p: Str)
    ensures FlagAsTold(Run(cfg, txs), p, Told(Runs(cfg), txs, (p, []), DegradedMark))
    decreases |txs|
  {
    hide Figures, Good, Laws, Apply, Valid, Told;
    var k: Key := (p, []);
    if txs == [] {
      ToldNothing(Runs(cfg), k, DegradedMark);
    } else {
      var before, tx := txs[..|txs| - 1], txs[|txs| - 1];
      var s := Run(cfg, before);
      DegradedExact(cfg, before, p);
      ToldMore(Runs(cfg), txs, k, DegradedMark);
      if Valid(s, tx) {
        if tx.poll == p {
          RunFigures(cfg, before, p);
          RunLaws(cfg, before, p);
          FlagStep(cfg, s, tx, Stale(cfg, before, p), Told(Runs(cfg), before, k, DegradedMark));
        } else {
          OtherPoll(cfg, s, tx, p);
        }
      }
    }
  }
}
