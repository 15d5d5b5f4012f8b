/** What the laws of the voting machine say to somebody who audits, closes or batches. */
module VotingTheorems {
  import opened Ordering
  import opened Merkle
  import opened TwoList
  import opened VotingSpec
  import opened VotingLaws
  import opened VotingRuns

  // ----- drift and counters -----

  /** Exact drift of the two lists, for every poll after every sequence of transactions. */
  lemma {:induction false} DriftExact(cfg: Config, txs: seq<Tx>, p: Str)
    ensures var s, a := Run(cfg, txs), HistoryOf(cfg, txs, p);
      && |L1(s, p)| - |L2(s, p)| == a.recasts - a.overwrites
      && |L1(s, p)| == |Counted(s, p)| + |SealedVotes(s, p)|
  {
    RunLaws(cfg, txs, p);
    CountedAndSealed(Run(cfg, txs), p);
  }

  /** The documented sealed-partition balance |L2| = counted L1 + SealedCount holds exactly
      when recasts and erased seals make up for the overwrites; in particular in every run
      without those three events. */
  lemma {:induction false} SealedBalance(cfg: Config, txs: seq<Tx>, p: Str)
    requires p in Run(cfg, txs).polls
    ensures var s, a := Run(cfg, txs), HistoryOf(cfg, txs, p);
      && (|L2(s, p)| == |Counted(s, p)| + s.polls[p].sealedCount <==> a.recasts + a.erasedSeals == a.overwrites)
      && s.polls[p].sealedCount == |SealedVotes(s, p)| + a.erasedSeals
  {
    RunLaws(cfg, txs, p);
    CountedAndSealed(Run(cfg, txs), p);
  }

  /** The guards `SealedCount > 0` and `ReattestationCount > 0` in a rescission never
      suppress a decrement. */
  lemma {:induction false} RescindGuardsNeverFire(cfg: Config, txs: seq<Tx>, p: Str, ballot: Str, identity: Str)
    requires var s := Run(cfg, txs); p in s.polls && (p, ballot) in s.votes
    ensures var s := Run(cfg, txs);
      && (IsSealed(s, (p, ballot)) ==> s.polls[p].sealedCount > 0)
      && ((p, identity) in s.confirms ==> s.polls[p].reattestationCount > 0)
      && RescindedPoll(s.polls[p], (p, identity) in s.confirms, s.votes[(p, ballot)])
         == s.polls[p].(sealedCount := s.polls[p].sealedCount - One(IsSealed(s, (p, ballot))),
                        reattestationCount := s.polls[p].reattestationCount - One((p, identity) in s.confirms))
  {
    hide Run, HistoryOf, Good, Laws;
    RunLaws(cfg, txs, p);
    CountersOf(cfg, Run(cfg, txs), p, HistoryOf(cfg, txs, p));
    GuardsHold(Run(cfg, txs), p, ballot, identity, HistoryOf(cfg, txs, p));
  }

  lemma CountersOf(cfg: Config, s: State, p: Str, a: History)
    requires Laws(cfg, s, p, a) && p in s.polls
    ensures CounterLaws(s, p, a)
  {
  }

  lemma GuardsHold(s: State, p: Str, ballot: Str, identity: Str, a: History)
    requires p in s.polls && CounterLaws(s, p, a)
    ensures IsSealed(s, (p, ballot)) ==> s.polls[p].sealedCount > 0
    ensures (p, identity) in s.confirms ==> s.polls[p].reattestationCount > 0
  {
    if IsSealed(s, (p, ballot)) {
      assert (p, ballot) in SealedVotes(s, p);
    }
    if (p, identity) in s.confirms {
      assert (p, identity) in ConfirmsOf(s, p);
    }
  }

  /** The audit counters against a recount: the cast counter is ahead of List 2 by exactly
      the withdrawals, the rescissions and the recasts; the confirmation counter is ahead
      of the live confirmations by exactly the withdrawn ones; only registered identities
      are confirmed. */
  lemma {:induction false} AuditExact(cfg: Config, txs: seq<Tx>, p: Str)
    requires p in Run(cfg, txs).polls
    ensures var s, a := Run(cfg, txs), HistoryOf(cfg, txs, p);
      && s.polls[p].idvCastCount == |L2(s, p)| + a.withdrawals + a.rescissions + a.recasts
      && (s.polls[p].idvCastCount == |L2(s, p)| <==> a.withdrawals == 0 && a.rescissions == 0 && a.recasts == 0)
      && s.polls[p].reattestationCount == |ConfirmsOf(s, p)| + a.withdrawnConfirms
      && ConfirmsOf(s, p) <= L2(s, p)
  {
    RunLaws(cfg, txs, p);
    var s := Run(cfg, txs);
    assert ConfirmsOf(s, p) <= L2(s, p);
    assert L2(s, p) * ConfirmsOf(s, p) == ConfirmsOf(s, p);
  }

  /** Rolling cadence with threshold T: T times the checkpoints and the refused checks,
      plus the pending counter, is the number of ballots written; checkpoints are numbered
      0, 1, 2, ...; and after a flush that was not refused less than T are pending. */
  lemma {:induction false} CadenceExact(cfg: Config, txs: seq<Tx>, p: Str)
    requires cfg.rolling && cfg.threshold > 0
    ensures var s, a := Run(cfg, txs), HistoryOf(cfg, txs, p);
      var cps, pending := GetOr(s.checkpoints, p, []), GetOr(s.submissionCounts, p, 0);
      && cfg.threshold * (|cps| + a.failedChecks) + pending == a.materialised
      && (forall i | 0 <= i < |cps| :: cps[i].sequenceNumber == i)
      && (a.lastCheckFailed || pending < cfg.threshold)
  {
    hide Run, HistoryOf, Good, CounterLaws, DriftLaw, TallyPart;
    RunLaws(cfg, txs, p);
    BatchesProduct(cfg.threshold, |GetOr(Run(cfg, txs).checkpoints, p, [])| + HistoryOf(cfg, txs, p).failedChecks);
  }

  /** Checkpoints from a position on commit to two lists of the same length. */
  ghost predicate CommitTo(cfg: Config, cps: seq<Checkpoint>, from: nat, l1: set<Key>, l2: set<Key>) {
    && (|cps| > from ==> |l1| == |l2|)
    && forall i | from <= i < |cps| ::
         cps[i] == Checkpoint(i, |l1|, SetRoot(cfg.h, Ids(l1)), SetRoot(cfg.h, Ids(l2)))
  }

  /** A flush adds checkpoints only over matching lists, and each of them commits to the
      lists as the flush left them. */
  lemma {:induction false} CheckpointsCommitLists(cfg: Config, s: State, p: Str, casts: seq<Cast>)
    requires p in s.polls && cfg.rolling && cfg.threshold > 0
    ensures var t := AfterFlush(cfg, s, p, casts);
      var was, cps := GetOr(s.checkpoints, p, []), GetOr(t.checkpoints, p, []);
      was <= cps && CommitTo(cfg, cps, |was|, Counted(t, p), L2(t, p))
  {
    hide FlushedLists, AfterFlush, Roll, CommitTo, SetRoot, Counted, L2, ListsMatch, Ids;
    var u, t := FlushedLists(s, p, casts), AfterFlush(cfg, s, p, casts);
    FlushRolls(cfg, s, p, casts);
    RollCommits(cfg, u, p, GetOr(u.submissionCounts, p, 0) + |casts|);
    assert CommitTo(cfg, GetOr(t.checkpoints, p, []), |GetOr(s.checkpoints, p, [])|, Counted(u, p), L2(u, p));
  }

  lemma {:induction false} RollCommits(cfg: Config, s: State, p: Str, counter: nat)
    requires cfg.threshold > 0
    ensures var was := GetOr(s.checkpoints, p, []);
      var cps := Roll(cfg.threshold, counter, was, ListsMatch(s, p), |Counted(s, p)|,
                      SetRoot(cfg.h, Ids(Counted(s, p))), SetRoot(cfg.h, Ids(L2(s, p)))).checkpoints;
      was <= cps && CommitTo(cfg, cps, |was|, Counted(s, p), L2(s, p))
  {
    hide SetRoot, Roll, GetOr, Ids, CommitTo;
    RollCommitsTo(cfg, counter, GetOr(s.checkpoints, p, []), ListsMatch(s, p), Counted(s, p), L2(s, p));
  }

  lemma {:induction false} RollCommitsTo(cfg: Config, counter: nat, was: seq<Checkpoint>, matching: bool,
                                         l1: set<Key>, l2: set<Key>)
    requires cfg.threshold > 0 && (matching ==> |l1| == |l2|)
    ensures var cps := Roll(cfg.threshold, counter, was, matching, |l1|,
                            SetRoot(cfg.h, Ids(l1)), SetRoot(cfg.h, Ids(l2))).checkpoints;
      was <= cps && CommitTo(cfg, cps, |was|, l1, l2)
  {
    hide SetRoot, Roll, Ids;
    RollAppends(cfg.threshold, counter, was, matching, |l1|, SetRoot(cfg.h, Ids(l1)), SetRoot(cfg.h, Ids(l2)));
  }

  lemma {:induction false} FlushRolls(cfg: Config, s: State, p: Str, casts: seq<Cast>)
    requires p in s.polls && cfg.rolling && cfg.threshold > 0
    ensures var t, u := AfterFlush(cfg, s, p, casts), FlushedLists(s, p, casts);
      && Counted(t, p) == Counted(u, p) && L2(t, p) == L2(u, p) && u.checkpoints == s.checkpoints
      && GetOr(t.checkpoints, p, [])
         == Roll(cfg.threshold, GetOr(u.submissionCounts, p, 0) + |casts|, GetOr(u.checkpoints, p, []),
                 ListsMatch(u, p),
                 |Counted(u, p)|, SetRoot(cfg.h, Ids(Counted(u, p))), SetRoot(cfg.h, Ids(L2(u, p)))).checkpoints
  {
    var u := FlushedLists(s, p, casts);
    assert u.checkpoints == s.checkpoints;
    assert AfterFlush(cfg, s, p, casts) == WithRolled(u, p, RolledAfter(cfg, u, p, |casts|));
    RolledKeepsLists(u, p, RolledAfter(cfg, u, p, |casts|));
    hide SetRoot, Roll, FlushedLists, AfterFlush, WithRolled, Counted, L2, ListsMatch;
  }

  lemma RolledKeepsLists(s: State, p: Str, r: Rolled)
    ensures var t := WithRolled(s, p, r);
      Counted(t, p) == Counted(s, p) && L2(t, p) == L2(s, p) && GetOr(t.checkpoints, p, []) == r.checkpoints
  {
  }

  // ----- closing -----

  /** A close that is accepted succeeds exactly when the recasts equal the overwrites plus
      the ballots that are sealed right now. */
  lemma {:induction false} CloseSucceedsIff(cfg: Config, txs: seq<Tx>, close: Tx)
    requires close.ClosePoll? && Valid(Run(cfg, txs), close)
    ensures var s, a, p := Run(cfg, txs), HistoryOf(cfg, txs, close.poll), close.poll;
      p in Run(cfg, txs + [close]).tallies <==> a.recasts == a.overwrites + |SealedVotes(s, p)|
  {
    var s := Run(cfg, txs);
    assert (txs + [close])[..|txs|] == txs;
    DriftExact(cfg, txs, close.poll);
    hide SetRoot;
    assert Run(cfg, txs + [close]) == ClosedBy(cfg, s, close.poll, close.degraded);
  }

  /** With fresh ballot ids and no second cast under a standing grant: it closes exactly
      when nothing is sealed. */
  lemma {:induction false} CleanCloseIff(cfg: Config, txs: seq<Tx>, close: Tx)
    requires close.ClosePoll? && Valid(Run(cfg, txs), close)
    requires var a := HistoryOf(cfg, txs, close.poll); a.recasts == 0 && a.overwrites == 0
    ensures close.poll in Run(cfg, txs + [close]).tallies <==> SealedVotes(Run(cfg, txs), close.poll) == {}
  {
    CloseSucceedsIff(cfg, txs, close);
  }

  /** A closed poll: the total is |L2| and the total plus the rescissions is the total at
      close, in every run; and the stored counts equal a recount for every option exactly
      when no sealed ballot was rescinded after close. */
  lemma {:induction false} TallyExact(cfg: Config, txs: seq<Tx>, p: Str)
    requires p in Run(cfg, txs).tallies
    ensures var s, a := Run(cfg, txs), HistoryOf(cfg, txs, p);
      p in s.polls && var t := s.tallies[p];
      && t.totalVotes == |L2(s, p)|
      && t.totalVotes + t.rescissionCount == a.closingTotal
      && |Counted(s, p)| == t.totalVotes + a.sealedRescinds
      && ((forall o | o in s.polls[p].options :: GetOr(t.counts, o, 0) == Recount(s, p, o)) <==> a.sealedRescinds == 0)
  {
    RunLaws(cfg, txs, p);
    var s, a := Run(cfg, txs), HistoryOf(cfg, txs, p);
    assert TallyLaws(s, p, a);
    forall o | o in s.polls[p].options
      ensures GetOr(s.tallies[p].counts, o, 0) == Recount(s, p, o) <==> GetOr(a.loss, o, 0) == 0
    {
    }
  }

  /** What an accepted step can do to a closed poll: its lists only shrink, its ballots
      keep their contents, its tally stays, its closing total is fixed. */
  ghost predicate OnlyShrinks(s: State, t: State, p: Str) {
    && p in t.tallies && p in t.polls && t.polls[p].status == Closed
    && (forall k: Key | k.0 == p && k in t.votes :: k in s.votes && t.votes[k] == s.votes[k])
    && (forall k: Key | k.0 == p && k in t.voters :: k in s.voters)
  }

  lemma ShrunkSeals(s: State, t: State, p: Str)
    requires OnlyShrinks(s, t, p)
    ensures SealedVotes(t, p) <= SealedVotes(s, p)
  {
  }

  lemma RescindShrinks(s: State, p: Str, ballot: Str, identity: Str)
    requires p in s.polls && p in s.tallies && s.polls[p].status == Closed && (p, ballot) in s.votes
    ensures OnlyShrinks(s, Rescinded(s, p, ballot, identity), p)
  {
  }

  lemma {:induction false} ClosedStep(cfg: Config, s: State, tx: Tx, p: Str, a: History)
    requires Good(s) && p in s.tallies
    ensures OnlyShrinks(s, Step(cfg, s, tx), p)
    ensures tx.poll == p && Valid(s, tx) ==> Note(cfg, s, tx, a).closingTotal == a.closingTotal
    ensures tx.poll == p && Valid(s, tx) && SealedVotes(s, p) == {}
        ==> Note(cfg, s, tx, a).sealedRescinds == a.sealedRescinds
  {
    assert p in s.polls && s.polls[p].status == Closed;
    if Valid(s, tx) {
      if tx.poll != p {
        OtherPoll(cfg, s, tx, p);
      } else if tx.AuthorityRescind? {
        RescindShrinks(s, p, tx.ballot, tx.identity);
        assert IsSealed(s, (p, tx.ballot)) ==> (p, tx.ballot) in SealedVotes(s, p);
      }
    }
  }

  lemma ShrinksOn(s: State, u: State, t: State, p: Str)
    requires OnlyShrinks(s, u, p) && OnlyShrinks(u, t, p)
    ensures OnlyShrinks(s, t, p)
  {
  }

  lemma {:induction false} ClosedShrinks(cfg: Config, txs: seq<Tx>, p: Str)
    requires p in Run(cfg, txs).tallies
    ensures OnlyShrinks(Run(cfg, txs), Run(cfg, txs), p)
  {
    RunLaws(cfg, txs, p);
    hide SetRoot, Run;
  }

  lemma {:induction false} ClosedOneMore(cfg: Config, txs: seq<Tx>, tx: Tx, p: Str)
    requires p in Run(cfg, txs).tallies
    ensures OnlyShrinks(Run(cfg, txs), Run(cfg, txs + [tx]), p)
    ensures var a, b := HistoryOf(cfg, txs, p), HistoryOf(cfg, txs + [tx], p);
      b.closingTotal == a.closingTotal && (SealedVotes(Run(cfg, txs), p) == {} ==> b.sealedRescinds == a.sealedRescinds)
  {
    hide Apply, Note, Laws, Good, Valid, OnlyShrinks, SealedVotes;
    assert (txs + [tx])[..|txs|] == txs;
    RunLaws(cfg, txs, p);
    ClosedStep(cfg, Run(cfg, txs), tx, p, HistoryOf(cfg, txs, p));
  }

  lemma {:induction false} StaysClosed(cfg: Config, before: seq<Tx>, after: seq<Tx>, p: Str)
    requires p in Run(cfg, before).tallies
    ensures OnlyShrinks(Run(cfg, before), Run(cfg, before + after), p)
    ensures var a, b := HistoryOf(cfg, before, p), HistoryOf(cfg, before + after, p);
      && b.closingTotal == a.closingTotal
      && (SealedVotes(Run(cfg, before), p) == {} ==> b.sealedRescinds == a.sealedRescinds)
    decreases |after|
  {
    if after == [] {
      assert before + after == before;
      ClosedShrinks(cfg, before, p);
    } else {
      var n := |after| - 1;
      var init, tx := after[..n], after[n];
      assert before + after == before + init + [tx];
      StaysClosed(cfg, before, init, p);
      assert p in Run(cfg, before + init).tallies;
      hide OnlyShrinks, SealedVotes, Run, HistoryOf;
      ShrunkSeals(Run(cfg, before), Run(cfg, before + init), p);
      ClosedOneMore(cfg, before + init, tx, p);
      ShrinksOn(Run(cfg, before), Run(cfg, before + init), Run(cfg, before + after), p);
    }
  }

  /** From close on, through any further transactions: the poll stays closed, the total at
      close stays accounted for, and no ballot enters either list. */
  lemma {:induction false} ClosedForever(cfg: Config, before: seq<Tx>, after: seq<Tx>, p: Str)
    requires p in Run(cfg, before).tallies
    ensures var s, t := Run(cfg, before), Run(cfg, before + after);
      && OnlyShrinks(s, t, p)
      && t.tallies[p].totalVotes + t.tallies[p].rescissionCount
        == s.tallies[p].totalVotes + s.tallies[p].rescissionCount
    ensures var a, b := HistoryOf(cfg, before, p), HistoryOf(cfg, before + after, p);
      && b.closingTotal == a.closingTotal
      && (SealedVotes(Run(cfg, before), p) == {} ==> b.sealedRescinds == a.sealedRescinds)
  {
    hide Run, HistoryOf, SealedVotes;
    StaysClosed(cfg, before, after, p);
    TallyExact(cfg, before, p);
    TallyExact(cfg, before + after, p);
  }

  /** The final tally of a poll that closed with nothing sealed, after any further
      transactions: the total is |L1| and |L2|, every count is a recount, and total plus
      rescissions is the total at close. */
  lemma {:induction false} FinalTally(cfg: Config, before: seq<Tx>, after: seq<Tx>, p: Str)
    requires p in Run(cfg, before).tallies && SealedVotes(Run(cfg, before), p) == {}
    requires HistoryOf(cfg, before, p).sealedRescinds == 0
    ensures var s, t := Run(cfg, before), Run(cfg, before + after);
      && p in t.tallies && p in t.polls
      && t.tallies[p].totalVotes == |L1(t, p)| == |L2(t, p)|
      && (forall o | o in t.polls[p].options :: GetOr(t.tallies[p].counts, o, 0) == Recount(t, p, o))
      && t.tallies[p].totalVotes + t.tallies[p].rescissionCount
         == s.tallies[p].totalVotes + s.tallies[p].rescissionCount
  {
    ClosedForever(cfg, before, after, p);
    TallyExact(cfg, before + after, p);
    DriftExact(cfg, before + after, p);
    ShrunkSeals(Run(cfg, before), Run(cfg, before + after), p);
  }

  /** The same from the transactions alone. Take any run in which no ballot id was
      overwritten and nobody cast twice under a standing grant, a close that goes through,
      and any further transactions: total, |L1|, |L2| and every count agree from then on. */
  lemma {:induction false} CleanFinalTally(cfg: Config, before: seq<Tx>, close: Tx, after: seq<Tx>)
    requires close.ClosePoll? && Valid(Run(cfg, before), close)
    requires var a := HistoryOf(cfg, before, close.poll); a.recasts == 0 && a.overwrites == 0
    requires close.poll in Run(cfg, before + [close]).tallies
    ensures var p, s, t := close.poll, Run(cfg, before + [close]), Run(cfg, before + [close] + after);
      && p in t.tallies && p in t.polls
      && t.tallies[p].totalVotes == |L1(t, p)| == |L2(t, p)|
      && (forall o | o in t.polls[p].options :: GetOr(t.tallies[p].counts, o, 0) == Recount(t, p, o))
      && t.tallies[p].totalVotes + t.tallies[p].rescissionCount == s.tallies[p].totalVotes
  {
    var p, s := close.poll, Run(cfg, before);
    CleanCloseIff(cfg, before, close);
    RunLaws(cfg, before, p);
    assert (before + [close])[..|before|] == before;
    ClosedNow(cfg, s, close, HistoryOf(cfg, before, p));
    FinalTally(cfg, before + [close], after, p);
  }

  lemma ClosedNow(cfg: Config, s: State, close: Tx, a: History)
    requires close.ClosePoll? && Valid(s, close) && Good(s) && Laws(cfg, s, close.poll, a)
    requires close.poll in Apply(cfg, s, close).tallies
    ensures var t := Apply(cfg, s, close);
      && SealedVotes(t, close.poll) == SealedVotes(s, close.poll)
      && Note(cfg, s, close, a).sealedRescinds == 0
      && t.tallies[close.poll].rescissionCount == 0
  {
    hide SetRoot;
  }

  // ----- the order of a batch -----

  lemma CastOrder(casts: seq<Cast>)
    requires Distinct(BallotIds(casts))
    ensures TotalPreorder(CastLe) && NoTies(CastLe, casts)
  {
    StrOrder([]);
    forall x, y ensures CastLe(x, y) || CastLe(y, x) { StrLeTotal(x.ballotId, y.ballotId); }
    forall x, y, z | CastLe(x, y) && CastLe(y, z) ensures CastLe(x, z) {
      StrLeTransitive(x.ballotId, y.ballotId, z.ballotId);
    }
    forall x, y | x in casts && y in casts && CastLe(x, y) && CastLe(y, x) ensures x == y {
      StrLeAntisymmetric(x.ballotId, y.ballotId);
      var i :| 0 <= i < |casts| && casts[i] == x;
      var j :| 0 <= j < |casts| && casts[j] == y;
      assert BallotIds(casts)[i] == BallotIds(casts)[j];
    }
  }

  /** A shuffled batch is accepted exactly when the original is, and it leaves the same
      state, the same outcome and the same batch id. */
  lemma {:induction false} BatchOrderIrrelevant(cfg: Config, s: State, p: Str, a: seq<Cast>, b: seq<Cast>, now: int)
    requires multiset(a) == multiset(b)
    ensures Valid(s, BatchFlush(p, a, now)) <==> Valid(s, BatchFlush(p, b, now))
    ensures Valid(s, BatchFlush(p, a, now)) ==>
      && Apply(cfg, s, BatchFlush(p, a, now)) == Apply(cfg, s, BatchFlush(p, b, now))
      && (FlushSucceeds(cfg, s, p, a) <==> FlushSucceeds(cfg, s, p, b))
      && BatchId(cfg, p, a) == BatchId(cfg, p, b)
  {
    hide *;
    if Valid(s, BatchFlush(p, a, now)) {
      ValidPermutes(s, p, a, b, now);
    }
    if Valid(s, BatchFlush(p, b, now)) {
      ValidPermutes(s, p, b, a, now);
    }
    if Valid(s, BatchFlush(p, a, now)) {
      FlushChecked(s, p, a, now);
      SortedAlike(a, b);
      LengthPermutes(a, b);
      SameFlush(cfg, s, p, a, b);
      FlushApplied(cfg, s, p, a, now, NOTHING);
      FlushApplied(cfg, s, p, b, now, NOTHING);
      SameBatchId(cfg, p, a, b);
    }
  }

  lemma ValidPermutes(s: State, p: Str, a: seq<Cast>, b: seq<Cast>, now: int)
    requires multiset(a) == multiset(b) && Valid(s, BatchFlush(p, a, now))
    ensures Valid(s, BatchFlush(p, b, now))
  {
    hide ValidCast, Distinct, BallotIds, Identities;
    SameMembers(p, a, b);
  }

  lemma {:induction false} SortedAlike(a: seq<Cast>, b: seq<Cast>)
    requires multiset(a) == multiset(b) && Distinct(BallotIds(a))
    ensures Sort(CastLe, a) == Sort(CastLe, b)
  {
    hide *;
    CastOrder(a);
    SortForgetsOrder(CastLe, a, b);
  }

  lemma LengthPermutes(a: seq<Cast>, b: seq<Cast>)
    requires multiset(a) == multiset(b)
    ensures |a| == |b|
  {
    assert |multiset(a)| == |a| && |multiset(b)| == |b|;
  }

  lemma SameBatchId(cfg: Config, p: Str, a: seq<Cast>, b: seq<Cast>)
    requires Sort(CastLe, a) == Sort(CastLe, b)
    ensures BatchId(cfg, p, a) == BatchId(cfg, p, b)
  {
    hide Sort, BatchBytes, BallotIds, CastLe;
  }

  lemma {:induction false} SameFlush(cfg: Config, s: State, p: Str, a: seq<Cast>, b: seq<Cast>)
    requires p in s.polls && Sort(CastLe, a) == Sort(CastLe, b) && |a| == |b|
    ensures AfterFlush(cfg, s, p, a) == AfterFlush(cfg, s, p, b)
    ensures FlushSucceeds(cfg, s, p, a) <==> FlushSucceeds(cfg, s, p, b)
  {
    hide Sort, RolledAfter, WithRolled, WriteVotes, WriteVoters;
    assert FlushedLists(s, p, a) == FlushedLists(s, p, b);
  }
}
