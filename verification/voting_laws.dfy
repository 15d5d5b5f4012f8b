/** What every run of the voting machine keeps: the two lists, the sealed counter, the
    audit counters, the rolling cadence and the tally, each against a recount. */
module VotingLaws {
  import opened Ordering
  import opened TwoList
  import opened VotingSpec

  /** What happened to one poll along a run. */
  datatype History = History(
    recasts: nat,            // flushed ballots of an identity that was already registered
    overwrites: nat,         // flush or update writes onto a ballot id that was already there
    erasedSeals: nat,        // sealed ballots removed by an update, a withdrawal or an overwrite
    withdrawals: nat,
    rescissions: nat,
    withdrawnConfirms: nat,  // confirmations removed by a withdrawal
    materialised: nat,       // ballots written by flushes
    failedChecks: nat,       // rolling attestations refused because the lists did not match
    lastCheckFailed: bool,
    closingTotal: int,
    sealedRescinds: nat,     // rescissions of a sealed ballot after close
    loss: map<Str, int>)     // what those rescissions took from each option's count

  const NOTHING := History(0, 0, 0, 0, 0, 0, 0, 0, false, 0, 0, map[])

  ghost function BallotKeys(p: Str, casts: seq<Cast>): set<Key> {
    KeysOf(p, BallotIds(casts))
  }

  ghost function IdentityKeys(p: Str, casts: seq<Cast>): set<Key> {
    KeysOf(p, Identities(casts))
  }

  ghost function IsSealed(s: State, k: Key): bool {
    k in s.votes && s.votes[k].partition == Sealed
  }

  ghost function Note(cfg: Config, s: State, tx: Tx, a: History): History
    requires Valid(s, tx)
  {
    match tx
    case BatchFlush(p, casts, _) =>
      a.(recasts := a.recasts + |IdentityKeys(p, casts) * s.voters|,
         overwrites := a.overwrites + |BallotKeys(p, casts) * s.votes.Keys|,
         erasedSeals := a.erasedSeals + |BallotKeys(p, casts) * SealedVotes(s, p)|,
         materialised := a.materialised + |casts|,
         failedChecks := a.failedChecks + One(!FlushSucceeds(cfg, s, p, casts)),
         lastCheckFailed := !FlushSucceeds(cfg, s, p, casts))
    case UpdateBallot(p, oldBallot, newBallot, identity, newChoices, _) =>
      if newChoices == [] then
        a.(withdrawals := a.withdrawals + 1,
           erasedSeals := a.erasedSeals + One(IsSealed(s, (p, oldBallot))),
           withdrawnConfirms := a.withdrawnConfirms + One((p, identity) in s.confirms))
      else
        a.(overwrites := a.overwrites + One(newBallot != oldBallot && (p, newBallot) in s.votes),
           erasedSeals := a.erasedSeals + One(IsSealed(s, (p, oldBallot)))
                          + One(newBallot != oldBallot && IsSealed(s, (p, newBallot))))
    case AuthorityRescind(p, ballot, _) =>
      var hidden := p in s.tallies && IsSealed(s, (p, ballot));
      a.(rescissions := a.rescissions + 1,
         sealedRescinds := a.sealedRescinds + One(hidden),
         loss := if hidden then MoreLoss(s.polls[p], s.votes[(p, ballot)], a.loss) else a.loss)
    case ClosePoll(p, _, _) =>
      if ListsMatch(s, p) then a.(closingTotal := |L2(s, p)|) else a
    case _ => a
  }

  ghost function MoreLoss(poll: Poll, v: Vote, loss: map<Str, int>): map<Str, int> {
    map o | o in poll.options :: GetOr(loss, o, 0) + One(VotesFor(poll.votingMethod, v, o))
  }

  ghost function HistoryOf(cfg: Config, txs: seq<Tx>, p: Str): History {
    if txs == [] then NOTHING
    else
      var before, tx := txs[..|txs| - 1], txs[|txs| - 1];
      var a := HistoryOf(cfg, before, p);
      if tx.poll == p && Valid(Run(cfg, before), tx) then Note(cfg, Run(cfg, before), tx, a) else a
  }

  // ----- the invariants -----

  ghost predicate GoodVotes(polls: map<Str, Poll>, votes: map<Key, Vote>) {
    forall k | k in votes ::
      k.0 in polls && !votes[k].superseded && ValidChoices(polls[k.0], votes[k].choices)
  }

  ghost predicate GoodVoters(polls: map<Str, Poll>, voters: set<Key>, confirms: set<Key>) {
    (forall k | k in voters :: k.0 in polls) && confirms <= voters
  }

  ghost predicate GoodTallies(polls: map<Str, Poll>, tallies: map<Str, Tally>) {
    && (forall p :: p in tallies <==> p in polls && polls[p].status == Closed)
    && (forall p | p in tallies :: tallies[p].counts.Keys == set o | o in polls[p].options)
  }

  /** Ballots are valid for their poll and never superseded, only registered identities
      are confirmed, and a poll has a tally exactly when it is closed. */
  ghost predicate Good(s: State) {
    && GoodVotes(s.polls, s.votes)
    && GoodVoters(s.polls, s.voters, s.confirms)
    && GoodTallies(s.polls, s.tallies)
  }

  /** Drift: List 1 and List 2 differ by exactly the recasts minus the overwrites. */
  ghost predicate DriftLaw(s: State, p: Str, a: History) {
    |L1(s, p)| + a.overwrites == |L2(s, p)| + a.recasts
  }

  ghost predicate CounterLaws(s: State, p: Str, a: History)
    requires p in s.polls
  {
    && s.polls[p].sealedCount == |SealedVotes(s, p)| + a.erasedSeals
    && s.polls[p].idvCastCount == |L2(s, p)| + a.withdrawals + a.rescissions + a.recasts
    && s.polls[p].reattestationCount == |ConfirmsOf(s, p)| + a.withdrawnConfirms
  }

  ghost predicate TallyLaws(s: State, p: Str, a: History)
    requires p in s.polls && p in s.tallies
  {
    var t := s.tallies[p];
    && t.totalVotes == |L2(s, p)|
    && t.totalVotes + t.rescissionCount == a.closingTotal
    && |Counted(s, p)| == t.totalVotes + a.sealedRescinds
    && (forall o | o in s.polls[p].options ::
          GetOr(t.counts, o, 0) + GetOr(a.loss, o, 0) == Recount(s, p, o) && GetOr(a.loss, o, 0) >= 0)
    && (a.sealedRescinds == 0 <==> forall o | o in s.polls[p].options :: GetOr(a.loss, o, 0) == 0)
  }

  ghost predicate CadenceOf(active: bool, T: nat, counter: nat, cps: seq<Checkpoint>, a: History) {
    && (active ==> Batches(T, |cps| + a.failedChecks) + counter == a.materialised
                   && (a.lastCheckFailed || counter < T))
    && (!active ==> counter == 0 && cps == [])
    && (forall i | 0 <= i < |cps| :: cps[i].sequenceNumber == i)
  }

  /** Every `threshold` ballots written, one checkpoint is committed or one check fails. */
  ghost predicate Cadence(cfg: Config, s: State, p: Str, a: History) {
    CadenceOf(cfg.rolling && cfg.threshold > 0, cfg.threshold,
              GetOr(s.submissionCounts, p, 0), GetOr(s.checkpoints, p, []), a)
  }

  ghost predicate ListLaws(cfg: Config, s: State, p: Str, a: History) {
    DriftLaw(s, p, a) && Cadence(cfg, s, p, a) && (p in s.polls ==> CounterLaws(s, p, a))
  }

  ghost predicate TallyPart(s: State, p: Str, a: History) {
    && (p in s.tallies ==> p in s.polls && TallyLaws(s, p, a))
    && (p !in s.tallies ==> a.sealedRescinds == 0 && a.loss == map[])
  }

  ghost predicate Laws(cfg: Config, s: State, p: Str, a: History) {
    ListLaws(cfg, s, p, a) && TallyPart(s, p, a) && (p !in s.polls ==> a == NOTHING)
  }

  // ----- small facts about the lists -----

  /** Everything the laws say about a poll depends on that poll's entries only. */
  ghost predicate SamePoll(s: State, t: State, p: Str) {
    && (forall k: Key | k.0 == p :: k in s.votes <==> k in t.votes)
    && (forall k: Key | k.0 == p && k in s.votes :: s.votes[k] == t.votes[k])
    && (forall k: Key | k.0 == p :: k in s.voters <==> k in t.voters)
    && (forall k: Key | k.0 == p :: k in s.confirms <==> k in t.confirms)
    && (p in s.polls <==> p in t.polls) && (p in s.polls ==> s.polls[p] == t.polls[p])
    && (p in s.tallies <==> p in t.tallies) && (p in s.tallies ==> s.tallies[p] == t.tallies[p])
    && GetOr(s.submissionCounts, p, 0) == GetOr(t.submissionCounts, p, 0)
    && GetOr(s.checkpoints, p, []) == GetOr(t.checkpoints, p, [])
  }

  lemma SamePollSameLists(s: State, t: State, p: Str)
    requires SamePoll(s, t, p)
    ensures L1(t, p) == L1(s, p) && L2(t, p) == L2(s, p) && ConfirmsOf(t, p) == ConfirmsOf(s, p)
    ensures SealedVotes(t, p) == SealedVotes(s, p) && Counted(t, p) == Counted(s, p)
    ensures p in s.polls ==> forall o :: Backers(t, p, o) == Backers(s, p, o)
  {
  }

  lemma SamePollSameLaws(cfg: Config, s: State, t: State, p: Str, a: History)
    requires SamePoll(s, t, p) && Laws(cfg, s, p, a)
    ensures Laws(cfg, t, p, a)
  {
    SamePollSameLists(s, t, p);
    if p in s.polls {
      assert CounterLaws(t, p, a);
      if p in s.tallies {
        assert TallyLaws(s, p, a);
        forall o | o in t.polls[p].options
          ensures GetOr(t.tallies[p].counts, o, 0) + GetOr(a.loss, o, 0) == Recount(t, p, o)
        {
          assert Recount(t, p, o) == Recount(s, p, o);
        }
        assert TallyLaws(t, p, a);
      }
    }
  }

  lemma {:induction false} WrittenKeys(votes: map<Key, Vote>, p: Str, casts: seq<Cast>)
    ensures WriteVotes(votes, p, casts).Keys == votes.Keys + BallotKeys(p, casts)
  {
    if casts != [] {
      var n := |casts| - 1;
      WrittenKeys(votes, p, casts[..n]);
      assert BallotIds(casts) == BallotIds(casts[..n]) + [casts[n].ballotId];
      assert BallotKeys(p, casts) == BallotKeys(p, casts[..n]) + {(p, casts[n].ballotId)};
    }
  }

  lemma {:induction false} UnwrittenVote(votes: map<Key, Vote>, p: Str, casts: seq<Cast>, k: Key)
    requires k in votes && k !in BallotKeys(p, casts)
    ensures k in WriteVotes(votes, p, casts) && WriteVotes(votes, p, casts)[k] == votes[k]
  {
    if casts != [] {
      var n := |casts| - 1;
      assert BallotIds(casts) == BallotIds(casts[..n]) + [casts[n].ballotId];
      assert casts[n].ballotId in BallotIds(casts);
      UnwrittenVote(votes, p, casts[..n], k);
    }
  }

  lemma {:induction false} WrittenVote(votes: map<Key, Vote>, p: Str, casts: seq<Cast>, i: nat)
    requires Distinct(BallotIds(casts)) && i < |casts|
    ensures var k := (p, casts[i].ballotId);
      k in WriteVotes(votes, p, casts) && WriteVotes(votes, p, casts)[k] == FlushedVote(casts[i])
  {
    var n := |casts| - 1;
    if i < n {
      var ids := BallotIds(casts);
      assert BallotIds(casts[..n]) == ids[..n];
      assert ids[i] != ids[n];
      WrittenVote(votes, p, casts[..n], i);
    }
  }

  lemma {:induction false} WrittenVoters(voters: set<Key>, p: Str, casts: seq<Cast>)
    ensures WriteVoters(voters, p, casts) == voters + IdentityKeys(p, casts)
  {
    if casts != [] {
      var n := |casts| - 1;
      WrittenVoters(voters, p, casts[..n]);
      assert Identities(casts) == Identities(casts[..n]) + [casts[n].identity];
      assert IdentityKeys(p, casts) == IdentityKeys(p, casts[..n]) + {(p, casts[n].identity)};
    }
  }

  lemma SameMembers(p: Str, a: seq<Cast>, b: seq<Cast>)
    requires multiset(a) == multiset(b)
    ensures |a| == |b| && forall c :: c in a <==> c in b
    ensures BallotKeys(p, a) == BallotKeys(p, b) && IdentityKeys(p, a) == IdentityKeys(p, b)
    ensures Distinct(BallotIds(a)) <==> Distinct(BallotIds(b))
    ensures Distinct(Identities(a)) <==> Distinct(Identities(b))
  {
    assert |multiset(a)| == |a| && |multiset(b)| == |b|;
    forall c ensures c in a <==> c in b {
      assert c in multiset(a) <==> c in multiset(b);
    }
    MemberKeys(p, a, b);
    MemberKeys(p, b, a);
    DistinctKeyCount(p, BallotIds(a));
    DistinctKeyCount(p, BallotIds(b));
    DistinctKeyCount(p, Identities(a));
    DistinctKeyCount(p, Identities(b));
  }

  lemma MemberKeys(p: Str, a: seq<Cast>, b: seq<Cast>)
    requires forall c :: c in a ==> c in b
    ensures BallotKeys(p, a) <= BallotKeys(p, b) && IdentityKeys(p, a) <= IdentityKeys(p, b)
  {
    forall i | 0 <= i < |a| ensures a[i].ballotId in BallotIds(b) && a[i].identity in Identities(b) {
      assert a[i] in a;
      var j :| 0 <= j < |b| && b[j] == a[i];
      assert BallotIds(b)[j] == a[i].ballotId && Identities(b)[j] == a[i].identity;
    }
  }

  ghost predicate FlushedFrom(v: Vote, casts: seq<Cast>) {
    exists i | 0 <= i < |casts| :: v == FlushedVote(casts[i])
  }

  lemma FlushedVoteAt(votes: map<Key, Vote>, p: Str, casts: seq<Cast>, k: Key)
    requires Distinct(BallotIds(casts)) && k in BallotKeys(p, casts)
    ensures k in WriteVotes(votes, p, casts) && FlushedFrom(WriteVotes(votes, p, casts)[k], casts)
  {
    var i :| 0 <= i < |casts| && BallotIds(casts)[i] == k.1;
    WrittenVote(votes, p, casts, i);
  }

  /** What a flush writes, whatever order the batch came in. */
  lemma {:induction false} Flushed(votes: map<Key, Vote>, voters: set<Key>, p: Str, casts: seq<Cast>)
    requires Distinct(BallotIds(casts))
    ensures var w := WriteVotes(votes, p, Sort(CastLe, casts));
      && w.Keys == votes.Keys + BallotKeys(p, casts)
      && (forall k | k in votes && k !in BallotKeys(p, casts) :: w[k] == votes[k])
      && (forall k | k in BallotKeys(p, casts) :: FlushedFrom(w[k], casts))
    ensures WriteVoters(voters, p, Sort(CastLe, casts)) == voters + IdentityKeys(p, casts)
  {
    var sorted := Sort(CastLe, casts);
    SameMembers(p, sorted, casts);
    WrittenKeys(votes, p, sorted);
    WrittenVoters(voters, p, sorted);
    forall k | k in votes && k !in BallotKeys(p, casts) ensures WriteVotes(votes, p, sorted)[k] == votes[k] {
      UnwrittenVote(votes, p, sorted, k);
    }
    forall k | k in BallotKeys(p, casts) ensures FlushedFrom(WriteVotes(votes, p, sorted)[k], casts) {
      FlushedVoteAt(votes, p, sorted, k);
      var i :| 0 <= i < |sorted| && WriteVotes(votes, p, sorted)[k] == FlushedVote(sorted[i]);
      assert sorted[i] in sorted;
    }
  }

  lemma {:induction false} RollLaw(T: nat, counter: nat, cps: seq<Checkpoint>, matching: bool, total: int, l1: Str,
                                   l2: Str)
    requires T > 0
    requires forall i | 0 <= i < |cps| :: cps[i].sequenceNumber == i
    ensures var r := Roll(T, counter, cps, matching, total, l1, l2);
      && Batches(T, |r.checkpoints| + One(!r.ok)) + r.counter == Batches(T, |cps|) + counter
      && (r.ok ==> r.counter < T)
      && (forall i | 0 <= i < |r.checkpoints| :: r.checkpoints[i].sequenceNumber == i)
    decreases counter
  {
    if counter >= T && matching {
      RollLaw(T, counter - T, cps + [Checkpoint(|cps|, total, l1, l2)], matching, total, l1, l2);
    }
  }

  /** The loop only appends checkpoints over the present lists, and none when they differ. */
  lemma {:induction false} RollAppends(T: nat, counter: nat, cps: seq<Checkpoint>, matching: bool, total: int,
                                       l1: Str, l2: Str)
    requires T > 0
    ensures var r := Roll(T, counter, cps, matching, total, l1, l2);
      && cps <= r.checkpoints
      && (|r.checkpoints| > |cps| ==> matching)
      && (forall i | |cps| <= i < |r.checkpoints| :: r.checkpoints[i] == Checkpoint(i, total, l1, l2))
    decreases counter
  {
    if counter >= T && matching {
      RollAppends(T, counter - T, cps + [Checkpoint(|cps|, total, l1, l2)], matching, total, l1, l2);
    }
  }

  lemma RolledElsewhere(s: State, q: Str, r: Rolled, p: Str)
    requires q != p
    ensures SamePoll(s, WithRolled(s, q, r), p)
  {
  }

  /** What a flush does to the lists, without saying how: new ballots `bs` of poll `p`,
      none of them sealed, and new identities `ids`. */
  ghost predicate Grown(s: State, t: State, p: Str, bs: set<Key>, ids: set<Key>) {
    && (forall k | k in bs :: k.0 == p) && (forall k | k in ids :: k.0 == p)
    && t.votes.Keys == s.votes.Keys + bs
    && (forall k | k in s.votes && k !in bs :: t.votes[k] == s.votes[k])
    && (forall k | k in bs :: t.votes[k].partition == Unassigned && !t.votes[k].superseded)
    && t.voters == s.voters + ids && t.confirms == s.confirms
    && (forall q | q != p :: (q in s.polls <==> q in t.polls) && (q in s.polls ==> s.polls[q] == t.polls[q]))
    && t.tallies == s.tallies && t.submissionCounts == s.submissionCounts && t.checkpoints == s.checkpoints
  }

  lemma FlushGrows(s: State, p: Str, casts: seq<Cast>)
    requires p in s.polls && Distinct(BallotIds(casts))
    ensures Grown(s, FlushedLists(s, p, casts), p, BallotKeys(p, casts), IdentityKeys(p, casts))
  {
    Flushed(s.votes, s.voters, p, casts);
    forall k | k in BallotKeys(p, casts)
      ensures var v := WriteVotes(s.votes, p, Sort(CastLe, casts))[k]; v.partition == Unassigned && !v.superseded
    {
      assert FlushedFrom(WriteVotes(s.votes, p, Sort(CastLe, casts))[k], casts);
    }
  }

  lemma GrownElsewhere(s: State, t: State, q: Str, bs: set<Key>, ids: set<Key>, p: Str)
    requires Grown(s, t, q, bs, ids) && q != p
    ensures SamePoll(s, t, p)
  {
  }

  lemma FlushElsewhere(cfg: Config, s: State, q: Str, casts: seq<Cast>, p: Str)
    requires q in s.polls && q != p && Distinct(BallotIds(casts))
    ensures SamePoll(s, AfterFlush(cfg, s, q, casts), p)
  {
    FlushGrows(s, q, casts);
    var t := FlushedLists(s, q, casts);
    GrownElsewhere(s, t, q, BallotKeys(q, casts), IdentityKeys(q, casts), p);
    if cfg.rolling && cfg.threshold > 0 {
      RolledElsewhere(t, q, RolledAfter(cfg, t, q, |casts|), p);
    }
  }

  lemma SimpleElsewhere(s: State, tx: Tx, p: Str)
    requires tx.poll != p && (tx.poll in s.polls || tx.CreatePoll?)
    ensures tx.CreatePoll? ==>
      SamePoll(s, Created(s, tx.poll, tx.options, tx.votingMethod, tx.startTime, tx.endTime, tx.keys), p)
    ensures tx.OpenPoll? ==> SamePoll(s, Opened(s, tx.poll), p)
    ensures tx.ResealVote? && (tx.poll, tx.ballot) in s.votes ==> SamePoll(s, Resealed(s, tx.poll, tx.ballot), p)
    ensures tx.AuthorityRestore? ==> SamePoll(s, Restored(s, tx.poll, tx.identity), p)
  {
  }

  lemma TallyElsewhere(s: State, q: Str, t: Tally, p: Str)
    requires q in s.polls && q != p
    ensures SamePoll(s, WithTally(s, q, t), p)
  {
  }

  lemma CloseElsewhere(cfg: Config, s: State, q: Str, degraded: bool, p: Str)
    requires q in s.polls && q != p
    ensures SamePoll(s, ClosedBy(cfg, s, q, degraded), p)
  {
    if ListsMatch(s, q) {
      TallyElsewhere(s, q, FreshTally(cfg, s, q, degraded), p);
    }
  }

  lemma RescindElsewhere(s: State, q: Str, ballot: Str, identity: Str, p: Str)
    requires q in s.polls && (q, ballot) in s.votes && q != p
    ensures SamePoll(s, Rescinded(s, q, ballot, identity), p)
  {
  }

  lemma ConfirmElsewhere(s: State, q: Str, identity: Str, p: Str)
    requires q in s.polls && q != p
    ensures SamePoll(s, Confirmed(s, q, identity), p)
  {
  }

  lemma UpdateElsewhere(s: State, q: Str, oldBallot: Str, newBallot: Str, identity: Str, choices: seq<Str>, p: Str)
    requires q in s.polls && q != p
    ensures SamePoll(s, Withdrawn(s, q, oldBallot, identity), p)
    ensures SamePoll(s, Replaced(s, q, oldBallot, newBallot, choices), p)
  {
  }

  /** A step on one poll leaves every other poll as it was. */
  lemma {:induction false} OtherPoll(cfg: Config, s: State, tx: Tx, p: Str)
    requires Valid(s, tx) && tx.poll != p
    ensures SamePoll(s, Apply(cfg, s, tx), p)
  {
    var q := tx.poll;
    match tx
    case CreatePoll(_, _, _, _, _, _, _) => SimpleElsewhere(s, tx, p);
    case OpenPoll(_, _) => SimpleElsewhere(s, tx, p);
    case BatchFlush(_, casts, _) => FlushElsewhere(cfg, s, q, casts, p);
    case UpdateBallot(_, oldBallot, newBallot, identity, choices, _) =>
      UpdateElsewhere(s, q, oldBallot, newBallot, identity, choices, p);
    case ResealVote(_, _, _) => SimpleElsewhere(s, tx, p);
    case ConfirmReceipt(_, identity, _) => ConfirmElsewhere(s, q, identity, p);
    case AuthorityRescind(_, ballot, identity) => RescindElsewhere(s, q, ballot, identity, p);
    case AuthorityRestore(_, _, _) => SimpleElsewhere(s, tx, p);
    case ClosePoll(_, _, degraded) => CloseElsewhere(cfg, s, q, degraded, p);
  }

  // ----- steps on the poll itself: the lists -----

  lemma CountedAndSealed(s: State, p: Str)
    requires Good(s)
    ensures L1(s, p) == Counted(s, p) + SealedVotes(s, p) && Counted(s, p) !! SealedVotes(s, p)
    ensures |L1(s, p)| == |Counted(s, p)| + |SealedVotes(s, p)|
  {
    assert L1(s, p) == Counted(s, p) + SealedVotes(s, p);
  }

  lemma WithdrawLists(s: State, p: Str, ballot: Str, identity: Str)
    requires (p, ballot) in s.votes && (p, identity) in s.voters
    ensures var t := Withdrawn(s, p, ballot, identity);
      && |L1(t, p)| == |L1(s, p)| - 1 && |L2(t, p)| == |L2(s, p)| - 1
      && |SealedVotes(t, p)| == |SealedVotes(s, p)| - One(IsSealed(s, (p, ballot)))
      && |ConfirmsOf(t, p)| == |ConfirmsOf(s, p)| - One((p, identity) in s.confirms)
  {
    var t := Withdrawn(s, p, ballot, identity);
    var k, id := (p, ballot), (p, identity);
    assert L1(t, p) == L1(s, p) - {k} && k in L1(s, p);
    assert L2(t, p) == L2(s, p) - {id} && id in L2(s, p);
    assert SealedVotes(t, p) == SealedVotes(s, p) - {k};
    assert IsSealed(s, k) <==> k in SealedVotes(s, p);
    assert ConfirmsOf(t, p) == ConfirmsOf(s, p) - {id};
    assert id in s.confirms <==> id in ConfirmsOf(s, p);
  }

  lemma RescindLists(s: State, p: Str, ballot: Str, identity: Str)
    requires p in s.polls && (p, ballot) in s.votes && (p, identity) in s.voters
    ensures var t := Rescinded(s, p, ballot, identity);
      && |L1(t, p)| == |L1(s, p)| - 1 && |L2(t, p)| == |L2(s, p)| - 1
      && |SealedVotes(t, p)| == |SealedVotes(s, p)| - One(IsSealed(s, (p, ballot)))
      && |ConfirmsOf(t, p)| == |ConfirmsOf(s, p)| - One((p, identity) in s.confirms)
  {
    var t, w := Rescinded(s, p, ballot, identity), Withdrawn(s, p, ballot, identity);
    WithdrawLists(s, p, ballot, identity);
    assert L1(t, p) == L1(w, p) && L2(t, p) == L2(w, p);
    assert SealedVotes(t, p) == SealedVotes(w, p) && ConfirmsOf(t, p) == ConfirmsOf(w, p);
  }

  lemma ReplaceLists(s: State, p: Str, oldBallot: Str, newBallot: Str, choices: seq<Str>)
    requires (p, oldBallot) in s.votes
    ensures var t := Replaced(s, p, oldBallot, newBallot, choices);
      && |L1(t, p)| == |L1(s, p)| - One(newBallot != oldBallot && (p, newBallot) in s.votes)
      && L2(t, p) == L2(s, p) && ConfirmsOf(t, p) == ConfirmsOf(s, p)
      && |SealedVotes(t, p)| == |SealedVotes(s, p)| - One(IsSealed(s, (p, oldBallot)))
                                - One(newBallot != oldBallot && IsSealed(s, (p, newBallot)))
  {
    var t := Replaced(s, p, oldBallot, newBallot, choices);
    var k, k' := (p, oldBallot), (p, newBallot);
    assert L1(t, p) == L1(s, p) - {k} + {k'} && k in L1(s, p);
    assert k' in s.votes <==> k' in L1(s, p);
    assert SealedVotes(t, p) == SealedVotes(s, p) - {k} - {k'};
    assert IsSealed(s, k) <==> k in SealedVotes(s, p);
    assert IsSealed(s, k') <==> k' in SealedVotes(s, p);
  }

  lemma ResealLists(s: State, p: Str, ballot: Str)
    requires p in s.polls && (p, ballot) in s.votes && !IsSealed(s, (p, ballot))
    ensures var t := Resealed(s, p, ballot);
      && L1(t, p) == L1(s, p) && L2(t, p) == L2(s, p) && ConfirmsOf(t, p) == ConfirmsOf(s, p)
      && |SealedVotes(t, p)| == |SealedVotes(s, p)| + 1
  {
    var t := Resealed(s, p, ballot);
    assert SealedVotes(t, p) == SealedVotes(s, p) + {(p, ballot)};
  }

  lemma ConfirmLists(s: State, p: Str, identity: Str)
    requires p in s.polls && (p, identity) !in s.confirms
    ensures var t := Confirmed(s, p, identity);
      && L1(t, p) == L1(s, p) && L2(t, p) == L2(s, p) && SealedVotes(t, p) == SealedVotes(s, p)
      && |ConfirmsOf(t, p)| == |ConfirmsOf(s, p)| + 1
  {
    var t := Confirmed(s, p, identity);
    assert ConfirmsOf(t, p) == ConfirmsOf(s, p) + {(p, identity)};
  }

  lemma SameBackers(s: State, t: State, p: Str)
    requires p in s.polls && p in t.polls && s.polls[p].votingMethod == t.polls[p].votingMethod && s.votes == t.votes
    ensures Counted(t, p) == Counted(s, p)
    ensures forall o :: Backers(t, p, o) == Backers(s, p, o)
  {
  }

  lemma GrownL1(s: State, t: State, p: Str, bs: set<Key>, ids: set<Key>)
    requires Grown(s, t, p, bs, ids)
    ensures |L1(t, p)| == |L1(s, p)| + |bs| - |bs * s.votes.Keys|
  {
    assert L1(t, p) == L1(s, p) + bs;
    assert bs * s.votes.Keys == bs * L1(s, p);
    UnionCount(L1(s, p), bs);
  }

  lemma GrownL2(s: State, t: State, p: Str, bs: set<Key>, ids: set<Key>)
    requires Grown(s, t, p, bs, ids)
    ensures |L2(t, p)| == |L2(s, p)| + |ids| - |ids * s.voters|
  {
    assert L2(t, p) == L2(s, p) + ids;
    assert ids * s.voters == ids * L2(s, p);
    UnionCount(L2(s, p), ids);
  }

  lemma GrownSealed(s: State, t: State, p: Str, bs: set<Key>, ids: set<Key>)
    requires Grown(s, t, p, bs, ids)
    ensures |SealedVotes(t, p)| == |SealedVotes(s, p)| - |bs * SealedVotes(s, p)|
    ensures ConfirmsOf(t, p) == ConfirmsOf(s, p)
  {
    assert SealedVotes(t, p) == SealedVotes(s, p) - bs;
  }

  /** After a flush of n ballots with n identities, what the lists gained is n minus what
      was there already. */
  lemma FlushLists(s: State, p: Str, casts: seq<Cast>)
    requires p in s.polls && Distinct(BallotIds(casts)) && Distinct(Identities(casts))
    ensures var t := FlushedLists(s, p, casts);
      && |L1(t, p)| == |L1(s, p)| + |casts| - |BallotKeys(p, casts) * s.votes.Keys|
      && |L2(t, p)| == |L2(s, p)| + |casts| - |IdentityKeys(p, casts) * s.voters|
      && |SealedVotes(t, p)| == |SealedVotes(s, p)| - |BallotKeys(p, casts) * SealedVotes(s, p)|
      && ConfirmsOf(t, p) == ConfirmsOf(s, p)
  {
    var t, bs, ids := FlushedLists(s, p, casts), BallotKeys(p, casts), IdentityKeys(p, casts);
    FlushGrows(s, p, casts);
    DistinctKeyCount(p, BallotIds(casts));
    DistinctKeyCount(p, Identities(casts));
    GrownL1(s, t, p, bs, ids);
    GrownL2(s, t, p, bs, ids);
    GrownSealed(s, t, p, bs, ids);
  }

  lemma RolledLists(s: State, p: Str, r: Rolled)
    ensures var t := WithRolled(s, p, r);
      && L1(t, p) == L1(s, p) && L2(t, p) == L2(s, p) && ConfirmsOf(t, p) == ConfirmsOf(s, p)
      && SealedVotes(t, p) == SealedVotes(s, p) && t.polls == s.polls && t.tallies == s.tallies
  {
  }
}
