/** Every step of the voting machine keeps the laws, so every run does; and what that
    means for closing a poll, for the tally, and for the audit figures. */
module VotingRuns {
  import opened Ordering
  import opened Merkle
  import opened TwoList
  import opened VotingSpec
  import opened VotingLaws

  // ----- Good is kept -----

  lemma FlushedChoices(s: State, p: Str, casts: seq<Cast>, k: Key)
    requires p in s.polls && Distinct(BallotIds(casts)) && k in BallotKeys(p, casts)
    requires forall c | c in casts :: ValidChoices(s.polls[p], c.choices)
    ensures k in FlushedLists(s, p, casts).votes && ValidChoices(s.polls[p], FlushedLists(s, p, casts).votes[k].choices)
  {
    Flushed(s.votes, s.voters, p, casts);
    var v := WriteVotes(s.votes, p, Sort(CastLe, casts))[k];
    assert FlushedFrom(v, casts);
    var i :| 0 <= i < |casts| && v == FlushedVote(casts[i]);
    assert casts[i] in casts;
  }

  lemma SameChoices(a: Poll, b: Poll, choices: seq<Str>)
    requires a.options == b.options && a.votingMethod == b.votingMethod
    ensures ValidChoices(a, choices) <==> ValidChoices(b, choices)
  {
  }

  /** Changing counters or the status of a poll does not affect the ballots in it. */
  lemma SameGoodVotes(polls: map<Str, Poll>, polls': map<Str, Poll>, votes: map<Key, Vote>)
    requires GoodVotes(polls, votes)
    requires forall p | p in polls ::
      p in polls' && polls'[p].options == polls[p].options && polls'[p].votingMethod == polls[p].votingMethod
    ensures GoodVotes(polls', votes)
  {
    forall k | k in votes ensures ValidChoices(polls'[k.0], votes[k].choices) {
      SameChoices(polls[k.0], polls'[k.0], votes[k].choices);
    }
  }

  lemma SameGoodTallies(polls: map<Str, Poll>, polls': map<Str, Poll>, tallies: map<Str, Tally>)
    requires GoodTallies(polls, tallies)
    requires forall p :: p in polls <==> p in polls'
    requires forall p | p in polls :: polls'[p].options == polls[p].options && polls'[p].status == polls[p].status
    ensures GoodTallies(polls', tallies)
  {
  }

  lemma FlushGoodVotes(s: State, p: Str, casts: seq<Cast>)
    requires GoodVotes(s.polls, s.votes) && p in s.polls && Distinct(BallotIds(casts))
    requires forall c | c in casts :: ValidChoices(s.polls[p], c.choices)
    ensures GoodVotes(s.polls, FlushedLists(s, p, casts).votes)
  {
    FlushGrows(s, p, casts);
    var t := FlushedLists(s, p, casts);
    forall k | k in t.votes
      ensures k.0 in s.polls && !t.votes[k].superseded && ValidChoices(s.polls[k.0], t.votes[k].choices) {
      if k in BallotKeys(p, casts) {
        FlushedChoices(s, p, casts, k);
      }
    }
  }

  lemma FlushGood(s: State, p: Str, casts: seq<Cast>)
    requires Good(s) && p in s.polls && s.polls[p].status != Closed && Distinct(BallotIds(casts))
    requires forall c | c in casts :: ValidChoices(s.polls[p], c.choices)
    ensures Good(FlushedLists(s, p, casts))
  {
    var t := FlushedLists(s, p, casts);
    FlushGoodVotes(s, p, casts);
    SameGoodVotes(s.polls, t.polls, t.votes);
    SameGoodTallies(s.polls, t.polls, s.tallies);
    assert GoodVoters(t.polls, t.voters, t.confirms) by { FlushGrows(s, p, casts); }
  }

  lemma UpdateGood(s: State, p: Str, oldBallot: Str, newBallot: Str, identity: Str, choices: seq<Str>)
    requires Good(s) && p in s.polls
    ensures Good(Withdrawn(s, p, oldBallot, identity))
    ensures ValidChoices(s.polls[p], choices) ==> Good(Replaced(s, p, oldBallot, newBallot, choices))
  {
  }

  lemma ResealGood(s: State, p: Str, ballot: Str)
    requires Good(s) && p in s.polls && (p, ballot) in s.votes
    ensures Good(Resealed(s, p, ballot))
  {
    var t := Resealed(s, p, ballot);
    SameGoodVotes(s.polls, t.polls, s.votes);
  }

  lemma ConfirmGood(s: State, p: Str, identity: Str)
    requires Good(s) && p in s.polls && (p, identity) in s.voters
    ensures Good(Confirmed(s, p, identity))
  {
    var t := Confirmed(s, p, identity);
    assert GoodVotes(t.polls, t.votes) by { SameGoodVotes(s.polls, t.polls, t.votes); }
    assert GoodVoters(t.polls, t.voters, t.confirms);
    SameGoodTallies(s.polls, t.polls, s.tallies);
    if p in s.tallies {
      RecountedConfirms(t.polls, s.tallies, p, |ConfirmsOf(t, p)|);
    }
  }

  lemma RecountedConfirms(polls: map<Str, Poll>, tallies: map<Str, Tally>, p: Str, n: int)
    requires GoodTallies(polls, tallies) && p in tallies
    ensures GoodTallies(polls, tallies[p := tallies[p].(confirmedCount := n)])
  {
  }

  lemma TallyGood(s: State, p: Str, tally: Tally)
    requires Good(s) && p in s.polls && tally.counts.Keys == set o | o in s.polls[p].options
    ensures Good(WithTally(s, p, tally))
  {
    var t := WithTally(s, p, tally);
    SameGoodVotes(s.polls, t.polls, t.votes);
  }

  // ----- the tally after a rescission -----

  lemma {:induction false} DecrementedAll(counts: map<Str, int>, choices: seq<Str>, o: Str)
    requires Distinct(choices) && forall c | c in choices :: c in counts
    ensures DecrementAll(counts, choices).Keys == counts.Keys
    ensures GetOr(DecrementAll(counts, choices), o, 0) == GetOr(counts, o, 0) - One(o in choices)
  {
    if choices != [] {
      var n := |choices| - 1;
      DecrementedAll(counts, choices[..n], o);
      assert choices == choices[..n] + [choices[n]];
      assert choices[n] !in choices[..n];
    }
  }

  /** For every voting method, a rescission takes from each option exactly what the
      recount loses if the ballot was counted. */
  lemma RescindedCounts(t: Tally, poll: Poll, v: Vote, o: Str)
    requires ValidChoices(poll, v.choices) && t.counts.Keys == set o | o in poll.options
    ensures var t' := RescindedTally(t, poll.votingMethod, v);
      && t'.counts.Keys == t.counts.Keys
      && GetOr(t'.counts, o, 0) == GetOr(t.counts, o, 0) - One(VotesFor(poll.votingMethod, v, o))
  {
    DecrementedAll(t.counts, v.choices, o);
    assert v.choices[0] in v.choices;
    if poll.votingMethod == Plurality {
      assert o in v.choices <==> v.choices[0] == o;
    }
  }

  lemma RescindGood(s: State, p: Str, ballot: Str, identity: Str)
    requires Good(s) && p in s.polls && (p, ballot) in s.votes
    ensures Good(Rescinded(s, p, ballot, identity))
  {
    var t := Rescinded(s, p, ballot, identity);
    SameGoodVotes(s.polls, t.polls, s.votes);
    if p in s.tallies {
      RescindedCounts(s.tallies[p], s.polls[p], s.votes[(p, ballot)], []);
    }
  }

  lemma RescindBackers(s: State, p: Str, ballot: Str, identity: Str, o: Str)
    requires Good(s) && p in s.polls && (p, ballot) in s.votes
    ensures var t, k := Rescinded(s, p, ballot, identity), (p, ballot);
      && |Counted(t, p)| == |Counted(s, p)| - One(!IsSealed(s, k))
      && Recount(t, p, o) == Recount(s, p, o) - One(!IsSealed(s, k) && VotesFor(s.polls[p].votingMethod, s.votes[k], o))
  {
    var t, k := Rescinded(s, p, ballot, identity), (p, ballot);
    assert Counted(t, p) == Counted(s, p) - {k};
    assert k in Counted(s, p) <==> !IsSealed(s, k);
    assert Backers(t, p, o) == Backers(s, p, o) - {k};
  }

  lemma HiddenLoss(poll: Poll, v: Vote, loss: map<Str, int>)
    requires ValidChoices(poll, v.choices) && forall o | o in poll.options :: GetOr(loss, o, 0) >= 0
    ensures exists o :: o in poll.options && GetOr(MoreLoss(poll, v, loss), o, 0) > 0
  {
    var o := v.choices[0];
    assert o in v.choices && o in poll.options && VotesFor(poll.votingMethod, v, o);
    assert GetOr(MoreLoss(poll, v, loss), o, 0) > 0;
  }

  lemma RescindTallyLaws(s: State, p: Str, ballot: Str, identity: Str, a: History, a': History)
    requires Good(s) && p in s.polls && p in s.tallies && TallyLaws(s, p, a)
    requires (p, ballot) in s.votes && (p, identity) in s.voters
    requires a'.closingTotal == a.closingTotal
    requires a'.sealedRescinds == a.sealedRescinds + One(IsSealed(s, (p, ballot)))
    requires a'.loss == if IsSealed(s, (p, ballot)) then MoreLoss(s.polls[p], s.votes[(p, ballot)], a.loss) else a.loss
    ensures TallyLaws(Rescinded(s, p, ballot, identity), p, a')
  {
    var t, v := Rescinded(s, p, ballot, identity), s.votes[(p, ballot)];
    RescindLists(s, p, ballot, identity);
    RescindBackers(s, p, ballot, identity, []);
    forall o | o in s.polls[p].options
      ensures GetOr(t.tallies[p].counts, o, 0) + GetOr(a'.loss, o, 0) == Recount(t, p, o)
      ensures GetOr(a'.loss, o, 0) >= 0
    {
      RescindBackers(s, p, ballot, identity, o);
      RescindedCounts(s.tallies[p], s.polls[p], v, o);
    }
    if IsSealed(s, (p, ballot)) {
      HiddenLoss(s.polls[p], v, a.loss);
    }
  }

  // ----- the laws are kept -----

  lemma CreateLaws(cfg: Config, s: State, p: Str, options: seq<Str>, m: Method, b: int, e: int, keys: bool)
    requires Good(s) && Laws(cfg, s, p, NOTHING) && p !in s.polls
    ensures var t := Created(s, p, options, m, b, e, keys); Good(t) && Laws(cfg, t, p, NOTHING)
  {
    var t := Created(s, p, options, m, b, e, keys);
    assert L1(t, p) == {} && L2(t, p) == {} && ConfirmsOf(t, p) == {} && SealedVotes(t, p) == {};
  }

  lemma OpenLaws(cfg: Config, s: State, p: Str, a: History)
    requires Good(s) && Laws(cfg, s, p, a) && p in s.polls && s.polls[p].status == Pending
    ensures Good(Opened(s, p)) && Laws(cfg, Opened(s, p), p, a)
  {
    var t := Opened(s, p);
    SameGoodVotes(s.polls, t.polls, s.votes);
    assert L1(t, p) == L1(s, p) && L2(t, p) == L2(s, p) && ConfirmsOf(t, p) == ConfirmsOf(s, p);
    assert SealedVotes(t, p) == SealedVotes(s, p);
  }

  lemma RestoreLaws(cfg: Config, s: State, p: Str, identity: Str, q: Str, a: History)
    requires Good(s) && Laws(cfg, s, q, a)
    ensures Good(Restored(s, p, identity)) && Laws(cfg, Restored(s, p, identity), q, a)
  {
    SamePollSameLaws(cfg, s, Restored(s, p, identity), q, a);
  }

  lemma WithdrawLaws(cfg: Config, s: State, p: Str, ballot: Str, identity: Str, a: History, a': History)
    requires ListLaws(cfg, s, p, a) && p in s.polls && (p, ballot) in s.votes && (p, identity) in s.voters
    requires a' == a.(withdrawals := a.withdrawals + 1,
           erasedSeals := a.erasedSeals + One(IsSealed(s, (p, ballot))),
           withdrawnConfirms := a.withdrawnConfirms + One((p, identity) in s.confirms))
    ensures ListLaws(cfg, Withdrawn(s, p, ballot, identity), p, a')
  {
    WithdrawLists(s, p, ballot, identity);
  }

  lemma ReplaceLaws(cfg: Config, s: State, p: Str, oldBallot: Str, newBallot: Str, choices: seq<Str>, a: History,
                    a': History)
    requires ListLaws(cfg, s, p, a) && p in s.polls && (p, oldBallot) in s.votes
    requires a' == a.(overwrites := a.overwrites + One(newBallot != oldBallot && (p, newBallot) in s.votes),
           erasedSeals := a.erasedSeals + One(IsSealed(s, (p, oldBallot)))
                          + One(newBallot != oldBallot && IsSealed(s, (p, newBallot))))
    ensures ListLaws(cfg, Replaced(s, p, oldBallot, newBallot, choices), p, a')
  {
    ReplaceLists(s, p, oldBallot, newBallot, choices);
  }

  lemma ResealLaws(cfg: Config, s: State, p: Str, ballot: Str, a: History)
    requires ListLaws(cfg, s, p, a) && p in s.polls && (p, ballot) in s.votes && !IsSealed(s, (p, ballot))
    ensures ListLaws(cfg, Resealed(s, p, ballot), p, a)
  {
    ResealLists(s, p, ballot);
  }

  lemma ConfirmLaws(cfg: Config, s: State, p: Str, identity: Str, a: History)
    requires ListLaws(cfg, s, p, a) && p in s.polls && (p, identity) !in s.confirms
    ensures ListLaws(cfg, Confirmed(s, p, identity), p, a)
  {
    ConfirmLists(s, p, identity);
  }

  lemma ConfirmTally(s: State, p: Str, identity: Str, a: History)
    requires TallyPart(s, p, a) && p in s.polls && (p, identity) !in s.confirms
    ensures TallyPart(Confirmed(s, p, identity), p, a)
  {
    var t := Confirmed(s, p, identity);
    if p in s.tallies {
      assert L2(t, p) == L2(s, p);
      SameBackers(s, t, p);
      forall o | o in t.polls[p].options
        ensures GetOr(t.tallies[p].counts, o, 0) + GetOr(a.loss, o, 0) == Recount(t, p, o)
      {
        assert Recount(t, p, o) == Recount(s, p, o);
      }
    }
  }

  lemma RescindLaws(cfg: Config, s: State, p: Str, ballot: Str, identity: Str, a: History, a': History)
    requires ListLaws(cfg, s, p, a) && p in s.polls && (p, ballot) in s.votes && (p, identity) in s.voters
    requires a' == a.(rescissions := a.rescissions + 1, sealedRescinds := a'.sealedRescinds, loss := a'.loss)
    ensures ListLaws(cfg, Rescinded(s, p, ballot, identity), p, a')
  {
    RescindLists(s, p, ballot, identity);
  }

  ghost predicate FlushNoted(cfg: Config, s: State, p: Str, casts: seq<Cast>, a: History, a': History)
    requires p in s.polls
  {
    a' == a.(recasts := a.recasts + |IdentityKeys(p, casts) * s.voters|,
         overwrites := a.overwrites + |BallotKeys(p, casts) * s.votes.Keys|,
         erasedSeals := a.erasedSeals + |BallotKeys(p, casts) * SealedVotes(s, p)|,
         materialised := a.materialised + |casts|,
         failedChecks := a.failedChecks + One(!FlushSucceeds(cfg, s, p, casts)),
         lastCheckFailed := !FlushSucceeds(cfg, s, p, casts))
  }

  lemma {:induction false} FlushListLaws(cfg: Config, s: State, p: Str, casts: seq<Cast>, a: History, a': History)
    requires DriftLaw(s, p, a) && p in s.polls && CounterLaws(s, p, a)
    requires Distinct(BallotIds(casts)) && Distinct(Identities(casts)) && FlushNoted(cfg, s, p, casts, a, a')
    ensures var t := FlushedLists(s, p, casts); DriftLaw(t, p, a') && CounterLaws(t, p, a')
  {
    FlushLists(s, p, casts);
  }

  lemma RollCadence(T: nat, counter: nat, cps: seq<Checkpoint>, r: Rolled, n: nat, a: History, a': History)
    requires T > 0 && CadenceOf(true, T, counter, cps, a)
    requires Batches(T, |r.checkpoints| + One(!r.ok)) + r.counter == Batches(T, |cps|) + counter + n
    requires r.ok ==> r.counter < T
    requires forall i | 0 <= i < |r.checkpoints| :: r.checkpoints[i].sequenceNumber == i
    requires a'.materialised == a.materialised + n && a'.lastCheckFailed == !r.ok
    requires a'.failedChecks == a.failedChecks + One(!r.ok)
    ensures CadenceOf(true, T, r.counter, r.checkpoints, a')
  {
    BatchesAdd(T, |r.checkpoints| + One(!r.ok), a.failedChecks);
    BatchesAdd(T, |cps|, a.failedChecks);
  }

  lemma RollKeepsCadence(T: nat, counter: nat, cps: seq<Checkpoint>, n: nat, matching: bool, total: int, l1: Str,
                         l2: Str,
                         a: History, a': History)
    requires T > 0 && CadenceOf(true, T, counter, cps, a)
    requires var r := Roll(T, counter + n, cps, matching, total, l1, l2);
      a'.materialised == a.materialised + n && a'.lastCheckFailed == !r.ok
      && a'.failedChecks == a.failedChecks + One(!r.ok)
    ensures var r := Roll(T, counter + n, cps, matching, total, l1, l2);
      CadenceOf(true, T, r.counter, r.checkpoints, a')
  {
    RollLaw(T, counter + n, cps, matching, total, l1, l2);
    RollCadence(T, counter, cps, Roll(T, counter + n, cps, matching, total, l1, l2), n, a, a');
  }

  lemma RolledFacts(cfg: Config, s: State, p: Str, n: nat, a: History, a': History)
    requires cfg.rolling && cfg.threshold > 0 && Cadence(cfg, s, p, a)
    requires var r := RolledAfter(cfg, s, p, n);
      a'.materialised == a.materialised + n && a'.lastCheckFailed == !r.ok
      && a'.failedChecks == a.failedChecks + One(!r.ok)
    ensures var r := RolledAfter(cfg, s, p, n); CadenceOf(true, cfg.threshold, r.counter, r.checkpoints, a')
  {
    hide SetRoot;
    RollKeepsCadence(cfg.threshold, GetOr(s.submissionCounts, p, 0), GetOr(s.checkpoints, p, []), n, ListsMatch(s, p),
                     |Counted(s, p)|, SetRoot(cfg.h, Ids(Counted(s, p))), SetRoot(cfg.h, Ids(L2(s, p))), a, a');
  }

  lemma WithRolledEntries(s: State, p: Str, r: Rolled)
    ensures GetOr(WithRolled(s, p, r).submissionCounts, p, 0) == r.counter
    ensures GetOr(WithRolled(s, p, r).checkpoints, p, []) == r.checkpoints
  {
  }

  lemma {:induction false} FlushCadence(cfg: Config, s: State, p: Str, casts: seq<Cast>, a: History, a': History)
    requires Cadence(cfg, s, p, a) && p in s.polls && FlushNoted(cfg, s, p, casts, a, a')
    ensures Cadence(cfg, AfterFlush(cfg, s, p, casts), p, a')
  {
    var t := FlushedLists(s, p, casts);
    if cfg.rolling && cfg.threshold > 0 {
      RolledFacts(cfg, t, p, |casts|, a, a');
      WithRolledEntries(t, p, RolledAfter(cfg, t, p, |casts|));
    }
  }

  lemma {:induction false} FlushLaws(cfg: Config, s: State, p: Str, casts: seq<Cast>, a: History, a': History)
    requires ListLaws(cfg, s, p, a) && p in s.polls
    requires Distinct(BallotIds(casts)) && Distinct(Identities(casts)) && FlushNoted(cfg, s, p, casts, a, a')
    ensures ListLaws(cfg, AfterFlush(cfg, s, p, casts), p, a')
  {
    var t := FlushedLists(s, p, casts);
    FlushListLaws(cfg, s, p, casts, a, a');
    FlushCadence(cfg, s, p, casts, a, a');
    if cfg.rolling && cfg.threshold > 0 {
      RolledLists(t, p, RolledAfter(cfg, t, p, |casts|));
    }
  }

  lemma CloseLaws(cfg: Config, s: State, p: Str, tally: Tally, a: History, a': History)
    requires ListLaws(cfg, s, p, a) && p in s.polls && a' == a.(closingTotal := |L2(s, p)|)
    ensures ListLaws(cfg, WithTally(s, p, tally), p, a')
  {
    var t := WithTally(s, p, tally);
    assert L1(t, p) == L1(s, p) && L2(t, p) == L2(s, p) && ConfirmsOf(t, p) == ConfirmsOf(s, p);
    assert SealedVotes(t, p) == SealedVotes(s, p);
  }

  lemma CloseTally(s: State, p: Str, tally: Tally, a: History, a': History)
    requires p in s.polls && p !in s.tallies && TallyPart(s, p, a) && a' == a.(closingTotal := |L2(s, p)|)
    requires ListsMatch(s, p) && tally.totalVotes == |Counted(s, p)| && tally.rescissionCount == 0
    requires tally.counts == map o | o in s.polls[p].options :: Recount(s, p, o)
    ensures TallyPart(WithTally(s, p, tally), p, a')
  {
    var t := WithTally(s, p, tally);
    assert L2(t, p) == L2(s, p);
    SameBackers(s, t, p);
    forall o | o in t.polls[p].options ensures GetOr(t.tallies[p].counts, o, 0) == Recount(t, p, o) {
      assert Recount(t, p, o) == Recount(s, p, o);
    }
  }

  // ----- one step, then every run -----

  lemma NotClosedNoTally(s: State, p: Str)
    requires Good(s) && p in s.polls && s.polls[p].status != Closed
    ensures p !in s.tallies
  {
  }

  lemma Parts(cfg: Config, s: State, p: Str, a: History)
    requires Laws(cfg, s, p, a)
    ensures ListLaws(cfg, s, p, a) && TallyPart(s, p, a) && (p !in s.polls ==> a == NOTHING)
  {
  }

  /** While a poll has no tally, its tally part only says that nothing was lost yet. */
  lemma Assemble(cfg: Config, s: State, p: Str, a: History)
    requires ListLaws(cfg, s, p, a) && p in s.polls
    requires TallyPart(s, p, a) || (p !in s.tallies && a.sealedRescinds == 0 && a.loss == map[])
    ensures Laws(cfg, s, p, a)
  {
  }

  lemma NoLossYet(s: State, p: Str, a: History)
    requires TallyPart(s, p, a) && p !in s.tallies
    ensures a.sealedRescinds == 0 && a.loss == map[]
  {
  }

  lemma OwnWithdraw(cfg: Config, s: State, p: Str, ballot: Str, identity: Str, a: History, a': History)
    requires Good(s) && Laws(cfg, s, p, a) && p in s.polls && s.polls[p].status != Closed
    requires (p, ballot) in s.votes && (p, identity) in s.voters
    requires a' == a.(withdrawals := a.withdrawals + 1,
           erasedSeals := a.erasedSeals + One(IsSealed(s, (p, ballot))),
           withdrawnConfirms := a.withdrawnConfirms + One((p, identity) in s.confirms))
    ensures Good(Withdrawn(s, p, ballot, identity)) && Laws(cfg, Withdrawn(s, p, ballot, identity), p, a')
  {
    Parts(cfg, s, p, a);
    NotClosedNoTally(s, p);
    NoLossYet(s, p, a);
    hide Laws, ListLaws, TallyPart, Good;
    UpdateGood(s, p, ballot, [], identity, []);
    WithdrawLaws(cfg, s, p, ballot, identity, a, a');
    Assemble(cfg, Withdrawn(s, p, ballot, identity), p, a');
  }

  lemma OwnReplace(cfg: Config, s: State, p: Str, oldBallot: Str, newBallot: Str, choices: seq<Str>, a: History,
                   a': History)
    requires Good(s) && Laws(cfg, s, p, a) && p in s.polls && s.polls[p].status != Closed
    requires (p, oldBallot) in s.votes && ValidChoices(s.polls[p], choices)
    requires a' == a.(overwrites := a.overwrites + One(newBallot != oldBallot && (p, newBallot) in s.votes),
           erasedSeals := a.erasedSeals + One(IsSealed(s, (p, oldBallot)))
                          + One(newBallot != oldBallot && IsSealed(s, (p, newBallot))))
    ensures var t := Replaced(s, p, oldBallot, newBallot, choices); Good(t) && Laws(cfg, t, p, a')
  {
    Parts(cfg, s, p, a);
    NotClosedNoTally(s, p);
    NoLossYet(s, p, a);
    hide Laws, ListLaws, TallyPart, Good;
    UpdateGood(s, p, oldBallot, newBallot, [], choices);
    ReplaceLaws(cfg, s, p, oldBallot, newBallot, choices, a, a');
    Assemble(cfg, Replaced(s, p, oldBallot, newBallot, choices), p, a');
  }

  lemma OwnUpdate(cfg: Config, s: State, tx: Tx, a: History)
    requires Good(s) && Laws(cfg, s, tx.poll, a) && Valid(s, tx) && tx.UpdateBallot?
    ensures Good(Apply(cfg, s, tx)) && Laws(cfg, Apply(cfg, s, tx), tx.poll, Note(cfg, s, tx, a))
  {
    hide Laws, Good, Withdrawn, Replaced;
    var a' := Note(cfg, s, tx, a);
    if tx.newChoices == [] {
      OwnWithdraw(cfg, s, tx.poll, tx.oldBallot, tx.identity, a, a');
    } else {
      OwnReplace(cfg, s, tx.poll, tx.oldBallot, tx.newBallot, tx.newChoices, a, a');
    }
  }

  lemma OwnReseal(cfg: Config, s: State, tx: Tx, a: History)
    requires Good(s) && Laws(cfg, s, tx.poll, a) && Valid(s, tx) && tx.ResealVote?
    ensures Good(Apply(cfg, s, tx)) && Laws(cfg, Apply(cfg, s, tx), tx.poll, Note(cfg, s, tx, a))
  {
    var p := tx.poll;
    Parts(cfg, s, p, a);
    NotClosedNoTally(s, p);
    NoLossYet(s, p, a);
    hide Laws, ListLaws, TallyPart, Good;
    ResealGood(s, p, tx.ballot);
    ResealLaws(cfg, s, p, tx.ballot, a);
    Assemble(cfg, Apply(cfg, s, tx), p, a);
  }

  lemma OwnConfirm(cfg: Config, s: State, tx: Tx, a: History)
    requires Good(s) && Laws(cfg, s, tx.poll, a) && Valid(s, tx) && tx.ConfirmReceipt?
    ensures Good(Apply(cfg, s, tx)) && Laws(cfg, Apply(cfg, s, tx), tx.poll, Note(cfg, s, tx, a))
  {
    var p := tx.poll;
    Parts(cfg, s, p, a);
    hide Laws, ListLaws, TallyPart, Good;
    ConfirmGood(s, p, tx.identity);
    ConfirmLaws(cfg, s, p, tx.identity, a);
    ConfirmTally(s, p, tx.identity, a);
    Assemble(cfg, Apply(cfg, s, tx), p, a);
  }

  lemma RescindTallyPart(s: State, p: Str, ballot: Str, identity: Str, a: History, a': History)
    requires Good(s) && p in s.polls && TallyPart(s, p, a)
    requires (p, ballot) in s.votes && (p, identity) in s.voters
    requires var hidden := p in s.tallies && IsSealed(s, (p, ballot));
      a' == a.(rescissions := a'.rescissions, sealedRescinds := a.sealedRescinds + One(hidden),
               loss := if hidden then MoreLoss(s.polls[p], s.votes[(p, ballot)], a.loss) else a.loss)
    ensures TallyPart(Rescinded(s, p, ballot, identity), p, a')
  {
    if p in s.tallies {
      RescindTallyLaws(s, p, ballot, identity, a, a');
    }
  }

  ghost predicate RescindNoted(s: State, p: Str, ballot: Str, a: History, a': History)
    requires p in s.polls && (p, ballot) in s.votes
  {
    var hidden := p in s.tallies && IsSealed(s, (p, ballot));
    a' == a.(rescissions := a.rescissions + 1, sealedRescinds := a.sealedRescinds + One(hidden),
             loss := if hidden then MoreLoss(s.polls[p], s.votes[(p, ballot)], a.loss) else a.loss)
  }

  lemma OwnRescinded(cfg: Config, s: State, p: Str, ballot: Str, identity: Str, a: History, a': History)
    requires Good(s) && Laws(cfg, s, p, a) && p in s.polls
    requires (p, ballot) in s.votes && (p, identity) in s.voters && RescindNoted(s, p, ballot, a, a')
    ensures var t := Rescinded(s, p, ballot, identity); Good(t) && Laws(cfg, t, p, a')
  {
    Parts(cfg, s, p, a);
    hide Laws, ListLaws, TallyPart, Good, MoreLoss;
    RescindGood(s, p, ballot, identity);
    RescindLaws(cfg, s, p, ballot, identity, a, a');
    RescindTallyPart(s, p, ballot, identity, a, a');
    Assemble(cfg, Rescinded(s, p, ballot, identity), p, a');
  }

  lemma OwnRescind(cfg: Config, s: State, tx: Tx, a: History)
    requires Good(s) && Laws(cfg, s, tx.poll, a) && Valid(s, tx) && tx.AuthorityRescind?
    ensures Good(Apply(cfg, s, tx)) && Laws(cfg, Apply(cfg, s, tx), tx.poll, Note(cfg, s, tx, a))
  {
    hide Laws, Good, Rescinded, MoreLoss;
    OwnRescinded(cfg, s, tx.poll, tx.ballot, tx.identity, a, Note(cfg, s, tx, a));
  }

  lemma RolledGood(s: State, p: Str, r: Rolled)
    requires Good(s)
    ensures Good(WithRolled(s, p, r))
  {
  }

  lemma FlushChecked(s: State, p: Str, casts: seq<Cast>, now: int)
    requires Valid(s, BatchFlush(p, casts, now))
    ensures p in s.polls && s.polls[p].status != Closed
    ensures Distinct(BallotIds(casts)) && Distinct(Identities(casts))
    ensures forall c | c in casts :: ValidChoices(s.polls[p], c.choices)
  {
  }

  lemma FlushApplied(cfg: Config, s: State, p: Str, casts: seq<Cast>, now: int, a: History)
    requires Valid(s, BatchFlush(p, casts, now)) && p in s.polls
    ensures Apply(cfg, s, BatchFlush(p, casts, now)) == AfterFlush(cfg, s, p, casts)
    ensures FlushNoted(cfg, s, p, casts, a, Note(cfg, s, BatchFlush(p, casts, now), a))
  {
    hide Valid, AfterFlush, FlushSucceeds, BallotKeys, IdentityKeys, SealedVotes;
  }

  lemma AfterFlushGood(cfg: Config, s: State, p: Str, casts: seq<Cast>)
    requires p in s.polls && Good(FlushedLists(s, p, casts))
    ensures Good(AfterFlush(cfg, s, p, casts))
    ensures AfterFlush(cfg, s, p, casts).tallies == s.tallies
    ensures p in AfterFlush(cfg, s, p, casts).polls
  {
    hide Good, RolledAfter;
    if cfg.rolling && cfg.threshold > 0 {
      var t := FlushedLists(s, p, casts);
      RolledGood(t, p, RolledAfter(cfg, t, p, |casts|));
    }
  }

  lemma FlushNotedKeeps(cfg: Config, s: State, p: Str, casts: seq<Cast>, a: History, a': History)
    requires p in s.polls && FlushNoted(cfg, s, p, casts, a, a')
    ensures a'.sealedRescinds == a.sealedRescinds && a'.loss == a.loss
  {
    hide FlushSucceeds, BallotKeys, IdentityKeys, SealedVotes;
  }

  lemma {:induction false} OwnFlush(cfg: Config, s: State, p: Str, casts: seq<Cast>, now: int, a: History)
    requires Good(s) && Laws(cfg, s, p, a) && Valid(s, BatchFlush(p, casts, now))
    ensures var tx := BatchFlush(p, casts, now);
      Good(Apply(cfg, s, tx)) && Laws(cfg, Apply(cfg, s, tx), p, Note(cfg, s, tx, a))
  {
    hide *;
    var a' := Note(cfg, s, BatchFlush(p, casts, now), a);
    FlushChecked(s, p, casts, now);
    FlushApplied(cfg, s, p, casts, now, a);
    Parts(cfg, s, p, a);
    NotClosedNoTally(s, p);
    NoLossYet(s, p, a);
    FlushGood(s, p, casts);
    AfterFlushGood(cfg, s, p, casts);
    FlushLaws(cfg, s, p, casts, a, a');
    FlushNotedKeeps(cfg, s, p, casts, a, a');
    Assemble(cfg, AfterFlush(cfg, s, p, casts), p, a');
  }

  lemma {:induction false} OwnClose(cfg: Config, s: State, tx: Tx, a: History)
    requires Good(s) && Laws(cfg, s, tx.poll, a) && Valid(s, tx) && tx.ClosePoll?
    ensures Good(Apply(cfg, s, tx)) && Laws(cfg, Apply(cfg, s, tx), tx.poll, Note(cfg, s, tx, a))
  {
    hide Laws, ListLaws, TallyPart, Good, SetRoot, Counted, L2, ConfirmsOf, Recount;
    var p, a' := tx.poll, Note(cfg, s, tx, a);
    Parts(cfg, s, p, a);
    if ListsMatch(s, p) {
      var tally := FreshTally(cfg, s, p, tx.degraded);
      TallyGood(s, p, tally);
      CloseLaws(cfg, s, p, tally, a, a');
      CloseTally(s, p, tally, a, a');
      Assemble(cfg, Apply(cfg, s, tx), p, a');
    }
  }

  lemma {:induction false} OwnStep(cfg: Config, s: State, tx: Tx, a: History)
    requires Good(s) && Laws(cfg, s, tx.poll, a) && Valid(s, tx)
    ensures Good(Apply(cfg, s, tx)) && Laws(cfg, Apply(cfg, s, tx), tx.poll, Note(cfg, s, tx, a))
  {
    Parts(cfg, s, tx.poll, a);
    hide Laws, ListLaws, TallyPart, Good;
    match tx
    case CreatePoll(p, options, m, b, e, keys, _) => CreateLaws(cfg, s, p, options, m, b, e, keys);
    case OpenPoll(p, _) => OpenLaws(cfg, s, p, a);
    case BatchFlush(p, casts, now) => OwnFlush(cfg, s, p, casts, now, a);
    case UpdateBallot(_, _, _, _, _, _) => OwnUpdate(cfg, s, tx, a);
    case ResealVote(_, _, _) => OwnReseal(cfg, s, tx, a);
    case ConfirmReceipt(_, _, _) => OwnConfirm(cfg, s, tx, a);
    case AuthorityRescind(_, _, _) => OwnRescind(cfg, s, tx, a);
    case AuthorityRestore(p, _, identity) => RestoreLaws(cfg, s, p, identity, p, a);
    case ClosePoll(_, _, _) => OwnClose(cfg, s, tx, a);
  }

  lemma EmptyLaws(cfg: Config, p: Str)
    ensures Good(EMPTY) && Laws(cfg, EMPTY, p, NOTHING)
  {
    assert L1(EMPTY, p) == {} && L2(EMPTY, p) == {};
  }

  lemma {:induction false} OtherStep(cfg: Config, s: State, tx: Tx, p: Str, a: History)
    requires Valid(s, tx) && tx.poll != p && Laws(cfg, s, p, a)
    ensures Laws(cfg, Apply(cfg, s, tx), p, a)
  {
    OtherPoll(cfg, s, tx, p);
    SamePollSameLaws(cfg, s, Apply(cfg, s, tx), p, a);
  }

  /** The laws hold for every poll after every sequence of submitted transactions. */
  lemma {:induction false} RunLaws(cfg: Config, txs: seq<Tx>, p: Str)
    ensures Good(Run(cfg, txs)) && Laws(cfg, Run(cfg, txs), p, HistoryOf(cfg, txs, p))
    decreases |txs|, 1
  {
    if txs == [] {
      EmptyLaws(cfg, p);
    } else {
      var before, tx := txs[..|txs| - 1], txs[|txs| - 1];
      var s, a := Run(cfg, before), HistoryOf(cfg, before, p);
      RunLaws(cfg, before, p);
      hide Laws, Good, Apply, Valid, Note;
      if Valid(s, tx) {
        RunLaws(cfg, before, tx.poll);
        OwnStep(cfg, s, tx, HistoryOf(cfg, before, tx.poll));
        if tx.poll != p {
          OtherStep(cfg, s, tx, p, a);
        }
      }
    }
  }
}
