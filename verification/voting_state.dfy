/** The voting machine as the object that updates its maps in place. Every execute method
    is tied to the transition of VotingSpec; the loops over maps visit keys in any order. */
module VotingState {
  import opened Ordering
  import opened Merkle
  import opened TwoList
  import S = VotingSpec
  import opened VotingSpec
  import opened VotingLaws

  // ----- the loops of collectPollLists -----

  ghost function CountedKeys(votes: map<Key, Vote>, p: Str, keys: set<Key>): set<Key> {
    set k | k in votes && k in keys && k.0 == p && IsCounted(votes[k])
  }

  ghost function BackerKeys(votes: map<Key, Vote>, p: Str, m: Method, o: Str, keys: set<Key>): set<Key> {
    set k | k in votes && k in keys && k.0 == p && IsCounted(votes[k]) && VotesFor(m, votes[k], o)
  }

  lemma CountedKeysStep(votes: map<Key, Vote>, p: Str, keys: set<Key>, k: Key)
    requires k in votes && k !in keys
    ensures var more := CountedKeys(votes, p, keys + {k});
      if k.0 == p && IsCounted(votes[k])
      then multiset(Ids(more)) == multiset(Ids(CountedKeys(votes, p, keys))) + multiset{k.1}
      else more == CountedKeys(votes, p, keys)
  {
    if k.0 == p && IsCounted(votes[k]) {
      IdsGrow(p, CountedKeys(votes, p, keys), k);
      assert CountedKeys(votes, p, keys + {k}) == CountedKeys(votes, p, keys) + {k};
    }
  }

  lemma BackerKeysStep(votes: map<Key, Vote>, p: Str, m: Method, o: Str, keys: set<Key>, k: Key)
    requires k in votes && k !in keys
    ensures |BackerKeys(votes, p, m, o, keys + {k})|
         == |BackerKeys(votes, p, m, o, keys)| + One(k.0 == p && IsCounted(votes[k]) && VotesFor(m, votes[k], o))
  {
    if k.0 == p && IsCounted(votes[k]) && VotesFor(m, votes[k], o) {
      assert BackerKeys(votes, p, m, o, keys + {k}) == BackerKeys(votes, p, m, o, keys) + {k};
    } else {
      assert BackerKeys(votes, p, m, o, keys + {k}) == BackerKeys(votes, p, m, o, keys);
    }
  }

  method CollectBallotIds(votes: map<Key, Vote>, p: Str) returns (ids: seq<Str>)
    ensures multiset(ids) == multiset(Ids(CountedKeys(votes, p, votes.Keys)))
  {
    ids := [];
    var rest := votes.Keys;
    ghost var done: set<Key> := {};
    while rest != {}
      invariant done + rest == votes.Keys && done !! rest
      invariant multiset(ids) == multiset(Ids(CountedKeys(votes, p, done)))
      decreases rest
    {
      var k :| k in rest;
      CountedKeysStep(votes, p, done, k);
      if k.0 == p && IsCounted(votes[k]) {
        ids := ids + [k.1];
      }
      rest, done := rest - {k}, done + {k};
    }
  }

  /** The per-option counters: every choice of the ballot under approval voting, the first
      choice otherwise. */
  method CountBallot(m: Method, v: Vote, counts: map<Str, int>) returns (r: map<Str, int>)
    requires Distinct(v.choices) && forall c | c in v.choices :: c in counts
    ensures r.Keys == counts.Keys
    ensures forall o | o in counts :: r[o] == counts[o] + One(VotesFor(m, v, o))
  {
    r := counts;
    if m == Approval {
      for i := 0 to |v.choices|
        invariant r.Keys == counts.Keys
        invariant forall o | o in counts :: r[o] == counts[o] + One(o in v.choices[..i])
      {
        var c := v.choices[i];
        assert c in v.choices && c !in v.choices[..i];
        assert v.choices[..i + 1] == v.choices[..i] + [c];
        r := r[c := r[c] + 1];
      }
      assert v.choices[..|v.choices|] == v.choices;
    } else if |v.choices| > 0 {
      assert v.choices[0] in v.choices;
      r := r[v.choices[0] := r[v.choices[0]] + 1];
    }
  }

  method CountVotes(votes: map<Key, Vote>, p: Str, poll: Poll) returns (counts: map<Str, int>)
    requires forall k | k in votes && k.0 == p :: ValidChoices(poll, votes[k].choices)
    ensures counts.Keys == set o | o in poll.options
    ensures forall o | o in counts :: counts[o] == |BackerKeys(votes, p, poll.votingMethod, o, votes.Keys)|
  {
    counts := map o | o in poll.options :: 0;
    var rest := votes.Keys;
    ghost var done: set<Key> := {};
    while rest != {}
      invariant done + rest == votes.Keys && done !! rest
      invariant counts.Keys == set o | o in poll.options
      invariant forall o | o in counts :: counts[o] == |BackerKeys(votes, p, poll.votingMethod, o, done)|
      decreases rest
    {
      var k :| k in rest;
      forall o | o in counts ensures |BackerKeys(votes, p, poll.votingMethod, o, done + {k})|
        == |BackerKeys(votes, p, poll.votingMethod, o, done)|
           + One(k.0 == p && IsCounted(votes[k]) && VotesFor(poll.votingMethod, votes[k], o))
      {
        BackerKeysStep(votes, p, poll.votingMethod, o, done, k);
      }
      if k.0 == p && IsCounted(votes[k]) {
        counts := CountBallot(poll.votingMethod, votes[k], counts);
      }
      rest, done := rest - {k}, done + {k};
    }
  }

  class VotingState {
    const cfg: Config
    var polls: map<Str, Poll>
    var votes: map<Key, Vote>
    var voters: set<Key>
    var confirms: set<Key>
    var rescissions: set<Key>
    var restores: set<Key>
    var tallies: map<Str, Tally>
    var submissionCounts: map<Str, nat>
    var checkpoints: map<Str, seq<Checkpoint>>

    ghost function Snapshot(): State
      reads this
    {
      State(polls, votes, voters, confirms, rescissions, restores, tallies, submissionCounts, checkpoints)
    }

    constructor (cfg: Config)
      ensures this.cfg == cfg && Snapshot() == S.EMPTY
    {
      this.cfg := cfg;
      polls, votes, voters, confirms, rescissions, restores := map[], map[], {}, {}, {}, {};
      tallies, submissionCounts, checkpoints := map[], map[], map[];
    }

    method ExecutePollCreate(tx: Tx)
      requires tx.CreatePoll? && Valid(Snapshot(), tx)
      modifies this
      ensures Snapshot() == Apply(cfg, old(Snapshot()), tx)
    {
      polls := polls[tx.poll := Poll(tx.options, tx.votingMethod, tx.startTime, tx.endTime, Pending, tx.keys, 0, 0, 0)];
    }

    /** The side effect of validating a ballot: a pending poll whose window has begun opens. */
    method OpenPending(tx: Tx)
      requires tx.OpenPoll? && Valid(Snapshot(), tx)
      modifies this
      ensures Snapshot() == Apply(cfg, old(Snapshot()), tx)
    {
      polls := polls[tx.poll := polls[tx.poll].(status := Open)];
    }

    method ExecuteBallotUpdate(tx: Tx)
      requires tx.UpdateBallot? && Valid(Snapshot(), tx)
      modifies this
      ensures Snapshot() == Apply(cfg, old(Snapshot()), tx)
    {
      var p := tx.poll;
      if |tx.newChoices| == 0 {
        votes := votes - {(p, tx.oldBallot)};
        voters := voters - {(p, tx.identity)};
        confirms := confirms - {(p, tx.identity)};
        return;
      }
      votes := votes - {(p, tx.oldBallot)};
      votes := votes[(p, tx.newBallot) := Vote(tx.newChoices, Unassigned, false, [])];
    }

    method ExecuteResealVote(tx: Tx)
      requires tx.ResealVote? && Valid(Snapshot(), tx)
      modifies this
      ensures Snapshot() == Apply(cfg, old(Snapshot()), tx)
    {
      var k := (tx.poll, tx.ballot);
      votes := votes[k := votes[k].(partition := Sealed)];
      polls := polls[tx.poll := polls[tx.poll].(sealedCount := polls[tx.poll].sealedCount + 1)];
    }

    method ConfirmedCountForPoll(p: Str) returns (count: int)
      ensures count == |ConfirmsOf(Snapshot(), p)|
    {
      count := 0;
      var rest := confirms;
      ghost var found: set<Key> := {};
      while rest != {}
        invariant rest <= confirms && found == (set k | k in confirms - rest && k.0 == p)
        invariant count == |found|
        decreases rest
      {
        var k :| k in rest;
        if k.0 == p {
          count, found := count + 1, found + {k};
        }
        rest := rest - {k};
      }
      assert found == ConfirmsOf(Snapshot(), p);
    }

    method ExecuteConfirmReceipt(tx: Tx)
      requires tx.ConfirmReceipt? && Valid(Snapshot(), tx)
      modifies this
      ensures Snapshot() == Apply(cfg, old(Snapshot()), tx)
    {
      var p := tx.poll;
      confirms := confirms + {(p, tx.identity)};
      polls := polls[p := polls[p].(reattestationCount := polls[p].reattestationCount + 1)];
      if p in tallies {
        var n := ConfirmedCountForPoll(p);
        tallies := tallies[p := tallies[p].(confirmedCount := n)];
      }
    }

    /** The tally adjustment of a rescission on a closed poll. */
    method RescindFromTally(p: Str, vote: Vote)
      requires p in polls && p in tallies
      modifies `tallies
      ensures tallies == old(tallies)[p := RescindedTally(old(tallies[p]), polls[p].votingMethod, vote)]
    {
      var t := tallies[p];
      t := t.(totalVotes := t.totalVotes - 1);
      if polls[p].votingMethod == Ranked {
        if |vote.choices| > 0 {
          t := t.(counts := Decrement(t.counts, vote.choices[0]));
        }
      } else {
        ghost var before := t;
        for i := 0 to |vote.choices|
          invariant t == before.(counts := DecrementAll(before.counts, vote.choices[..i]))
        {
          assert vote.choices[..i + 1][..i] == vote.choices[..i];
          t := t.(counts := Decrement(t.counts, vote.choices[i]));
        }
        assert vote.choices[..|vote.choices|] == vote.choices;
      }
      tallies := tallies[p := t.(rescissionCount := t.rescissionCount + 1, attestationDegraded := true)];
    }

    /** The confirmation and the guarded counters of the poll. */
    method RescindFromPoll(p: Str, id: Key, vote: Vote)
      requires p in polls
      modifies `polls, `confirms
      ensures polls == old(polls)[p := RescindedPoll(old(polls)[p], id in old(confirms), vote)]
      ensures confirms == old(confirms) - {id}
    {
      if id in confirms {
        confirms := confirms - {id};
        if polls[p].reattestationCount > 0 {
          polls := polls[p := polls[p].(reattestationCount := polls[p].reattestationCount - 1)];
        }
      }
      if vote.partition == Sealed && polls[p].sealedCount > 0 {
        polls := polls[p := polls[p].(sealedCount := polls[p].sealedCount - 1)];
      }
    }

    method ExecuteAuthorityRescind(tx: Tx)
      requires tx.AuthorityRescind? && Valid(Snapshot(), tx)
      modifies this
      ensures Snapshot() == Apply(cfg, old(Snapshot()), tx)
    {
      RescindReady(cfg, Snapshot(), tx);
      hide RescindedTally, RescindedPoll, Valid, Apply;
      var p, k, id := tx.poll, (tx.poll, tx.ballot), (tx.poll, tx.identity);
      var vote := votes[k];
      votes := votes - {k};
      voters := voters - {id};
      RescindFromPoll(p, id, vote);
      if p in tallies {
        RescindFromTally(p, vote);
      }
      rescissions := rescissions + {k};
    }

    method ExecuteAuthorityRestore(tx: Tx)
      requires tx.AuthorityRestore? && Valid(Snapshot(), tx)
      modifies this
      ensures Snapshot() == Apply(cfg, old(Snapshot()), tx)
    {
      restores := restores + {(tx.poll, tx.identity)};
    }
  
    /** collectPollLists and the count check in front of every attestation. */
    method CollectPollLists(p: Str) returns (ballotIds: seq<Str>, identities: seq<Str>)
      ensures multiset(ballotIds) == multiset(Ids(Counted(Snapshot(), p)))
      ensures multiset(identities) == multiset(Ids(L2(Snapshot(), p)))
      ensures |ballotIds| == |Counted(Snapshot(), p)| && |identities| == |L2(Snapshot(), p)|
    {
      ballotIds := CollectBallotIds(votes, p);
      identities := CollectIdentities(voters, p);
      assert CountedKeys(votes, p, votes.Keys) == Counted(Snapshot(), p);
      assert (set k | k in voters && k.0 == p) == L2(Snapshot(), p);
      IdCount(p, Counted(Snapshot(), p));
      IdCount(p, L2(Snapshot(), p));
      assert |multiset(ballotIds)| == |ballotIds| && |multiset(identities)| == |identities|;
    }

    /** What an attestation is made of: the count check, the total and the two roots. */
    method CommitLists(p: Str) returns (ok: bool, total: int, l1: Str, l2: Str)
      ensures ok == ListsMatch(Snapshot(), p)
      ensures ok ==>
        && total == |Counted(Snapshot(), p)|
        && l1 == SetRoot(cfg.h, Ids(Counted(Snapshot(), p))) && l2 == SetRoot(cfg.h, Ids(L2(Snapshot(), p)))
    {
      total, l1, l2 := 0, [], [];
      var ballotIds, identities := CollectPollLists(p);
      ok := |identities| == |ballotIds|;
      if ok {
        CollectedRoot(cfg.h, Ids(Counted(Snapshot(), p)), ballotIds);
        CollectedRoot(cfg.h, Ids(L2(Snapshot(), p)), identities);
        hide SetRoot, Root;
        total := |ballotIds|;
        l1 := ComputeMerkleRoot(cfg.h, ballotIds);
        l2 := ComputeMerkleRoot(cfg.h, identities);
      }
    }

    /** One rolling attestation: refused when the lists differ, else one more checkpoint. */
    method CommitRollingAttestation(p: Str) returns (ok: bool)
      modifies `checkpoints
      ensures ok == ListsMatch(old(Snapshot()), p)
      ensures !ok ==> checkpoints == old(checkpoints)
      ensures ok ==> checkpoints == old(checkpoints)[p := NextCheckpoints(cfg, old(Snapshot()), p)]
    {
      hide SetRoot;
      var total, l1, l2;
      ok, total, l1, l2 := CommitLists(p);
      if ok {
        var cps := GetOr(checkpoints, p, []);
        checkpoints := checkpoints[p := cps + [Checkpoint(|cps|, total, l1, l2)]];
      }
    }

    method ComputeTally(p: Str, degraded: bool) returns (ok: bool, tally: Tally)
      requires p in polls && GoodVotes(polls, votes)
      ensures ok == ListsMatch(Snapshot(), p)
      ensures ok ==> tally == FreshTally(cfg, Snapshot(), p, degraded)
    {
      hide SetRoot;
      var total, l1, l2;
      ok, total, l1, l2 := CommitLists(p);
      var counts := CountVotes(votes, p, polls[p]);
      forall o ensures BackerKeys(votes, p, polls[p].votingMethod, o, votes.Keys) == Backers(Snapshot(), p, o) {}
      assert counts == map o | o in polls[p].options :: Recount(Snapshot(), p, o);
      var confirmed := ConfirmedCountForPoll(p);
      tally := Tally(counts, total, confirmed, l1, l2, degraded, 0);
    }

    /** The final tally of a poll; nothing changes when the lists differ. */
    method ExecutePollClose(tx: Tx) returns (ok: bool)
      requires tx.ClosePoll? && Valid(Snapshot(), tx) && Good(Snapshot())
      modifies this
      ensures Snapshot() == Apply(cfg, old(Snapshot()), tx)
      ensures ok == ListsMatch(old(Snapshot()), tx.poll)
    {
      hide FreshTally, ListsMatch, GoodVotes;
      var p := tx.poll;
      var tally;
      ok, tally := ComputeTally(p, tx.degraded);
      if ok {
        polls := polls[p := polls[p].(status := Closed)];
        tallies := tallies[p := tally];
      }
    }

    /** Writing the sorted candidates of a batch into both lists. */
    method WriteCandidates(p: Str, candidates: seq<Cast>)
      modifies `votes, `voters
      ensures votes == WriteVotes(old(votes), p, candidates)
      ensures voters == WriteVoters(old(voters), p, candidates)
    {
      for i := 0 to |candidates|
        invariant votes == WriteVotes(old(votes), p, candidates[..i])
        invariant voters == WriteVoters(old(voters), p, candidates[..i])
      {
        var c := candidates[i];
        assert candidates[..i + 1][..i] == candidates[..i];
        votes := votes[(p, c.ballotId) := FlushedVote(c)];
        voters := voters + {(p, c.identity)};
      }
      assert candidates[..|candidates|] == candidates;
    }

    /** The cadence loop: as many checkpoints as full thresholds are pending. */
    method AttestPending(p: Str, n: nat) returns (ok: bool)
      requires cfg.rolling && cfg.threshold > 0
      modifies `submissionCounts, `checkpoints
      ensures Snapshot() == WithRolled(old(Snapshot()), p, RolledAfter(cfg, old(Snapshot()), p, n))
      ensures ok == RolledAfter(cfg, old(Snapshot()), p, n).ok
    {
      hide SetRoot, Ids, Counted, L2, ListsMatch, RollFrom, Roll, RolledAfter, NextCheckpoints, Appended;
      ghost var s := Snapshot();
      ghost var r := RolledAfter(cfg, s, p, n);
      RollStarts(cfg, s, p, n);
      NothingAppended(checkpoints, p);
      var pending: nat := GetOr(submissionCounts, p, 0) + n;
      submissionCounts := submissionCounts[p := pending];
      while pending >= cfg.threshold
        invariant votes == s.votes && voters == s.voters
        invariant submissionCounts == s.submissionCounts[p := pending]
        invariant Appended(s.checkpoints, checkpoints, p)
        invariant RollFrom(cfg, s, p, pending, GetOr(checkpoints, p, [])) == r
        decreases pending
      {
        pending := pending - cfg.threshold;
        submissionCounts := submissionCounts[p := pending];
        SameCommitments(s, Snapshot(), p);
        RollStep(cfg, s, Snapshot(), p, pending, GetOr(checkpoints, p, []));
        ghost var now := checkpoints;
        ok := CommitRollingAttestation(p);
        if !ok {
          AppendedResult(s, Snapshot(), p, r);
          return;
        }
        AppendedMore(s.checkpoints, now, p, checkpoints[p]);
      }
      RollEnds(cfg, s, p, pending, GetOr(checkpoints, p, []));
      AppendedResult(s, Snapshot(), p, r);
      ok := true;
    }

    /** The whole flush. On a failed attestation the lists stay written. */
    method ExecuteBatchFlush(tx: Tx) returns (ok: bool, batchId: Str)
      requires tx.BatchFlush? && Valid(Snapshot(), tx)
      modifies this
      ensures Snapshot() == Apply(cfg, old(Snapshot()), tx)
      ensures ok <==> FlushSucceeds(cfg, old(Snapshot()), tx.poll, tx.casts)
      ensures ok ==> batchId == BatchId(cfg, tx.poll, tx.casts)
    {
      hide RolledAfter, WithRolled, WriteVotes, WriteVoters, ValidCast, Sort;
      var p := tx.poll;
      var candidates := Sort(CastLe, tx.casts);
      WriteCandidates(p, candidates);
      polls := polls[p := polls[p].(idvCastCount := polls[p].idvCastCount + |candidates|)];
      ok, batchId := true, [];
      assert Snapshot() == FlushedLists(old(Snapshot()), p, tx.casts);
      if cfg.rolling && cfg.threshold > 0 {
        ok := AttestPending(p, |candidates|);
        if !ok {
          return;
        }
      }
      batchId := ComputeBatchId(p, BallotIds(candidates));
    }

    method ComputeBatchId(p: Str, ids: seq<Str>) returns (batchId: Str)
      ensures batchId == cfg.h(BatchBytes(p, ids))
    {
      var written := p;
      for i := 0 to |ids|
        invariant written == BatchBytes(p, ids[..i])
      {
        assert ids[..i + 1][..i] == ids[..i];
        written := written + [0] + ids[i];
      }
      assert ids[..|ids|] == ids;
      batchId := cfg.h(written);
    }
  }

  ghost function NextCheckpoints(cfg: Config, s: State, p: Str): seq<Checkpoint> {
    var cps := GetOr(s.checkpoints, p, []);
    cps + [Checkpoint(|cps|, |Counted(s, p)|, SetRoot(cfg.h, Ids(Counted(s, p))), SetRoot(cfg.h, Ids(L2(s, p))))]
  }

  ghost function RollFrom(cfg: Config, s: State, p: Str, counter: nat, cps: seq<Checkpoint>): Rolled
    requires cfg.threshold > 0
  {
    Roll(cfg.threshold, counter, cps, ListsMatch(s, p),
         |Counted(s, p)|, SetRoot(cfg.h, Ids(Counted(s, p))), SetRoot(cfg.h, Ids(L2(s, p))))
  }

  lemma RescindReady(cfg: Config, s: State, tx: Tx)
    requires tx.AuthorityRescind? && Valid(s, tx)
    ensures tx.poll in s.polls && (tx.poll, tx.ballot) in s.votes
    ensures Apply(cfg, s, tx) == Rescinded(s, tx.poll, tx.ballot, tx.identity)
  {
  }

  lemma {:induction false} RollStarts(cfg: Config, s: State, p: Str, n: nat)
    requires cfg.threshold > 0
    ensures RolledAfter(cfg, s, p, n) == RollFrom(cfg, s, p, GetOr(s.submissionCounts, p, 0) + n,
                                                  GetOr(s.checkpoints, p, []))
  {
    hide SetRoot, Ids, Counted, L2, ListsMatch, Roll;
  }

  lemma RollEnds(cfg: Config, s: State, p: Str, counter: nat, cps: seq<Checkpoint>)
    requires counter < cfg.threshold
    ensures RollFrom(cfg, s, p, counter, cps) == Rolled(counter, cps, true)
  {
    hide SetRoot, Ids, Counted, L2, ListsMatch;
  }

  /** The checkpoints map of the loop: untouched until the first append. */
  ghost predicate Appended(was: map<Str, seq<Checkpoint>>, now: map<Str, seq<Checkpoint>>, p: Str) {
    && GetOr(was, p, []) <= GetOr(now, p, [])
    && now == if GetOr(now, p, []) == GetOr(was, p, []) then was else was[p := GetOr(now, p, [])]
  }

  lemma NothingAppended(was: map<Str, seq<Checkpoint>>, p: Str)
    ensures Appended(was, was, p)
  {
  }

  lemma AppendedResult(s: State, t: State, p: Str, r: Rolled)
    requires Appended(s.checkpoints, t.checkpoints, p) && GetOr(t.checkpoints, p, []) == r.checkpoints
    requires t == s.(submissionCounts := s.submissionCounts[p := r.counter], checkpoints := t.checkpoints)
    ensures t == WithRolled(s, p, r)
  {
  }

  lemma AppendedMore(was: map<Str, seq<Checkpoint>>, now: map<Str, seq<Checkpoint>>, p: Str, cps: seq<Checkpoint>)
    requires Appended(was, now, p) && GetOr(now, p, []) < cps
    ensures Appended(was, now[p := cps], p)
  {
  }

  /** One turn of the loop, seen from a state with the same lists. */
  lemma RollStep(cfg: Config, s: State, t: State, p: Str, pending: nat, cps: seq<Checkpoint>)
    requires cfg.threshold > 0 && s.votes == t.votes && s.voters == t.voters && cps == GetOr(t.checkpoints, p, [])
    ensures RollFrom(cfg, s, p, pending + cfg.threshold, cps)
      == if ListsMatch(t, p) then RollFrom(cfg, s, p, pending, NextCheckpoints(cfg, t, p))
        else Rolled(pending, cps, false)
    ensures cps < NextCheckpoints(cfg, t, p)
  {
    SameCommitments(s, t, p);
    hide SetRoot, Ids, Counted, L2, ListsMatch;
  }

  lemma SameCommitments(s: State, t: State, p: Str)
    requires s.votes == t.votes && s.voters == t.voters
    ensures Counted(s, p) == Counted(t, p) && L2(s, p) == L2(t, p) && (ListsMatch(s, p) <==> ListsMatch(t, p))
  {
  }
}
