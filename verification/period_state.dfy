/** The period machine as the object that updates its maps in place, with its error cases. */
module PeriodState {
  import opened Ordering
  import opened Merkle
  import opened TwoList
  import opened PeriodSpec

  datatype Outcome =
    | Ok | AlreadyExists | DuplicateParticipant | WriteOnlyPosture | SubmissionNotFound
    | ParticipantNotRegistered | PeriodNotFound | AlreadyClosed | CountMismatch

  lemma LiveStep(subs: map<Key, Submission>, p: Str, keys: set<Key>, k: Key)
    requires k in subs && k !in keys
    ensures var more := LiveKeys(subs, p, keys + {k});
      if k.0 == p && !subs[k].superseded
      then multiset(Ids(more)) == multiset(Ids(LiveKeys(subs, p, keys))) + multiset{k.1}
      else more == LiveKeys(subs, p, keys)
  {
    if k.0 == p && !subs[k].superseded {
      IdsGrow(p, LiveKeys(subs, p, keys), k);
      assert LiveKeys(subs, p, keys + {k}) == LiveKeys(subs, p, keys) + {k};
    }
  }

  ghost function LiveKeys(subs: map<Key, Submission>, p: Str, keys: set<Key>): set<Key> {
    set k | k in subs && k in keys && k.0 == p && !subs[k].superseded
  }

  method CollectSubmissionIds(subs: map<Key, Submission>, p: Str) returns (ids: seq<Str>)
    ensures multiset(ids) == multiset(Ids(LiveKeys(subs, p, subs.Keys)))
  {
    ids := [];
    var rest := subs.Keys;
    ghost var done: set<Key> := {};
    while rest != {}
      invariant done + rest == subs.Keys && done !! rest
      invariant multiset(ids) == multiset(Ids(LiveKeys(subs, p, done)))
      decreases rest
    {
      var k :| k in rest;
      LiveStep(subs, p, done, k);
      if k.0 == p && !subs[k].superseded {
        ids := ids + [k.1];
      }
      rest, done := rest - {k}, done + {k};
    }
  }

  lemma SameAttestation(cfg: Config, s: State, t: State, p: Str)
    requires s.submissions == t.submissions && s.participants == t.participants && s.checkpoints == t.checkpoints
    ensures (ListsMatch(s, p) <==> ListsMatch(t, p)) && NextCheckpoints(cfg, s, p) == NextCheckpoints(cfg, t, p)
  {
    hide SetRoot;
    assert Live(s, p) == Live(t, p) && L2(s, p) == L2(t, p);
  }

  class TwoListBase {
    const cfg: Config
    var periods: map<Str, Status>
    var submissions: map<Key, Submission>
    var participants: set<Key>
    var closures: map<Str, Closure>
    var submissionCounts: map<Str, nat>
    var checkpoints: map<Str, seq<Checkpoint>>

    ghost function Snapshot(): State
      reads this
    {
      State(periods, submissions, participants, closures, submissionCounts, checkpoints)
    }

    constructor (cfg: Config)
      ensures this.cfg == cfg && Snapshot() == EMPTY
    {
      this.cfg := cfg;
      periods, submissions, participants, closures := map[], map[], {}, map[];
      submissionCounts, checkpoints := map[], map[];
    }

    method CreatePeriod(p: Str) returns (r: Outcome)
      modifies this
      ensures r == if p in old(periods) then AlreadyExists else Ok
      ensures Snapshot() == if r.Ok? then Apply(cfg, old(Snapshot()), Create(p)) else old(Snapshot())
    {
      if p in periods {
        return AlreadyExists;
      }
      periods := periods[p := Open];
      r := Ok;
    }

    method CollectPeriodLists(p: Str) returns (ids: seq<Str>, identities: seq<Str>)
      ensures multiset(ids) == multiset(Ids(Live(Snapshot(), p))) && |ids| == |Live(Snapshot(), p)|
      ensures multiset(identities) == multiset(Ids(L2(Snapshot(), p))) && |identities| == |L2(Snapshot(), p)|
    {
      ids := CollectSubmissionIds(submissions, p);
      identities := CollectIdentities(participants, p);
      assert LiveKeys(submissions, p, submissions.Keys) == Live(Snapshot(), p);
      assert (set k | k in participants && k.0 == p) == L2(Snapshot(), p);
      IdCount(p, Live(Snapshot(), p));
      IdCount(p, L2(Snapshot(), p));
      assert |multiset(ids)| == |ids| && |multiset(identities)| == |identities|;
    }

    method CommitLists(p: Str) returns (ok: bool, total: int, l1: Str, l2: Str)
      ensures ok == ListsMatch(Snapshot(), p)
      ensures ok ==>
        && total == |Live(Snapshot(), p)|
        && l1 == L1Root(cfg, Snapshot(), p) && l2 == L2Root(cfg, Snapshot(), p)
    {
      total, l1, l2 := 0, [], [];
      var ids, identities := CollectPeriodLists(p);
      ok := |identities| == |ids|;
      if ok {
        CollectedRoot(cfg.h, Ids(Live(Snapshot(), p)), ids);
        CollectedRoot(cfg.h, Ids(L2(Snapshot(), p)), identities);
        hide SetRoot, Root;
        total := |ids|;
        l1 := ComputeMerkleRoot(cfg.h, ids);
        l2 := ComputeMerkleRoot(cfg.h, identities);
      }
    }

    method CommitRollingAttestation(p: Str) returns (ok: bool)
      modifies `checkpoints
      ensures ok == ListsMatch(old(Snapshot()), p)
      ensures checkpoints == if ok then old(checkpoints)[p := NextCheckpoints(cfg, old(Snapshot()), p)]
          else old(checkpoints)
    {
      hide SetRoot;
      var total, l1, l2;
      ok, total, l1, l2 := CommitLists(p);
      if ok {
        var cps := GetOr(checkpoints, p, []);
        checkpoints := checkpoints[p := cps + [Checkpoint(|cps|, total, l1, l2)]];
      }
    }

    method SubmitToLists(p: Str, id: Str, identity: Str, payload: Str) returns (r: Outcome)
      modifies this
      ensures r == if (p, identity) in old(participants) then DuplicateParticipant else Ok
      ensures Snapshot() == if r.Ok? then Apply(cfg, old(Snapshot()), Submit(p, id, identity, payload))
          else old(Snapshot())
    {
      if (p, identity) in participants {
        return DuplicateParticipant;
      }
      submissions := submissions[(p, id) := Submission(payload, false)];
      participants := participants + {(p, identity)};
      assert Snapshot() == Written(old(Snapshot()), p, id, identity, payload);
      hide Attested, Written;
      AttestSubmission(p);
      r := Ok;
    }

    /** The rolling attestation of one submission. */
    method AttestSubmission(p: Str)
      modifies `submissionCounts, `checkpoints
      ensures Snapshot() == Attested(cfg, old(Snapshot()), p)
    {
      hide ListsMatch, NextCheckpoints;
      if cfg.rolling && cfg.threshold > 0 {
        submissionCounts := submissionCounts[p := GetOr(submissionCounts, p, 0) + 1];
        if submissionCounts[p] >= cfg.threshold {
          submissionCounts := submissionCounts[p := 0];
          assert submissionCounts == old(submissionCounts)[p := 0];
          SameAttestation(cfg, old(Snapshot()), Snapshot(), p);
          var ok := CommitRollingAttestation(p);
        }
      }
    }

    method UpdateSubmission(p: Str, oldId: Str, newId: Str, identity: Str, payload: Str) returns (r: Outcome)
      modifies this
      ensures r == if cfg.writeOnly then WriteOnlyPosture
                   else if (p, oldId) !in old(submissions) then SubmissionNotFound else Ok
      ensures Snapshot() == if r.Ok? then Apply(cfg, old(Snapshot()), Update(p, oldId, newId, identity, payload))
                            else old(Snapshot())
    {
      if cfg.writeOnly {
        return WriteOnlyPosture;
      }
      if (p, oldId) !in submissions {
        return SubmissionNotFound;
      }
      submissions := submissions - {(p, oldId)};
      submissions := submissions[(p, newId) := Submission(payload, false)];
      r := Ok;
    }

    method WithdrawFromLists(p: Str, id: Str, identity: Str) returns (r: Outcome)
      modifies this
      ensures r == if (p, id) !in old(submissions) then SubmissionNotFound
                   else if (p, identity) !in old(participants) then ParticipantNotRegistered else Ok
      ensures Snapshot() == if r.Ok? then Apply(cfg, old(Snapshot()), Withdraw(p, id, identity)) else old(Snapshot())
    {
      if (p, id) !in submissions {
        return SubmissionNotFound;
      }
      if (p, identity) !in participants {
        return ParticipantNotRegistered;
      }
      submissions := submissions - {(p, id)};
      participants := participants - {(p, identity)};
      r := Ok;
    }

    method ClosePeriod(p: Str) returns (r: Outcome)
      modifies this
      ensures r == if p !in old(periods) then PeriodNotFound
                   else if old(periods)[p] == Closed || p in old(closures) then AlreadyClosed
                   else if !ListsMatch(old(Snapshot()), p) then CountMismatch else Ok
      ensures Snapshot() == if r.Ok? then Apply(cfg, old(Snapshot()), Close(p)) else old(Snapshot())
    {
      hide L1Root, L2Root, Live, L2;
      if p !in periods {
        return PeriodNotFound;
      }
      if periods[p] == Closed || p in closures {
        return AlreadyClosed;
      }
      var ok, total, l1, l2 := CommitLists(p);
      if !ok {
        return CountMismatch;
      }
      periods := periods[p := Closed];
      closures := closures[p := Closure(total, l1, l2)];
      r := Ok;
    }
  }
}
