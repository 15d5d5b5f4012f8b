/** What an accepted transaction leaves in the lists, in terms of the transaction alone:
    the ballots of a flush as they were cast, the ballot of an update as it was chosen, and
    what either does to a recount. */
module VotingEffects {
  import opened Ordering
  import opened TwoList
  import opened VotingSpec
  import opened VotingLaws
  import opened VotingRuns

  // ----- a flush -----

  /** What is stored under a key is this cast and nothing else. */
  ghost predicate StoredAs(votes: map<Key, Vote>, k: Key, choices: seq<Str>, pubKeyHash: Str) {
    && k in votes && votes[k].choices == choices && votes[k].pubKeyHash == pubKeyHash
    && votes[k].partition == Unassigned && !votes[k].superseded
  }

  lemma WrittenAs(votes: map<Key, Vote>, p: Str, casts: seq<Cast>, c: Cast)
    requires Distinct(BallotIds(casts)) && c in casts
    ensures StoredAs(WriteVotes(votes, p, Sort(CastLe, casts)), (p, c.ballotId), c.choices, c.pubKeyHash)
  {
    hide Sort, WriteVotes, Distinct, CastLe;
    var sorted := Sort(CastLe, casts);
    SameMembers(p, sorted, casts);
    var i :| 0 <= i < |sorted| && sorted[i] == c;
    WrittenVote(votes, p, sorted, i);
  }

  lemma AfterFlushLists(cfg: Config, s: State, p: Str, casts: seq<Cast>)
    requires p in s.polls
    ensures var t, u := AfterFlush(cfg, s, p, casts), FlushedLists(s, p, casts);
      && t.votes == u.votes && t.voters == u.voters && t.polls == u.polls
      && t.confirms == s.confirms && t.rescissions == s.rescissions && t.restores == s.restores
      && t.tallies == s.tallies
  {
    hide RolledAfter, WriteVotes, WriteVoters, Sort;
  }

  /** Every ballot of an accepted flush is stored with its own choices and key hash, and
      every identity is registered. Nothing else enters either list, nothing leaves them,
      and every other ballot is as it was. */
  lemma {:induction false} FlushStores(cfg: Config, s: State, p: Str, casts: seq<Cast>, now: int)
    requires Valid(s, BatchFlush(p, casts, now))
    ensures var t := Apply(cfg, s, BatchFlush(p, casts, now));
      && (forall c | c in casts :: StoredAs(t.votes, (p, c.ballotId), c.choices, c.pubKeyHash))
      && t.votes.Keys == s.votes.Keys + BallotKeys(p, casts)
      && (forall k | k in s.votes && k !in BallotKeys(p, casts) :: t.votes[k] == s.votes[k])
      && t.voters == s.voters + IdentityKeys(p, casts)
      && t.confirms == s.confirms && t.rescissions == s.rescissions && t.restores == s.restores
      && t.tallies == s.tallies
  {
    hide *;
    FlushChecked(s, p, casts, now);
    FlushApplied(cfg, s, p, casts, now, NOTHING);
    AfterFlushLists(cfg, s, p, casts);
    FlushGrows(s, p, casts);
    GrownSays(s, FlushedLists(s, p, casts), p, BallotKeys(p, casts), IdentityKeys(p, casts));
    forall c | c in casts
      ensures StoredAs(Apply(cfg, s, BatchFlush(p, casts, now)).votes, (p, c.ballotId), c.choices, c.pubKeyHash)
    {
      WrittenAs(s.votes, p, casts, c);
      FlushedVotes(s, p, casts);
    }
  }

  lemma GrownSays(s: State, t: State, p: Str, bs: set<Key>, ids: set<Key>)
    requires Grown(s, t, p, bs, ids)
    ensures t.votes.Keys == s.votes.Keys + bs && t.voters == s.voters + ids
    ensures forall k | k in s.votes && k !in bs :: t.votes[k] == s.votes[k]
  {
  }

  lemma FlushedVotes(s: State, p: Str, casts: seq<Cast>)
    requires p in s.polls
    ensures FlushedLists(s, p, casts).votes == WriteVotes(s.votes, p, Sort(CastLe, casts))
  {
    hide WriteVotes, WriteVoters, Sort;
  }

  ghost function BackingCasts(m: Method, casts: seq<Cast>, o: Str): set<Cast> {
    set c | c in casts && Backs(m, c.choices, o)
  }

  lemma {:induction false} CastKeyCount(p: Str, casts: set<Cast>)
    requires forall c, d | c in casts && d in casts && c.ballotId == d.ballotId :: c == d
    ensures |set c | c in casts :: (p, c.ballotId)| == |casts|
  {
    if casts != {} {
      var c :| c in casts;
      CastKeyCount(p, casts - {c});
      assert (set x | x in casts :: (p, x.ballotId)) == (set x | x in casts - {c} ::
        (p, x.ballotId)) + {(p, c.ballotId)};
    }
  }

  lemma OneCastPerId(casts: seq<Cast>, c: Cast, d: Cast)
    requires Distinct(BallotIds(casts)) && c in casts && d in casts && c.ballotId == d.ballotId
    ensures c == d
  {
    var i :| 0 <= i < |casts| && casts[i] == c;
    var j :| 0 <= j < |casts| && casts[j] == d;
    assert BallotIds(casts)[i] == BallotIds(casts)[j];
  }

  lemma Replacing(was: set<Key>, gone: set<Key>, come: set<Key>)
    requires come <= gone
    ensures |was - gone + come| == |was| - |was * gone| + |come|
  {
    assert was == (was - gone) + was * gone;
    assert |was| == |was - gone| + |was * gone|;
    assert (was - gone) !! come;
  }

  /** For every option a flush takes from the recount what the overwritten ballots backed
      and adds the number of its casts whose own choices back the option. */
  lemma {:induction false} FlushRecount(cfg: Config, s: State, p: Str, casts: seq<Cast>, now: int, o: Str)
    requires Valid(s, BatchFlush(p, casts, now))
    ensures var t, m := Apply(cfg, s, BatchFlush(p, casts, now)), s.polls[p].votingMethod;
      && p in t.polls && t.polls[p].votingMethod == m
      && Recount(t, p, o) == Recount(s, p, o) - |Backers(s, p, o) * BallotKeys(p, casts)| + |BackingCasts(m, casts, o)|
  {
    hide Valid, Apply, Distinct, Backs, StoredAs, BallotKeys, IdentityKeys;
    FlushChecked(s, p, casts, now);
    var t, m := Apply(cfg, s, BatchFlush(p, casts, now)), s.polls[p].votingMethod;
    var come := set c | c in BackingCasts(m, casts, o) :: (p, c.ballotId);
    FlushStores(cfg, s, p, casts, now);
    FlushKeepsMethod(cfg, s, p, casts, now);
    forall c, d | c in casts && d in casts && c.ballotId == d.ballotId ensures c == d {
      OneCastPerId(casts, c, d);
    }
    CastKeyCount(p, BackingCasts(m, casts, o));
    NewBackers(s, t, p, casts, o);
    CastKeys(p, casts);
    Replacing(Backers(s, p, o), BallotKeys(p, casts), come);
  }

  lemma FlushKeepsMethod(cfg: Config, s: State, p: Str, casts: seq<Cast>, now: int)
    requires Valid(s, BatchFlush(p, casts, now))
    ensures var t := Apply(cfg, s, BatchFlush(p, casts, now));
      p in s.polls && p in t.polls && t.polls[p] == s.polls[p].(idvCastCount := s.polls[p].idvCastCount + |casts|)
  {
    FlushChecked(s, p, casts, now);
    hide RolledAfter, WriteVotes, WriteVoters, Sort, ValidCast;
    AfterFlushLists(cfg, s, p, casts);
  }

  lemma CastKeys(p: Str, casts: seq<Cast>)
    ensures BallotKeys(p, casts) == set c | c in casts :: (p, c.ballotId)
  {
    forall c | c in casts ensures (p, c.ballotId) in BallotKeys(p, casts) {
      var i :| 0 <= i < |casts| && casts[i] == c;
      assert BallotIds(casts)[i] == c.ballotId;
    }
    forall k | k in BallotKeys(p, casts) ensures exists c :: c in casts && k == (p, c.ballotId) {
      var i :| 0 <= i < |casts| && BallotIds(casts)[i] == k.1;
      assert casts[i] in casts;
    }
  }

  lemma NewBackers(s: State, t: State, p: Str, casts: seq<Cast>, o: Str)
    requires p in s.polls && p in t.polls && t.polls[p].votingMethod == s.polls[p].votingMethod
    requires forall c | c in casts :: StoredAs(t.votes, (p, c.ballotId), c.choices, c.pubKeyHash)
    requires t.votes.Keys == s.votes.Keys + BallotKeys(p, casts)
    requires forall k | k in s.votes && k !in BallotKeys(p, casts) :: t.votes[k] == s.votes[k]
    requires forall c, d | c in casts && d in casts && c.ballotId == d.ballotId :: c == d
    ensures Backers(t, p, o) == Backers(s, p, o) - BallotKeys(p, casts)
        + set c | c in BackingCasts(s.polls[p].votingMethod, casts, o) :: (p, c.ballotId)
  {
    CastKeys(p, casts);
    hide Backs, BallotKeys;
    var come := set c | c in BackingCasts(s.polls[p].votingMethod, casts, o) :: (p, c.ballotId);
    forall k | k in Backers(t, p, o) && k in BallotKeys(p, casts) ensures k in come {
      var c :| c in casts && k == (p, c.ballotId);
      assert c in BackingCasts(s.polls[p].votingMethod, casts, o);
    }
    forall k | k in come ensures k in Backers(t, p, o) {
      var c :| c in BackingCasts(s.polls[p].votingMethod, casts, o) && k == (p, c.ballotId);
    }
  }

  // ----- an update, a withdrawal, a rescission, a reseal -----

  predicate IsReplacement(tx: Tx) {
    tx.UpdateBallot? && tx.newChoices != []
  }

  predicate IsWithdrawal(tx: Tx) {
    tx.UpdateBallot? && tx.newChoices == []
  }

  /** An accepted update with new choices: the new id carries exactly these choices, the
      old id is gone, and nothing else changes. */
  lemma {:induction false} UpdateStores(cfg: Config, s: State, tx: Tx)
    requires IsReplacement(tx) && Valid(s, tx)
    ensures var t, was, now := Apply(cfg, s, tx), (tx.poll, tx.oldBallot), (tx.poll, tx.newBallot);
      && StoredAs(t.votes, now, tx.newChoices, [])
      && t.votes.Keys == s.votes.Keys - {was} + {now}
      && (forall k | k in s.votes && k != was && k != now :: t.votes[k] == s.votes[k])
      && t == s.(votes := t.votes)
  {
  }

  /** For every option an update takes from the recount what the ballots under the two ids
      backed and adds the new ballot if its choices back the option. */
  lemma {:induction false} UpdateRecount(cfg: Config, s: State, tx: Tx, o: Str)
    requires IsReplacement(tx) && Valid(s, tx)
    ensures var t, p, ids := Apply(cfg, s, tx), tx.poll, {(tx.poll, tx.oldBallot), (tx.poll, tx.newBallot)};
      p in s.polls && p in t.polls && Recount(t, p, o)
        == Recount(s, p, o) - |Backers(s, p, o) * ids| + One(Backs(s.polls[p].votingMethod, tx.newChoices, o))
  {
    hide Apply, Valid, Backs, StoredAs, Backers, Recount;
    UpdateStores(cfg, s, tx);
    ReplacementChecked(s, tx);
    var was, now := (tx.poll, tx.oldBallot), (tx.poll, tx.newBallot);
    ReplacedBackers(s, Apply(cfg, s, tx), tx.poll, was, now, tx.newChoices, o);
  }

  lemma ReplacementChecked(s: State, tx: Tx)
    requires IsReplacement(tx) && Valid(s, tx)
    ensures tx.poll in s.polls
  {
  }

  lemma ReplacedBackers(s: State, t: State, p: Str, was: Key, now: Key, choices: seq<Str>, o: Str)
    requires p in s.polls && was.0 == now.0 == p && StoredAs(t.votes, now, choices, [])
    requires t.votes.Keys == s.votes.Keys - {was} + {now} && t == s.(votes := t.votes)
    requires forall k | k in s.votes && k != was && k != now :: t.votes[k] == s.votes[k]
    ensures Recount(t, p, o)
         == Recount(s, p, o) - |Backers(s, p, o) * {was, now}| + One(Backs(s.polls[p].votingMethod, choices, o))
  {
    hide Backs, Backers, StoredAs;
    var come := if Backs(s.polls[p].votingMethod, choices, o) then {now} else {};
    var left := Backers(s, p, o) - {was, now};
    forall k ensures k in Backers(t, p, o) <==> k in left + come {
      ReplacedBacker(s, t, p, was, now, choices, o, k);
    }
    assert Backers(t, p, o) == left + come;
    Replacing(Backers(s, p, o), {was, now}, come);
  }

  lemma ReplacedBacker(s: State, t: State, p: Str, was: Key, now: Key, choices: seq<Str>, o: Str, k: Key)
    requires p in s.polls && was.0 == now.0 == p && StoredAs(t.votes, now, choices, [])
    requires t.votes.Keys == s.votes.Keys - {was} + {now} && t == s.(votes := t.votes)
    requires forall k | k in s.votes && k != was && k != now :: t.votes[k] == s.votes[k]
    ensures k in Backers(t, p, o) <==>
      if k == now then Backs(s.polls[p].votingMethod, choices, o) else k != was && k in Backers(s, p, o)
  {
    hide Backs;
    assert k in t.votes <==> k == now || (k in s.votes && k != was);
  }

  /** A withdrawal and a rescission take out the ballot, the registration and the
      confirmation they name, and no other. */
  lemma {:induction false} Removes(cfg: Config, s: State, tx: Tx, ballot: Str)
    requires Valid(s, tx)
    requires (IsWithdrawal(tx) && ballot == tx.oldBallot) || (tx.AuthorityRescind? && ballot == tx.ballot)
    ensures var t := Apply(cfg, s, tx);
      && t.votes == s.votes - {(tx.poll, ballot)}
      && t.voters == s.voters - {(tx.poll, tx.identity)} && t.confirms == s.confirms - {(tx.poll, tx.identity)}
      && t.rescissions == (if IsWithdrawal(tx) then s.rescissions else s.rescissions + {(tx.poll, ballot)})
      && t.restores == s.restores
  {
    hide RescindedPoll, RescindedTally;
  }

  /** A reseal keeps what the ballot says. */
  lemma ResealKeeps(cfg: Config, s: State, tx: Tx)
    requires tx.ResealVote? && Valid(s, tx)
    ensures var t, k := Apply(cfg, s, tx), (tx.poll, tx.ballot);
      && k in s.votes && s.votes[k].pubKeyHash == tx.pubKeyHash != []
      && t.votes == s.votes[k := s.votes[k].(partition := Sealed)]
      && t.voters == s.voters && t.confirms == s.confirms && t.rescissions == s.rescissions && t.restores == s.restores
  {
  }

  /** No other transaction touches the lists. */
  lemma {:induction false} OthersKeep(cfg: Config, s: State, tx: Tx)
    requires Valid(s, tx) && !tx.BatchFlush? && !tx.UpdateBallot? && !tx.ResealVote? && !tx.AuthorityRescind?
    ensures var t := Apply(cfg, s, tx);
      && t.votes == s.votes && t.voters == s.voters && t.rescissions == s.rescissions
      && t.confirms == (if tx.ConfirmReceipt? then s.confirms + {(tx.poll, tx.identity)} else s.confirms)
      && t.restores == (if tx.AuthorityRestore? then s.restores + {(tx.poll, tx.identity)} else s.restores)
  {
    hide FreshTally, ListsMatch;
  }

  // ----- what a batch id says -----

  predicate ZeroFree(s: Str) {
    0 !in s
  }

  lemma LaterSeparator(a: Str, x: Str, b: Str, y: Str)
    requires a + [0] + x == b + [0] + y && |a| < |b|
    ensures 0 in x
  {
    var k := a + [0] + x;
    assert k[|b|] == (b + [0] + y)[|b|] == 0;
    assert k[|b|] == x[|b| - |a| - 1];
  }

  lemma LastPart(a: Str, x: Str, b: Str, y: Str)
    requires ZeroFree(x) && ZeroFree(y) && a + [0] + x == b + [0] + y
    ensures a == b && x == y
  {
    if |a| < |b| {
      LaterSeparator(a, x, b, y);
    } else if |b| < |a| {
      LaterSeparator(b, y, a, x);
    }
    var k := a + [0] + x;
    assert k[..|a|] == a && (b + [0] + y)[..|b|] == b;
    assert k[|a| + 1..] == x && (b + [0] + y)[|b| + 1..] == y;
  }

  lemma Separated(p: Str, ids: seq<Str>)
    ensures ids != [] ==> 0 in BatchBytes(p, ids)
  {
    if ids != [] {
      assert BatchBytes(p, ids)[|BatchBytes(p, ids[..|ids| - 1])|] == 0;
    }
  }

  /** The hashed bytes name the poll and the ids, each in its place: no two batches share
      them as long as neither the poll nor an id contains the separator. */
  lemma {:induction false} BatchBytesBind(p: Str, ids: seq<Str>, q: Str, others: seq<Str>)
    requires ZeroFree(p) && ZeroFree(q) && (forall id | id in ids :: ZeroFree(id))
    requires forall id | id in others :: ZeroFree(id)
    ensures BatchBytes(p, ids) == BatchBytes(q, others) <==> p == q && ids == others
    decreases |ids|
  {
    Separated(p, ids);
    Separated(q, others);
    if BatchBytes(p, ids) == BatchBytes(q, others) {
      if ids != [] && others != [] {
        var m, n := |ids| - 1, |others| - 1;
        LastPart(BatchBytes(p, ids[..m]), ids[m], BatchBytes(q, others[..n]), others[n]);
        BatchBytesBind(p, ids[..m], q, others[..n]);
        assert ids == ids[..m] + [ids[m]] && others == others[..n] + [others[n]];
      }
    }
  }
}
