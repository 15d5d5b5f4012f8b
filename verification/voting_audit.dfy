/** Two documented balances of the audit counters that do not always hold: the run that
    breaks each, and the exact event that does it. */
module VotingAudit {
  import opened Ordering
  import opened TwoList
  import opened Payload
  import opened VotingSpec
  import opened VotingLaws
  import opened VotingTheorems

  // ----- the cap on confirmations -----

  ghost predicate OnlyConfirms(txs: seq<Tx>) {
    forall i | 0 <= i < |txs| :: txs[i].ConfirmReceipt?
  }

  ghost predicate CapHolds(s: State, p: Str) {
    p in s.polls && s.polls[p].reattestationCount <= |L2(s, p)|
  }

  lemma {:induction false} ConfirmsKeepHistory(cfg: Config, txs: seq<Tx>, more: seq<Tx>, p: Str)
    requires OnlyConfirms(more) && p in Run(cfg, txs).polls
    ensures p in Run(cfg, txs + more).polls
    ensures HistoryOf(cfg, txs + more, p) == HistoryOf(cfg, txs, p)
    decreases |more|
  {
    if more == [] {
      assert txs + more == txs;
    } else {
      var n := |more| - 1;
      assert txs + more == txs + more[..n] + [more[n]];
      assert (txs + more)[..|txs + more| - 1] == txs + more[..n];
      ConfirmsKeepHistory(cfg, txs, more[..n], p);
      hide Valid;
    }
  }

  lemma {:induction false} ConfirmOne(cfg: Config, txs: seq<Tx>, p: Str, identity: Str)
    requires var s := Run(cfg, txs); p in s.polls && (p, identity) in L2(s, p) && (p, identity) !in ConfirmsOf(s, p)
    ensures var s := Run(cfg, txs);
      var t := Run(cfg, txs + [ConfirmReceipt(p, identity, s.polls[p].startTime)]);
      && p in t.polls && L2(t, p) == L2(s, p) && ConfirmsOf(t, p) == ConfirmsOf(s, p) + {(p, identity)}
  {
    var s := Run(cfg, txs);
    AppendStep(cfg, txs, ConfirmReceipt(p, identity, s.polls[p].startTime));
    hide Run;
  }

  lemma VoterOf(s: State, p: Str, k: Key)
    requires k in L2(s, p)
    ensures k == (p, k.1)
  {
  }

  /** Every voter who has not confirmed yet can do so. */
  lemma {:induction false} ConfirmEveryone(cfg: Config, txs: seq<Tx>, p: Str) returns (more: seq<Tx>)
    requires p in Run(cfg, txs).polls && ConfirmsOf(Run(cfg, txs), p) <= L2(Run(cfg, txs), p)
    ensures OnlyConfirms(more)
    ensures var s, t := Run(cfg, txs), Run(cfg, txs + more);
      p in t.polls && L2(t, p) == L2(s, p) && ConfirmsOf(t, p) == L2(t, p)
    decreases |L2(Run(cfg, txs), p) - ConfirmsOf(Run(cfg, txs), p)|
  {
    hide Run, L2, ConfirmsOf;
    var s := Run(cfg, txs);
    var waiting := L2(s, p) - ConfirmsOf(s, p);
    if waiting == {} {
      more := [];
      assert txs + more == txs;
    } else {
      var k :| k in waiting;
      VoterOf(s, p, k);
      var tx := ConfirmReceipt(p, k.1, s.polls[p].startTime);
      ConfirmOne(cfg, txs, p, k.1);
      var t := Run(cfg, txs + [tx]);
      assert L2(t, p) - ConfirmsOf(t, p) == waiting - {k};
      assert ConfirmsOf(t, p) <= L2(t, p);
      var rest := ConfirmEveryone(cfg, txs + [tx], p);
      more := [tx] + rest;
      assert txs + more == txs + [tx] + rest;
    }
  }

  /** The poll record documents ReattestationCount as capped by the number of registered
      voters. The cap holds, however many of the voters still confirm, exactly when no
      confirmed identity has ever withdrawn. */
  lemma {:induction false} CapExactly(cfg: Config, txs: seq<Tx>, p: Str)
    requires p in Run(cfg, txs).polls
    ensures HistoryOf(cfg, txs, p).withdrawnConfirms == 0
       <==> forall more | OnlyConfirms(more) :: CapHolds(Run(cfg, txs + more), p)
  {
    AuditExact(cfg, txs, p);
    if HistoryOf(cfg, txs, p).withdrawnConfirms == 0 {
      forall more | OnlyConfirms(more) ensures CapHolds(Run(cfg, txs + more), p) {
        ConfirmsKeepHistory(cfg, txs, more, p);
        AuditExact(cfg, txs + more, p);
        hide Run, HistoryOf, OnlyConfirms;
        SmallerSet(ConfirmsOf(Run(cfg, txs + more), p), L2(Run(cfg, txs + more), p));
      }
    } else {
      var more := ConfirmEveryone(cfg, txs, p);
      ConfirmsKeepHistory(cfg, txs, more, p);
      AuditExact(cfg, txs + more, p);
      assert !CapHolds(Run(cfg, txs + more), p);
    }
  }

  lemma SmallerSet<T>(a: set<T>, b: set<T>)
    requires a <= b
    ensures |a| <= |b|
  {
    assert b == a + (b - a);
  }

  // ----- small runs -----

  lemma AppendStep(cfg: Config, txs: seq<Tx>, tx: Tx)
    ensures Run(cfg, txs + [tx]) == Step(cfg, Run(cfg, txs), tx)
  {
    assert (txs + [tx])[..|txs|] == txs;
  }

  lemma OneVoter(cfg: Config, s: State, p: Str, c: Cast)
    requires p in s.polls && s.votes == map[] && s.voters == {} && s.confirms == {}
    ensures var t := AfterFlush(cfg, s, p, [c]);
      && t.voters == {(p, c.identity)} && t.votes == map[(p, c.ballotId) := FlushedVote(c)] && t.confirms == {}
      && t.polls == s.polls[p := s.polls[p].(idvCastCount := s.polls[p].idvCastCount + 1)]
  {
    hide RolledAfter;
    FlushGrows(s, p, [c]);
    assert Identities([c]) == [c.identity] && BallotIds([c]) == [c.ballotId];
    assert IdentityKeys(p, [c]) == {(p, c.identity)} && BallotKeys(p, [c]) == {(p, c.ballotId)};
  }

  lemma FirstBallot(cfg: Config, p: Str, o: Str, o': Str, c: Cast) returns (txs: seq<Tx>)
    requires o != o' && o != [] && o' != [] && c.choices == [o]
    ensures var s := Run(cfg, txs);
      && s.voters == {(p, c.identity)} && s.votes == map[(p, c.ballotId) := FlushedVote(c)] && s.confirms == {}
      && p in s.polls && s.polls[p] == Poll([o, o'], Plurality, 0, 10, Pending, false, 0, 0, 1)
      && p !in s.tallies
  {
    var create, flush := CreatePoll(p, [o, o'], Plurality, 0, 10, false, 0), BatchFlush(p, [c], 0);
    var s := Created(EMPTY, p, [o, o'], Plurality, 0, 10, false);
    AppendStep(cfg, [], create);
    AppendStep(cfg, [create], flush);
    assert [] + [create] == [create];
    assert Valid(EMPTY, create) && Valid(s, flush);
    OneVoter(cfg, s, p, c);
    txs := [create] + [flush];
  }

  lemma ConfirmThenWithdraw(cfg: Config, txs: seq<Tx>, p: Str, ballot: Str, id: Str) returns (longer: seq<Tx>)
    requires var s := Run(cfg, txs);
      && s.voters == {(p, id)} && (p, ballot) in s.votes && s.confirms == {} && p !in s.tallies
      && p in s.polls && s.polls[p].startTime == 0 && s.polls[p].endTime == 10 && s.polls[p].status == Pending
    ensures var s, t := Run(cfg, txs), Run(cfg, longer);
      && p in t.polls && t.voters == {} && t.polls[p].reattestationCount == s.polls[p].reattestationCount + 1
  {
    var confirm, withdraw := ConfirmReceipt(p, id, 0), UpdateBallot(p, ballot, [], id, [], 0);
    AppendStep(cfg, txs, confirm);
    AppendStep(cfg, txs + [confirm], withdraw);
    longer := txs + [confirm] + [withdraw];
  }

  /** Confirming and then withdrawing breaks the cap: one confirmation, no voters. */
  lemma ReattestationOverVoters(cfg: Config, p: Str) returns (txs: seq<Tx>)
    ensures var s := Run(cfg, txs);
      p in s.polls && s.polls[p].reattestationCount == 1 && L2(s, p) == {}
  {
    var c := Cast([1], [2], [[3]], []);
    var first := FirstBallot(cfg, p, [3], [4], c);
    txs := ConfirmThenWithdraw(cfg, first, p, c.ballotId, c.identity);
  }

  // ----- the sealed-partition balance -----

  /** Sealing a ballot and then withdrawing it breaks the documented balance
      |L2| = counted + SealedCount: both lists are empty and one seal is still counted. */
  lemma SealedBalanceBroken(cfg: Config, p: Str) returns (txs: seq<Tx>)
    ensures var s := Run(cfg, txs);
      && p in s.polls && L2(s, p) == {} && Counted(s, p) == {} && s.polls[p].sealedCount == 1
      && |L2(s, p)| != |Counted(s, p)| + s.polls[p].sealedCount
  {
    var c := Cast([1], [2], [[3]], [7]);
    var first := FirstBallot(cfg, p, [3], [4], c);
    var reseal, withdraw := ResealVote(p, c.ballotId, c.pubKeyHash), UpdateBallot(p, c.ballotId, [], c.identity, [], 0);
    AppendStep(cfg, first, reseal);
    AppendStep(cfg, first + [reseal], withdraw);
    txs := first + [reseal] + [withdraw];
    hide Run;
  }

  // ----- what is signed at close -----

  ghost predicate CountsOf(options: seq<Str>, counts: map<Str, int>) {
    counts.Keys == set o | o in options
  }

  lemma StrLeFirst(a: Str, b: Str)
    requires a != [] && b != [] && a[0] < b[0]
    ensures StrLe(a, b)
  {
  }

  /** The signature of a close binds its counts for a known option set only: two polls that
      can both be created, with different options, sign the same bytes. */
  lemma OptionSetMustBeFixed(l1: Str, l2: Str, total: int, n: int, k: int)
      returns (options: seq<Str>, a: map<Str, int>, options': seq<Str>, b: map<Str, int>)
    ensures ValidOptions(options) && ValidOptions(options') && CountsOf(options, a) && CountsOf(options', b)
    ensures |options| == 3 && |options'| == 2
    ensures PreImage(l1, l2, total, a) == PreImage(l1, l2, total, b)
  {
    hide Listing, Enc64, PreImage, StrLe;
    var x: Str, y: Str, z: Str := [1], [2], [3];
    var w := x + Enc64(0) + y;
    assert w[0] == 1 && w != z;
    StrLeFirst(x, y);
    StrLeFirst(y, z);
    StrLeFirst(x, z);
    StrLeFirst(w, z);
    options, options' := [x, y, z], [w, z];
    a, b := map[x := 0, y := n, z := k], map[w := n, z := k];
    assert a.Keys == {x, y, z} && multiset(options) == multiset(a.Keys);
    NoSeparator(l1, l2, total, options, a, b);
  }
}
