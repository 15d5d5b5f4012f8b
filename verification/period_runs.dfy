/** What every run of the period machine keeps, and what closing therefore guarantees. */
module PeriodRuns {
  import opened Ordering
  import opened Merkle
  import opened TwoList
  import opened PeriodSpec

  datatype History = History(
    overwrites: nat,    // submissions and updates written onto an id that was in use
    submitted: nat,
    failedChecks: nat)  // rolling attestations skipped because the lists differed

  ghost function Note(cfg: Config, s: State, tx: Tx, a: History): History {
    match tx
    case Submit(p, id, identity, payload) =>
      var t := Written(s, p, id, identity, payload);
      a.(overwrites := a.overwrites + One((p, id) in s.submissions), submitted := a.submitted + 1,
         failedChecks := a.failedChecks + One(cfg.rolling && cfg.threshold > 0
           && GetOr(s.submissionCounts, p, 0) + 1 >= cfg.threshold && !ListsMatch(t, p)))
    case Update(p, oldId, newId, _, _) =>
      a.(overwrites := a.overwrites + One(newId != oldId && (p, newId) in s.submissions))
    case _ => a
  }

  ghost function HistoryOf(cfg: Config, txs: seq<Tx>, p: Str): History {
    if txs == [] then History(0, 0, 0)
    else
      var before, tx := txs[..|txs| - 1], txs[|txs| - 1];
      var a := HistoryOf(cfg, before, p);
      if tx.period == p && Valid(cfg, Run(cfg, before), tx) then Note(cfg, Run(cfg, before), tx, a) else a
  }

  /** Nothing is superseded, records belong to created periods, and a period has a closure
      record exactly when its status is closed. */
  ghost predicate Good(s: State) {
    && (forall k | k in s.submissions :: k.0 in s.periods && !s.submissions[k].superseded)
    && (forall k | k in s.participants :: k.0 in s.periods)
    && (forall p :: p in s.closures <==> p in s.periods && s.periods[p] == Closed)
  }

  ghost predicate Cadence(active: bool, T: nat, counter: nat, cps: seq<Checkpoint>, a: History) {
    && (active ==> Batches(T, |cps| + a.failedChecks) + counter == a.submitted && counter < T)
    && (!active ==> counter == 0 && cps == [])
    && (forall i | 0 <= i < |cps| :: cps[i].sequenceNumber == i)
  }

  ghost predicate ClosureLaw(cfg: Config, s: State, p: Str, a: History) {
    p in s.closures ==>
      && a.overwrites == 0
      && s.closures[p] == Closure(|L1(s, p)|, L1Root(cfg, s, p), L2Root(cfg, s, p))
      && |L1(s, p)| == |L2(s, p)|
  }

  ghost predicate Laws(cfg: Config, s: State, p: Str, a: History) {
    && |L1(s, p)| + a.overwrites == |L2(s, p)|
    && Cadence(cfg.rolling && cfg.threshold > 0, cfg.threshold,
               GetOr(s.submissionCounts, p, 0), GetOr(s.checkpoints, p, []), a)
    && ClosureLaw(cfg, s, p, a)
    && (p !in s.periods ==> a == History(0, 0, 0))
  }

  // ----- the lists -----

  lemma LiveIsL1(s: State, p: Str)
    requires Good(s)
    ensures Live(s, p) == L1(s, p)
  {
  }

  ghost predicate SameLists(s: State, t: State, p: Str) {
    && (forall k: Key | k.0 == p :: k in s.submissions <==> k in t.submissions)
    && (forall k: Key | k.0 == p && k in s.submissions :: s.submissions[k] == t.submissions[k])
    && (forall k: Key | k.0 == p :: k in s.participants <==> k in t.participants)
  }

  ghost predicate SamePeriod(s: State, t: State, p: Str) {
    && SameLists(s, t, p)
    && (p in s.periods <==> p in t.periods)
    && (p in s.closures <==> p in t.closures) && (p in s.closures ==> s.closures[p] == t.closures[p])
    && GetOr(s.submissionCounts, p, 0) == GetOr(t.submissionCounts, p, 0)
    && GetOr(s.checkpoints, p, []) == GetOr(t.checkpoints, p, [])
  }

  lemma SameListsSameSets(s: State, t: State, p: Str)
    requires SameLists(s, t, p)
    ensures L1(s, p) == L1(t, p) && Live(s, p) == Live(t, p) && L2(s, p) == L2(t, p)
  {
  }

  lemma {:induction false} SamePeriodSameLaws(cfg: Config, s: State, t: State, p: Str, a: History)
    requires SamePeriod(s, t, p) && Laws(cfg, s, p, a)
    ensures Laws(cfg, t, p, a)
  {
    hide SetRoot;
    SameListsSameSets(s, t, p);
  }

  lemma {:induction false} AttestedLists(cfg: Config, s: State, p: Str)
    ensures var t := Attested(cfg, s, p);
      t == s.(submissionCounts := t.submissionCounts, checkpoints := t.checkpoints)
    ensures forall q | q != p ::
      && GetOr(Attested(cfg, s, p).submissionCounts, q, 0) == GetOr(s.submissionCounts, q, 0)
      && GetOr(Attested(cfg, s, p).checkpoints, q, []) == GetOr(s.checkpoints, q, [])
  {
    hide SetRoot, ListsMatch, NextCheckpoints;
  }

  lemma WriteLists(s: State, p: Str, id: Str, identity: Str, payload: Str)
    requires (p, identity) !in s.participants
    ensures var t := Written(s, p, id, identity, payload);
      && |L1(t, p)| == |L1(s, p)| + 1 - One((p, id) in s.submissions)
      && |L2(t, p)| == |L2(s, p)| + 1
  {
    var t := Written(s, p, id, identity, payload);
    assert L1(t, p) == L1(s, p) + {(p, id)} && L2(t, p) == L2(s, p) + {(p, identity)};
    assert (p, id) in s.submissions <==> (p, id) in L1(s, p);
  }

  lemma UpdateLists(s: State, p: Str, oldId: Str, newId: Str, payload: Str)
    requires (p, oldId) in s.submissions
    ensures var t := Updated(s, p, oldId, newId, payload);
      && |L1(t, p)| == |L1(s, p)| - One(newId != oldId && (p, newId) in s.submissions)
      && L2(t, p) == L2(s, p)
  {
    var t := Updated(s, p, oldId, newId, payload);
    var k, k' := (p, oldId), (p, newId);
    assert L1(t, p) == L1(s, p) - {k} + {k'} && k in L1(s, p);
    assert k' in s.submissions <==> k' in L1(s, p);
  }

  lemma WithdrawLists(s: State, p: Str, id: Str, identity: Str)
    requires (p, id) in s.submissions && (p, identity) in s.participants
    ensures var t := Withdrawn(s, p, id, identity);
      |L1(t, p)| == |L1(s, p)| - 1 && |L2(t, p)| == |L2(s, p)| - 1
  {
    var t := Withdrawn(s, p, id, identity);
    assert L1(t, p) == L1(s, p) - {(p, id)} && (p, id) in L1(s, p);
    assert L2(t, p) == L2(s, p) - {(p, identity)} && (p, identity) in L2(s, p);
  }

  // ----- the laws are kept -----

  lemma CadenceStep(T: nat, counter: nat, cps: seq<Checkpoint>, more: seq<Checkpoint>, matching: bool, a: History,
                    b: History)
    requires T > 0 && Cadence(true, T, counter, cps, a)
    requires b.submitted == a.submitted + 1 && b.failedChecks == a.failedChecks + One(counter + 1 >= T && !matching)
    requires |more| == |cps| + 1 && cps < more && more[|cps|].sequenceNumber == |cps|
    ensures counter + 1 < T ==> Cadence(true, T, counter + 1, cps, b)
    ensures counter + 1 >= T ==> Cadence(true, T, 0, if matching then more else cps, b)
  {
    if counter + 1 >= T {
      BatchesAdd(T, |cps| + a.failedChecks, 1);
      assert |cps| + a.failedChecks + 1 == |if matching then more else cps| + b.failedChecks;
    }
  }

  lemma {:induction false} SubmitLaws(cfg: Config, s: State, tx: Tx, a: History)
    requires Good(s) && Laws(cfg, s, tx.period, a) && tx.Submit? && Valid(cfg, s, tx)
    ensures Laws(cfg, Apply(cfg, s, tx), tx.period, Note(cfg, s, tx, a))
  {
    hide SetRoot;
    var p, b := tx.period, Note(cfg, s, tx, a);
    var t := Written(s, p, tx.id, tx.identity, tx.payload);
    var u := Attested(cfg, t, p);
    WriteLists(s, p, tx.id, tx.identity, tx.payload);
    AttestedLists(cfg, t, p);
    SameListsSameSets(t, u, p);
    if cfg.rolling && cfg.threshold > 0 {
      var counter, cps := GetOr(s.submissionCounts, p, 0), GetOr(s.checkpoints, p, []);
      CadenceStep(cfg.threshold, counter, cps, NextCheckpoints(cfg, t, p), ListsMatch(t, p), a, b);
    }
  }

  lemma UpdateLaws(cfg: Config, s: State, tx: Tx, a: History)
    requires Good(s) && Laws(cfg, s, tx.period, a) && tx.Update? && Valid(cfg, s, tx)
    ensures Laws(cfg, Apply(cfg, s, tx), tx.period, Note(cfg, s, tx, a))
  {
    hide SetRoot;
    UpdateLists(s, tx.period, tx.oldId, tx.newId, tx.payload);
  }

  lemma WithdrawLaws(cfg: Config, s: State, tx: Tx, a: History)
    requires Good(s) && Laws(cfg, s, tx.period, a) && tx.Withdraw? && Valid(cfg, s, tx)
    ensures Laws(cfg, Apply(cfg, s, tx), tx.period, Note(cfg, s, tx, a))
  {
    hide SetRoot;
    WithdrawLists(s, tx.period, tx.id, tx.identity);
  }

  lemma {:induction false} CloseLaws(cfg: Config, s: State, tx: Tx, a: History)
    requires Good(s) && Laws(cfg, s, tx.period, a) && tx.Close? && Valid(cfg, s, tx)
    ensures Laws(cfg, Apply(cfg, s, tx), tx.period, Note(cfg, s, tx, a))
  {
    hide SetRoot;
    LiveIsL1(s, tx.period);
    SameListsSameSets(s, Apply(cfg, s, tx), tx.period);
  }

  lemma CreateLaws(cfg: Config, s: State, tx: Tx, a: History)
    requires Good(s) && Laws(cfg, s, tx.period, a) && tx.Create? && Valid(cfg, s, tx)
    ensures Laws(cfg, Apply(cfg, s, tx), tx.period, Note(cfg, s, tx, a))
  {
    hide SetRoot;
    SameListsSameSets(s, Apply(cfg, s, tx), tx.period);
  }

  lemma {:induction false} StepGood(cfg: Config, s: State, tx: Tx)
    requires Good(s) && Valid(cfg, s, tx)
    ensures Good(Apply(cfg, s, tx))
  {
    hide L1Root, L2Root, ListsMatch, NextCheckpoints;
    if tx.Submit? {
      AttestedLists(cfg, Written(s, tx.period, tx.id, tx.identity, tx.payload), tx.period);
      hide Attested;
    }
  }

  lemma {:induction false} OtherPeriod(cfg: Config, s: State, tx: Tx, p: Str)
    requires Valid(cfg, s, tx) && tx.period != p
    ensures SamePeriod(s, Apply(cfg, s, tx), p)
  {
    hide L1Root, L2Root, ListsMatch, NextCheckpoints;
    if tx.Submit? {
      AttestedLists(cfg, Written(s, tx.period, tx.id, tx.identity, tx.payload), tx.period);
      hide Attested;
    }
  }

  lemma {:induction false} OwnStep(cfg: Config, s: State, tx: Tx, a: History)
    requires Good(s) && Laws(cfg, s, tx.period, a) && Valid(cfg, s, tx)
    ensures Laws(cfg, Apply(cfg, s, tx), tx.period, Note(cfg, s, tx, a))
  {
    match tx
    case Create(_) => CreateLaws(cfg, s, tx, a);
    case Submit(_, _, _, _) => SubmitLaws(cfg, s, tx, a);
    case Update(_, _, _, _, _) => UpdateLaws(cfg, s, tx, a);
    case Withdraw(_, _, _) => WithdrawLaws(cfg, s, tx, a);
    case Close(_) => CloseLaws(cfg, s, tx, a);
  }

  lemma EmptyLaws(cfg: Config, p: Str)
    ensures Good(EMPTY) && Laws(cfg, EMPTY, p, History(0, 0, 0))
  {
    assert L1(EMPTY, p) == {} && L2(EMPTY, p) == {};
  }

  /** The laws hold for every period after every sequence of submitted transactions. */
  lemma {:induction false} RunLaws(cfg: Config, txs: seq<Tx>, p: Str)
    ensures Good(Run(cfg, txs)) && Laws(cfg, Run(cfg, txs), p, HistoryOf(cfg, txs, p))
  {
    if txs == [] {
      EmptyLaws(cfg, p);
    } else {
      var before, tx := txs[..|txs| - 1], txs[|txs| - 1];
      var s, a := Run(cfg, before), HistoryOf(cfg, before, p);
      RunLaws(cfg, before, p);
      hide Laws, Good, Apply, Valid, Note;
      if Valid(cfg, s, tx) {
        StepGood(cfg, s, tx);
        if tx.period == p {
          OwnStep(cfg, s, tx, a);
        } else {
          OtherPeriod(cfg, s, tx, p);
          SamePeriodSameLaws(cfg, s, Apply(cfg, s, tx), p, a);
        }
      }
    }
  }

  // ----- what closing guarantees -----

  /** An accepted close succeeds exactly when no submission or update of the period was
      ever written onto an id that was in use. */
  lemma CloseSucceedsIff(cfg: Config, txs: seq<Tx>, p: Str)
    requires Valid(cfg, Run(cfg, txs), Close(p))
    ensures p in Run(cfg, txs + [Close(p)]).closures <==> HistoryOf(cfg, txs, p).overwrites == 0
  {
    hide SetRoot, Laws, Good, L1, L2, Live, L1Root, L2Root;
    assert (txs + [Close(p)])[..|txs|] == txs;
    RunLaws(cfg, txs, p);
    LawsDrift(cfg, Run(cfg, txs), p, HistoryOf(cfg, txs, p));
    LiveIsL1(Run(cfg, txs), p);
    OpenHasNoClosure(Run(cfg, txs), p);
  }

  lemma OpenHasNoClosure(s: State, p: Str)
    requires Good(s) && IsOpen(s, p)
    ensures p !in s.closures
  {
  }

  lemma LawsDrift(cfg: Config, s: State, p: Str, a: History)
    requires Laws(cfg, s, p, a)
    ensures |L1(s, p)| + a.overwrites == |L2(s, p)|
  {
  }

  lemma LawsCadence(cfg: Config, s: State, p: Str, a: History)
    requires Laws(cfg, s, p, a)
    ensures Cadence(cfg.rolling && cfg.threshold > 0, cfg.threshold,
                    GetOr(s.submissionCounts, p, 0), GetOr(s.checkpoints, p, []), a)
  {
  }

  lemma {:induction false} OverwritesStay(cfg: Config, before: seq<Tx>, after: seq<Tx>, p: Str)
    ensures HistoryOf(cfg, before + after, p).overwrites >= HistoryOf(cfg, before, p).overwrites
  {
    if after == [] {
      assert before + after == before;
    } else {
      var n := |after| - 1;
      OverwritesStay(cfg, before, after[..n], p);
      assert (before + after)[..|before + after| - 1] == before + after[..n];
    }
  }

  /** One overwrite blocks a period for good: whatever is submitted later, it never closes. */
  lemma OverwrittenNeverCloses(cfg: Config, before: seq<Tx>, after: seq<Tx>, p: Str)
    requires HistoryOf(cfg, before, p).overwrites > 0
    ensures p !in Run(cfg, before + after).closures
  {
    OverwritesStay(cfg, before, after, p);
    RunLaws(cfg, before + after, p);
  }

  lemma {:induction false} ClosedStep(cfg: Config, s: State, tx: Tx, p: Str)
    requires Good(s) && p in s.closures
    ensures SamePeriod(s, Step(cfg, s, tx), p)
  {
    if Valid(cfg, s, tx) {
      assert tx.period != p;
      OtherPeriod(cfg, s, tx, p);
    }
  }

  /** Once a period is closed, its closure and both its lists are fixed through any further
      transactions: the total stays |L1| = |L2| and the roots stay the roots of the lists. */
  lemma {:induction false} ClosedForever(cfg: Config, before: seq<Tx>, after: seq<Tx>, p: Str)
    requires p in Run(cfg, before).closures
    ensures var s, t := Run(cfg, before), Run(cfg, before + after);
      && p in t.closures && t.closures[p] == s.closures[p]
      && SameLists(s, t, p)
      && t.closures[p] == Closure(|L1(t, p)|, L1Root(cfg, t, p), L2Root(cfg, t, p))
      && |L1(t, p)| == |L2(t, p)|
  {
    hide SetRoot, Laws, Apply, Valid, L1Root, L2Root, L1, L2, Good;
    if after == [] {
      assert before + after == before;
    } else {
      var n := |after| - 1;
      ClosedForever(cfg, before, after[..n], p);
      assert (before + after)[..|before + after| - 1] == before + after[..n];
      RunLaws(cfg, before + after[..n], p);
      ClosedStep(cfg, Run(cfg, before + after[..n]), after[n], p);
    }
    ClosureOf(cfg, before + after, p);
  }

  lemma {:induction false} ClosureOf(cfg: Config, txs: seq<Tx>, p: Str)
    ensures var s := Run(cfg, txs);
      && (p in s.closures <==> p in s.periods && s.periods[p] == Closed)
      && (p in s.closures ==>
            && s.closures[p] == Closure(|L1(s, p)|, L1Root(cfg, s, p), L2Root(cfg, s, p))
            && |L1(s, p)| == |L2(s, p)|)
  {
    hide SetRoot;
    RunLaws(cfg, txs, p);
  }

  /** Drift and cadence of one period over every run. */
  lemma {:induction false} DriftAndCadence(cfg: Config, txs: seq<Tx>, p: Str)
    ensures var s, a := Run(cfg, txs), HistoryOf(cfg, txs, p);
      && |L2(s, p)| - |L1(s, p)| == a.overwrites
      && (cfg.rolling && cfg.threshold > 0 ==>
            var cps, pending := GetOr(s.checkpoints, p, []), GetOr(s.submissionCounts, p, 0);
            && cfg.threshold * (|cps| + a.failedChecks) + pending == a.submitted
            && pending < cfg.threshold
            && forall i | 0 <= i < |cps| :: cps[i].sequenceNumber == i)
  {
    hide Run, HistoryOf, Laws, Good, L1, L2;
    RunLaws(cfg, txs, p);
    LawsDrift(cfg, Run(cfg, txs), p, HistoryOf(cfg, txs, p));
    LawsCadence(cfg, Run(cfg, txs), p, HistoryOf(cfg, txs, p));
    BatchesProduct(cfg.threshold, |GetOr(Run(cfg, txs).checkpoints, p, [])| + HistoryOf(cfg, txs, p).failedChecks);
  }
}
