/** The shuffle of the relay, as the in-place loop and as a function of the random draws. */
module RelayShuffle {
  import opened Ordering
  import opened Permutations
  import opened Relay
  import opened TwoList

  /** Draw i is the random index for position i; position 0 needs none. */
  predicate Draws(draws: seq<nat>, n: nat) {
    |draws| == n && forall i | 0 <= i < n :: draws[i] <= i
  }

  /** From the back: swap the drawn element into the last place, go on with the rest. */
  function Shuffle<T>(s: seq<T>, draws: seq<nat>): (r: seq<T>)
    requires Draws(draws, |s|)
    ensures |r| == |s|
    decreases |s|
  {
    if |s| <= 1 then s
    else
      var n := |s| - 1;
      var t := Swapped(s, n, draws[n]);
      Shuffle(t[..n], draws[..n]) + [t[n]]
  }

  lemma {:induction false} ShufflePermutes<T>(s: seq<T>, draws: seq<nat>)
    requires Draws(draws, |s|)
    ensures multiset(Shuffle(s, draws)) == multiset(s)
    decreases |s|
  {
    if |s| > 1 {
      var n := |s| - 1;
      ShuffleUnfolds(s, draws);
      hide Shuffle, Draws;
      var t := Swapped(s, n, draws[n]);
      ShufflePermutes(t[..n], draws[..n]);
      assert t == t[..n] + [t[n]];
      SwapPermutes(s, n, draws[n]);
      hide Swapped;
    }
  }

  lemma ShuffleUnfolds<T>(s: seq<T>, draws: seq<nat>)
    requires Draws(draws, |s|) && |s| > 1
    ensures var n := |s| - 1;
      && draws[n] < |s| && Draws(draws[..n], n)
      && Shuffle(s, draws) == Shuffle(Swapped(s, n, draws[n])[..n], draws[..n]) + [Swapped(s, n, draws[n])[n]]
  {
  }

  /** Every order of the batch is the outcome of some draws. */
  lemma {:induction false} ShuffleReaches<T>(s: seq<T>, target: seq<T>) returns (draws: seq<nat>)
    requires multiset(s) == multiset(target)
    ensures Draws(draws, |s|) && Shuffle(s, draws) == target
    decreases |s|
  {
    if s == [] {
      assert |multiset(target)| == |multiset(s)| == 0;
      draws := [];
    } else {
      var n := |s| - 1;
      var k := PickLast(s, target);
      hide Shuffle, Swapped, Draws;
      var t := Swapped(s, n, k);
      var rest := ShuffleReaches(t[..n], target[..n]);
      draws := rest + [k];
      ShuffleBack(s, rest, k);
      assert target == target[..n] + [target[n]];
    }
  }

  lemma PickLast<T>(s: seq<T>, target: seq<T>) returns (k: nat)
    requires s != [] && multiset(s) == multiset(target)
    ensures |target| == |s| && k < |s|
    ensures var n, t := |s| - 1, Swapped(s, |s| - 1, k);
      |t| == |s| && t[n] == target[n] && multiset(t[..n]) == multiset(target[..n])
  {
    hide Swapped;
    var n := |s| - 1;
    assert |multiset(s)| == |s| && |multiset(target)| == |target|;
    SameElements(s, target);
    assert target[n] in s;
    k :| 0 <= k < |s| && s[k] == target[n];
    SwapPermutes(s, n, k);
    SwapElements(s, n, k);
    SameInit(Swapped(s, n, k), target);
  }

  lemma SameInit<T>(a: seq<T>, b: seq<T>)
    requires |a| == |b| > 0 && multiset(a) == multiset(b) && a[|a| - 1] == b[|b| - 1]
    ensures multiset(a[..|a| - 1]) == multiset(b[..|b| - 1])
  {
    var n := |a| - 1;
    assert a == a[..n] + [a[n]] && b == b[..n] + [b[n]];
    SameRest(multiset(a[..n]), multiset(b[..n]), a[n]);
  }

  lemma {:induction false} ShuffleBack<T>(s: seq<T>, rest: seq<nat>, k: nat)
    requires s != [] && Draws(rest, |s| - 1) && k < |s|
    ensures var n, t := |s| - 1, Swapped(s, |s| - 1, k);
      Draws(rest + [k], |s|) && Shuffle(s, rest + [k]) == Shuffle(t[..n], rest) + [t[n]]
  {
    var draws := rest + [k];
    assert draws[..|s| - 1] == rest && draws[|s| - 1] == k;
    assert Draws(draws, |s|);
    if |s| > 1 {
      ShuffleUnfolds(s, draws);
    }
    hide Draws;
  }

  /** And of only one when the submissions differ: with uniform draws every order is
      equally likely. */
  lemma {:induction false} ShuffleUnique<T>(s: seq<T>, a: seq<nat>, b: seq<nat>)
    requires Distinct(s) && Draws(a, |s|) && Draws(b, |s|) && Shuffle(s, a) == Shuffle(s, b)
    ensures a == b
    decreases |s|
  {
    if |s| > 1 {
      var n := |s| - 1;
      var t, u := Swapped(s, n, a[n]), Swapped(s, n, b[n]);
      assert t[n] == Shuffle(s, a)[n] && u[n] == Shuffle(s, b)[n];
      assert a[n] == b[n];
      SwapDistinct(s, n, a[n]);
      assert Shuffle(s, a)[..n] == Shuffle(t[..n], a[..n]) && Shuffle(s, b)[..n] == Shuffle(t[..n], b[..n]);
      ShuffleUnique(t[..n], a[..n], b[..n]);
      assert a == a[..n] + [a[n]] && b == b[..n] + [b[n]];
    }
  }

  lemma SwapDistinct<T>(s: seq<T>, i: nat, j: nat)
    requires Distinct(s) && j <= i < |s|
    ensures Distinct(Swapped(s, i, j)[..i])
  {
    var t := Swapped(s, i, j);
    forall x, y | 0 <= x < y < i ensures t[x] != t[y] {
      assert t[x] == (if x == j then s[i] else s[x]) && t[y] == (if y == j then s[i] else s[y]);
    }
  }

  /** What the loop has still to do, given what it has done. */
  ghost predicate ShufflesTo<T>(now: seq<T>, i: nat, draws: seq<nat>, goal: seq<T>)
    requires i <= |now| == |draws| && Draws(draws, |now|)
  {
    Shuffle(now[..i], draws[..i]) + now[i..] == goal
  }

  lemma ShuffleStep<T>(now: seq<T>, i: nat, draws: seq<nat>, goal: seq<T>)
    requires 0 < i < |now| == |draws| && Draws(draws, |now|) && ShufflesTo(now, i + 1, draws, goal)
    ensures ShufflesTo(Swapped(now, i, draws[i]), i, draws, goal)
  {
    var next := Swapped(now, i, draws[i]);
    assert now[..i + 1][..i] == now[..i];
    assert draws[..i + 1][..i] == draws[..i];
    assert Swapped(now[..i + 1], i, draws[i])[..i] == next[..i];
    assert next[i..] == [next[i]] + now[i + 1..];
  }

  /** The loop. The random source may fail at any position, which leaves the batch in
      some order of its own. */
  method ShuffleInPlace(batch: array<Str>, draws: seq<nat>, failAt: int) returns (ok: bool)
    requires Draws(draws, batch.Length)
    modifies batch
    ensures ok <==> !(0 < failAt < batch.Length)
    ensures multiset(batch[..]) == multiset(old(batch[..]))
    ensures ok ==> batch[..] == Shuffle(old(batch[..]), draws)
  {
    hide Shuffle, ShufflesTo, Swapped;
    ok := true;
    var i := batch.Length - 1;
    ghost var goal := Shuffle(batch[..], draws);
    ShuffleStarts(batch[..], draws);
    while i > 0
      invariant -1 <= i < batch.Length && (batch.Length > 0 ==> i >= 0)
      invariant multiset(batch[..]) == multiset(old(batch[..]))
      invariant ShufflesTo(batch[..], i + 1, draws, goal)
      invariant ok && (i < failAt < batch.Length ==> failAt <= 0)
    {
      if i == failAt {
        ok := false;
        return;
      }
      ghost var now := batch[..];
      ShuffleStep(now, i, draws, goal);
      SwapPermutes(now, i, draws[i]);
      SwapElements(now, i, draws[i]);
      batch[i], batch[draws[i]] := batch[draws[i]], batch[i];
      assert batch[..] == Swapped(now, i, draws[i]);
      i := i - 1;
    }
    ShuffleDone(batch[..], i + 1, draws, goal);
  }

  lemma {:induction false} ShuffleStarts<T>(now: seq<T>, draws: seq<nat>)
    requires Draws(draws, |now|)
    ensures ShufflesTo(now, |now|, draws, Shuffle(now, draws))
  {
    assert now[..|now|] == now && draws[..|now|] == draws && now[|now|..] == [];
  }

  lemma SwapElements<T>(s: seq<T>, i: nat, j: nat)
    requires j <= i < |s|
    ensures |Swapped(s, i, j)| == |s| && Swapped(s, i, j)[i] == s[j] && Swapped(s, i, j)[j] == s[i]
    ensures forall k | 0 <= k < |s| && k != i && k != j :: Swapped(s, i, j)[k] == s[k]
  {
  }

  lemma ShuffleDone<T>(now: seq<T>, i: nat, draws: seq<nat>, goal: seq<T>)
    requires i <= 1 && i <= |now| == |draws| && Draws(draws, |now|) && ShufflesTo(now, i, draws, goal)
    ensures now == goal
  {
    assert now == now[..i] + now[i..];
  }

  // ----- the shuffle as steps of the machine -----

  lemma {:induction false} SwapsReach(from: Relay, r: Relay, k: nat, i: nat, draws: seq<nat>, goal: seq<Str>)
    requires Alone(from, k, r) && InPhase(r, k, Shuffling)
    requires i <= |r.requests[k].batch| == |draws| && Draws(draws, |draws|)
    requires ShufflesTo(r.requests[k].batch, i, draws, goal)
    ensures Alone(from, k, With(r, k, r.requests[k].(batch := goal)))
    decreases i
  {
    hide Alone, ShufflesTo;
    var now := r.requests[k].batch;
    if i <= 1 {
      ShuffleDone(now, i, draws, goal);
      assert With(r, k, r.requests[k]) == r;
    } else {
      ShuffleStep(now, i - 1, draws, goal);
      AloneSteps(from, k, r, Swap(k, i - 1, draws[i - 1]));
      var s := Next(r, Swap(k, i - 1, draws[i - 1]));
      SwapsReach(from, s, k, i - 1, draws, goal);
      assert With(s, k, s.requests[k].(batch := goal)) == With(r, k, r.requests[k].(batch := goal));
    }
  }

  /** A request can bring its batch into any order by swaps of its own. */
  lemma PermutationReached(r: Relay, k: nat, goal: seq<Str>)
    requires InPhase(r, k, Shuffling) && multiset(r.requests[k].batch) == multiset(goal)
    ensures Alone(r, k, With(r, k, r.requests[k].(batch := goal)))
  {
    hide Alone, Shuffle, ShufflesTo;
    var batch := r.requests[k].batch;
    var draws := ShuffleReaches(batch, goal);
    ShuffleStarts(batch, draws);
    AloneStays(r, k);
    SwapsReach(r, r, k, |batch|, draws, goal);
  }

  function Took(r: Relay, p: Str, phase: Phase, batch: seq<Str>): Relay {
    Relay(r.queue - {p}, r.requests + [Request(p, phase, batch)])
  }

  /** A flush whose random source fails, in whatever order the batch then is. */
  lemma FlushGivesUp(r: Relay, p: Str, goal: seq<Str>)
    requires Queue(r, p) != [] && multiset(Queue(r, p)) == multiset(goal)
    ensures Alone(Took(r, p, Shuffling, Queue(r, p)), |r.requests|,
                  Restored(Took(r, p, Restoring, goal), |r.requests|))
  {
    hide Alone;
    var k, from := |r.requests|, Took(r, p, Shuffling, Queue(r, p));
    PermutationReached(from, k, goal);
    assert With(from, k, from.requests[k].(batch := goal)) == Took(r, p, Shuffling, goal);
    AloneSteps(from, k, Took(r, p, Shuffling, goal), ShuffleFailed(k));
    assert Next(Took(r, p, Shuffling, goal), ShuffleFailed(k)) == Took(r, p, Restoring, goal);
    AloneSteps(from, k, Took(r, p, Restoring, goal), Restore(k));
  }

  /** A flush that posts the first n submissions of its shuffled batch. */
  lemma FlushPosts(r: Relay, p: Str, goal: seq<Str>, n: nat)
    requires Queue(r, p) != [] && multiset(Queue(r, p)) == multiset(goal) && n <= |goal|
    ensures Alone(Took(r, p, Shuffling, Queue(r, p)), |r.requests|,
                  if n == |goal| then Took(r, p, Done, [])
                  else Restored(Took(r, p, Restoring, goal[n..]), |r.requests|))
  {
    hide Alone;
    var k, from := |r.requests|, Took(r, p, Shuffling, Queue(r, p));
    PermutationReached(from, k, goal);
    assert With(from, k, from.requests[k].(batch := goal)) == Took(r, p, Shuffling, goal);
    AloneSteps(from, k, Took(r, p, Shuffling, goal), Shuffled(k));
    assert Next(Took(r, p, Shuffling, goal), Shuffled(k)) == Took(r, p, Posting, goal);
    PostsReach(from, Took(r, p, Posting, goal), k, n);
    var posted := Took(r, p, Posting, goal[n..]);
    assert With(Took(r, p, Posting, goal), k, Request(p, Posting, goal[n..])) == posted;
    if n == |goal| {
      AloneSteps(from, k, posted, FlushAnswered(k));
      assert Next(posted, FlushAnswered(k)) == Took(r, p, Done, []);
    } else {
      AloneSteps(from, k, posted, PostFailed(k));
      assert Next(posted, PostFailed(k)) == Took(r, p, Restoring, goal[n..]);
      AloneSteps(from, k, Took(r, p, Restoring, goal[n..]), Restore(k));
    }
  }

  lemma RestoredQueue(r: Relay, p: Str, batch: seq<Str>)
    ensures var t := Restored(Took(r, p, Restoring, batch), |r.requests|);
      t.queue == r.queue[p := batch] && t.requests == r.requests + [Request(p, Done, [])]
  {
    var t := Restored(Took(r, p, Restoring, batch), |r.requests|);
    assert t.queue[p] == batch + [] == batch;
    assert t.queue == r.queue[p := batch];
  }
}

/** The relay server as the object that owns the queues. */
module RelayState {
  import opened Ordering
  import R = Relay
  import opened RelayShuffle

  datatype Outcome = NotFound | ShuffleFailed | Rejected | Relayed

  /** The submissions of a flush are held by its request, not by the server; the ghost field
      keeps the requests so that the object can be compared with the machine above. */
  class Server {
    var queue: map<Str, seq<Str>>
    ghost var requests: seq<R.Request>

    ghost function Snapshot(): R.Relay
      reads this
    {
      R.Relay(queue, requests)
    }

    function Waiting(p: Str): seq<Str>
      reads this
    {
      if p in queue then queue[p] else []
    }

    constructor ()
      ensures Snapshot() == R.EMPTY
    {
      queue, requests := map[], [];
    }

    method SubmitBallot(p: Str, item: Str) returns (count: nat)
      modifies this
      ensures Snapshot() == R.Next(old(Snapshot()), R.Submit(p, item))
      ensures count == |Waiting(p)|
    {
      var q := [];
      if p in queue {
        q := queue[p];
      }
      queue := queue[p := q + [item]];
      count := |queue[p]|;
    }

    method Dequeue(p: Str) returns (batch: seq<Str>)
      modifies this
      ensures batch == old(Waiting(p))
      ensures batch == [] ==> queue == old(queue) - {p} && requests == old(requests)
      ensures batch != [] ==>
        Snapshot() == R.Next(old(Snapshot()), R.Dequeue(p)) == Took(old(Snapshot()), p, R.Shuffling, batch)
    {
      batch := [];
      if p in queue {
        batch := queue[p];
      }
      queue := queue - {p};
      if batch != [] {
        requests := requests + [R.Request(p, R.Shuffling, batch)];
      }
    }

    method Restore(p: Str, batch: seq<Str>, ghost k: nat)
      requires k < |requests| && requests[k] == R.Request(p, R.Restoring, batch)
      modifies this
      ensures batch != [] ==> Snapshot() == R.Next(old(Snapshot()), R.Restore(k)) == R.Restored(old(Snapshot()), k)
      ensures batch == [] ==> Snapshot() == old(Snapshot())
    {
      if |batch| == 0 {
        return;
      }
      var q := [];
      if p in queue {
        q := queue[p];
      }
      queue := queue[p := batch + q];
      requests := requests[k := R.Request(p, R.Done, [])];
    }

    /** One flush request with nothing else under way: whatever the random source and the
        upstream answers do, the request gets there by steps of its own, what was posted
        followed by what waits now is one shuffle of what was waiting, and no other poll is
        touched. */
    method FlushPoll(p: Str, draws: seq<nat>, failAt: int, accepted: seq<bool>)
        returns (outcome: Outcome, posted: seq<Str>)
      requires Draws(draws, |Waiting(p)|) && |accepted| == |Waiting(p)|
      modifies this
      ensures queue - {p} == old(queue) - {p}
      ensures outcome == NotFound <==> old(Waiting(p)) == []
      ensures outcome == NotFound ==> posted == Waiting(p) == [] && requests == old(requests)
      ensures outcome != NotFound ==>
        R.Alone(R.Next(old(Snapshot()), R.Dequeue(p)), |old(requests)|, Snapshot())
      ensures outcome != NotFound ==> requests == old(requests) + [R.Request(p, R.Done, [])]
      ensures outcome == ShuffleFailed ==> posted == [] && multiset(Waiting(p)) == multiset(old(Waiting(p)))
      ensures outcome == Rejected || outcome == Relayed ==>
        && posted + Waiting(p) == Shuffle(old(Waiting(p)), draws)
        && (forall i | 0 <= i < |posted| :: accepted[i])
        && (outcome == Relayed <==> Waiting(p) == [])
        && (outcome == Rejected ==> |posted| < |accepted| && !accepted[|posted|])
    {
      hide Shuffle, Draws, R.Alone, R.Next, R.Restored, R.With;
      posted := [];
      ghost var was, k := Snapshot(), |requests|;
      var taken := Dequeue(p);
      if |taken| == 0 {
        return NotFound, posted;
      }
      var batch := new Str[|taken|](i requires 0 <= i < |taken| => taken[i]);
      assert batch[..] == taken;
      var ok := ShuffleInPlace(batch, draws, failAt);
      if !ok {
        GiveBack(was, p, batch[..]);
        FlushGivesUp(was, p, batch[..]);
        return ShuffleFailed, posted;
      }
      posted := PostAll(batch, accepted);
      assert posted + batch[|posted|..] == batch[..];
      FlushPosts(was, p, batch[..], |posted|);
      if |posted| < batch.Length {
        GiveBack(was, p, batch[|posted|..]);
        return Rejected, posted;
      }
      requests := was.requests + [R.Request(p, R.Done, [])];
      outcome := Relayed;
    }

    /** What a flush could not deliver goes back to a queue that nobody has touched. */
    method GiveBack(ghost was: R.Relay, p: Str, batch: seq<Str>)
      requires batch != [] && queue == was.queue - {p} && |requests| == |was.requests| + 1
      requires requests[..|was.requests|] == was.requests
      modifies this
      ensures Snapshot() == R.Restored(Took(was, p, R.Restoring, batch), |was.requests|)
      ensures queue == was.queue[p := batch] && requests == was.requests + [R.Request(p, R.Done, [])]
    {
      hide R.Restored;
      requests := was.requests + [R.Request(p, R.Restoring, batch)];
      assert Snapshot() == Took(was, p, R.Restoring, batch);
      Restore(p, batch, |was.requests|);
      RestoredQueue(was, p, batch);
    }
  }

  /** One post per submission until upstream refuses one. */
  method PostAll(batch: array<Str>, accepted: seq<bool>) returns (posted: seq<Str>)
    requires |accepted| == batch.Length
    ensures |posted| <= batch.Length && posted == batch[..|posted|]
    ensures forall k | 0 <= k < |posted| :: accepted[k]
    ensures |posted| < batch.Length ==> !accepted[|posted|]
  {
    posted := [];
    var i := 0;
    while i < batch.Length
      invariant 0 <= i <= batch.Length && |posted| == i && posted == batch[..i]
      invariant forall k | 0 <= k < i :: accepted[k]
    {
      if !accepted[i] {
        return;
      }
      posted := posted + [batch[i]];
      i := i + 1;
    }
  }
}
