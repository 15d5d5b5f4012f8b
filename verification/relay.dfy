/** The ballot relay: a queue per poll, and any number of flush requests in progress.

    Every event is one atomic step of one request: a critical section on the queue, one
    swap of the shuffle on the request's own copy, or one answer from upstream. A run is
    any interleaving of such steps. */
module Relay {
  import opened Ordering
  import opened Permutations

  datatype Phase = Shuffling | Posting | Restoring | Done
  /** `batch` is what the request still has to deliver, in order. */
  datatype Request = Request(poll: Str, phase: Phase, batch: seq<Str>)
  datatype Relay = Relay(queue: map<Str, seq<Str>>, requests: seq<Request>)

  datatype Event =
    | Submit(poll: Str, item: Str)
    | Dequeue(poll: Str)
    | Swap(request: nat, i: nat, j: nat)
    | Shuffled(request: nat)
    | ShuffleFailed(request: nat)
    | PostAccepted(request: nat)
    | PostFailed(request: nat)
    | Restore(request: nat)
    | FlushAnswered(request: nat)

  const EMPTY := Relay(map[], [])

  function Queue(r: Relay, p: Str): seq<Str> {
    if p in r.queue then r.queue[p] else []
  }

  predicate InPhase(r: Relay, request: nat, phase: Phase) {
    request < |r.requests| && r.requests[request].phase == phase
  }

  predicate Enabled(r: Relay, e: Event) {
    match e
    case Submit(_, _) => true
    case Dequeue(p) => Queue(r, p) != []
    case Swap(k, i, j) => InPhase(r, k, Shuffling) && j <= i < |r.requests[k].batch|
    case Shuffled(k) => InPhase(r, k, Shuffling)
    case ShuffleFailed(k) => InPhase(r, k, Shuffling)
    case PostAccepted(k) => InPhase(r, k, Posting) && r.requests[k].batch != []
    case PostFailed(k) => InPhase(r, k, Posting) && r.requests[k].batch != []
    case Restore(k) => InPhase(r, k, Restoring)
    case FlushAnswered(k) => InPhase(r, k, Posting) && r.requests[k].batch == []
  }

  function Swapped<T>(s: seq<T>, i: nat, j: nat): (t: seq<T>)
    requires i < |s| && j < |s|
  {
    s[i := s[j]][j := s[i]]
  }

  function With(r: Relay, k: nat, request: Request): Relay
    requires k < |r.requests|
  {
    r.(requests := r.requests[k := request])
  }

  function Restored(r: Relay, k: nat): Relay
    requires k < |r.requests|
  {
    var q := r.requests[k];
    With(r.(queue := r.queue[q.poll := q.batch + Queue(r, q.poll)]), k, q.(phase := Done, batch := []))
  }

  function Next(r: Relay, e: Event): Relay
    requires Enabled(r, e)
  {
    match e
    case Submit(p, item) => r.(queue := r.queue[p := Queue(r, p) + [item]])
    case Dequeue(p) => Relay(r.queue - {p}, r.requests + [Request(p, Shuffling, Queue(r, p))])
    case Swap(k, i, j) => With(r, k, r.requests[k].(batch := Swapped(r.requests[k].batch, i, j)))
    case Shuffled(k) => With(r, k, r.requests[k].(phase := Posting))
    case ShuffleFailed(k) => With(r, k, r.requests[k].(phase := Restoring))
    case PostAccepted(k) => With(r, k, r.requests[k].(batch := r.requests[k].batch[1..]))
    case PostFailed(k) => With(r, k, r.requests[k].(phase := Restoring))
    case Restore(k) => Restored(r, k)
    case FlushAnswered(k) => With(r, k, r.requests[k].(phase := Done))
  }

  ghost predicate IsRun(events: seq<Event>) {
    events == [] || (IsRun(events[..|events| - 1]) && Enabled(After(events[..|events| - 1]), events[|events| - 1]))
  }

  ghost function After(events: seq<Event>): Relay {
    if events == [] then EMPTY
    else
      var before, e := After(events[..|events| - 1]), events[|events| - 1];
      if Enabled(before, e) then Next(before, e) else before
  }

  // ----- the three places a submission can be -----

  ghost function Arriving(e: Event, p: Str): multiset<Str> {
    if e.Submit? && e.poll == p then multiset{e.item} else multiset{}
  }

  ghost function Leaving(before: Relay, e: Event, p: Str): multiset<Str>
    requires Enabled(before, e)
  {
    if e.PostAccepted? && before.requests[e.request].poll == p then multiset{before.requests[e.request].batch[0]}
    else multiset{}
  }

  ghost function Submitted(events: seq<Event>, p: Str): multiset<Str> {
    if events == [] then multiset{}
    else Submitted(events[..|events| - 1], p) + Arriving(events[|events| - 1], p)
  }

  /** What upstream accepted, poll by poll. */
  ghost function Acknowledged(events: seq<Event>, p: Str): multiset<Str>
    requires IsRun(events)
  {
    if events == [] then multiset{}
    else
      Acknowledged(events[..|events| - 1], p) + Leaving(After(events[..|events| - 1]), events[|events| - 1], p)
  }

  ghost function Share(request: Request, p: Str): multiset<Str> {
    if request.poll == p then multiset(request.batch) else multiset{}
  }

  ghost function Held(requests: seq<Request>, p: Str): multiset<Str> {
    if requests == [] then multiset{}
    else Held(requests[..|requests| - 1], p) + Share(requests[|requests| - 1], p)
  }

  lemma AddBoth<T>(a: multiset<T>, b: multiset<T>, c: multiset<T>, d: multiset<T>, more: multiset<T>)
    requires a + b == c + d
    ensures (a + more) + b == (c + more) + d && (more + a) + b == (more + c) + d
  {
    assert (a + more) + b == (a + b) + more && (more + a) + b == (a + b) + more;
    assert (c + more) + d == (c + d) + more && (more + c) + d == (c + d) + more;
  }

  lemma Cancel<T>(a: multiset<T>, b: multiset<T>, gone: multiset<T>, was: multiset<T>, now: multiset<T>)
    requires a + was == b + now && was == now + gone
    ensures a + gone == b
  {
    assert a + was == (a + gone) + now;
    assert a + gone == (a + gone) + now - now;
    assert b == b + now - now;
  }

  lemma {:induction false} HeldUpdate(requests: seq<Request>, k: nat, request: Request, p: Str)
    requires k < |requests|
    ensures Held(requests[k := request], p) + Share(requests[k], p) == Held(requests, p) + Share(request, p)
  {
    var n := |requests| - 1;
    hide Share;
    if k < n {
      HeldUpdate(requests[..n], k, request, p);
      assert requests[k := request][..n] == requests[..n][k := request];
      assert requests[k := request][n] == requests[n];
      AddBoth(Held(requests[..n][k := request], p), Share(requests[k], p), Held(requests[..n], p), Share(request, p),
              Share(requests[n], p));
    } else {
      assert requests[k := request][..n] == requests[..n];
    }
  }

  lemma HeldMore(requests: seq<Request>, request: Request, p: Str)
    ensures Held(requests + [request], p) == Held(requests, p) + Share(request, p)
  {
    assert (requests + [request])[..|requests|] == requests;
  }

  lemma SwapPermutes<T>(s: seq<T>, i: nat, j: nat)
    requires j <= i < |s|
    ensures multiset(Swapped(s, i, j)) == multiset(s)
  {
  }

  /** Where the submissions of a poll are in one state: waiting or held by a request. */
  ghost function Inside(r: Relay, p: Str): multiset<Str> {
    multiset(Queue(r, p)) + Held(r.requests, p)
  }

  lemma WithInside(r: Relay, k: nat, request: Request, p: Str)
    requires k < |r.requests|
    ensures Inside(With(r, k, request), p) + Share(r.requests[k], p) == Inside(r, p) + Share(request, p)
  {
    hide Held, Share;
    HeldUpdate(r.requests, k, request, p);
    AddBoth(Held(r.requests[k := request], p), Share(r.requests[k], p), Held(r.requests, p), Share(request, p),
            multiset(Queue(r, p)));
  }

  lemma RestoreInside(r: Relay, k: nat, p: Str)
    requires k < |r.requests|
    ensures Inside(Restored(r, k), p) == Inside(r, p)
  {
    var q := r.requests[k];
    var refilled := r.(queue := r.queue[q.poll := q.batch + Queue(r, q.poll)]);
    assert Inside(refilled, p) == Inside(r, p) + Share(q, p);
    WithInside(refilled, k, q.(phase := Done, batch := []), p);
    assert Share(q.(phase := Done, batch := []), p) == multiset{};
    var after := With(refilled, k, q.(phase := Done, batch := []));
    assert Restored(r, k) == after;
    hide Inside, Held, Share, Restored, With;
    Cancel(Inside(after, p), Inside(r, p), multiset{}, Share(q, p), Share(q, p));
  }

  /** One atomic step: what is inside grows by a submission, shrinks by what upstream
      accepted, and is otherwise the same multiset. */
  lemma StepConserves(r: Relay, e: Event, p: Str)
    requires Enabled(r, e)
    ensures Inside(Next(r, e), p) + Leaving(r, e, p) == Inside(r, p) + Arriving(e, p)
  {
    hide Inside, Held, Share;
    match e
    case Submit(_, _) => SubmitInside(r, e, p);
    case Dequeue(q) => DequeueInside(r, q, p);
    case Restore(k) => RestoreInside(r, k, p);
    case _ => OwnMoveInside(r, e, p);
  }

  lemma SubmitInside(r: Relay, e: Event, p: Str)
    requires e.Submit?
    ensures Inside(Next(r, e), p) == Inside(r, p) + Arriving(e, p)
  {
    hide Held;
  }

  lemma DequeueInside(r: Relay, q: Str, p: Str)
    requires Enabled(r, Dequeue(q))
    ensures Inside(Next(r, Dequeue(q)), p) == Inside(r, p)
  {
    HeldMore(r.requests, Request(q, Shuffling, Queue(r, q)), p);
    hide Held;
  }

  lemma OwnMoveInside(r: Relay, e: Event, p: Str)
    requires Enabled(r, e) && !e.Submit? && !e.Dequeue? && !e.Restore?
    ensures Inside(Next(r, e), p) + Leaving(r, e, p) == Inside(r, p)
  {
    RequestMoves(r, e);
    ShareMoves(r, e, p);
    hide Inside, Share, Next, Enabled, Leaving, With;
    var now := Next(r, e).requests[e.request];
    WithInside(r, e.request, now, p);
    Cancel(Inside(Next(r, e), p), Inside(r, p), Leaving(r, e, p), Share(r.requests[e.request], p), Share(now, p));
  }

  lemma ShareMoves(r: Relay, e: Event, p: Str)
    requires Enabled(r, e) && !e.Submit? && !e.Dequeue? && !e.Restore?
    ensures Share(r.requests[e.request], p) == Share(Next(r, e).requests[e.request], p) + Leaving(r, e, p)
  {
    hide Share, Swapped;
    var was, now := r.requests[e.request], Next(r, e).requests[e.request];
    if e.Swap? {
      SwapPermutes(was.batch, e.i, e.j);
      SameShare(was, now, p);
    } else if e.PostAccepted? {
      ShareLess(was, now, p);
    } else {
      SameShare(was, now, p);
    }
  }

  lemma SameShare(was: Request, now: Request, p: Str)
    requires was.poll == now.poll && multiset(was.batch) == multiset(now.batch)
    ensures Share(was, p) == Share(now, p)
  {
  }

  lemma ShareLess(was: Request, now: Request, p: Str)
    requires was.poll == now.poll && was.batch != [] && now.batch == was.batch[1..]
    ensures Share(was, p) == Share(now, p) + (if was.poll == p then multiset{was.batch[0]} else multiset{})
  {
    TakeFirst(was.batch);
  }

  lemma RequestMoves(r: Relay, e: Event)
    requires Enabled(r, e) && !e.Submit? && !e.Dequeue? && !e.Restore?
    ensures e.request < |r.requests| && |Next(r, e).requests| == |r.requests|
    ensures Next(r, e) == With(r, e.request, Next(r, e).requests[e.request])
  {
  }

  /** At every atomic step of every interleaving, what was submitted to a poll is in the
      queue, held by a request, or accepted upstream: nothing lost, nothing twice. */
  lemma {:induction false} Conservation(events: seq<Event>, p: Str)
    requires IsRun(events)
    ensures Submitted(events, p) == Inside(After(events), p) + Acknowledged(events, p)
    decreases |events|
  {
    hide Inside, Next, Enabled, Leaving, Arriving;
    if events == [] {
      EmptyInside(p);
    } else {
      var before, e := events[..|events| - 1], events[|events| - 1];
      Conservation(before, p);
      StepConserves(After(before), e, p);
      StillBalanced(Submitted(before, p), Inside(After(before), p), Acknowledged(before, p),
                    Inside(After(events), p), Arriving(e, p), Leaving(After(before), e, p));
    }
  }

  lemma EmptyInside(p: Str)
    ensures Inside(EMPTY, p) == multiset{}
  {
  }

  lemma StillBalanced<T>(all: multiset<T>, inside: multiset<T>, out: multiset<T>, now: multiset<T>,
                         come: multiset<T>, go: multiset<T>)
    requires all == inside + out && now + go == inside + come
    ensures all + come == now + (out + go)
  {
    assert all + come == (inside + come) + out == (now + go) + out == now + (out + go);
  }

  /** When no request is under way and the queue is empty, exactly what was submitted was
      accepted. */
  lemma EverythingDelivered(events: seq<Event>, p: Str)
    requires IsRun(events) && Queue(After(events), p) == []
    requires forall k | 0 <= k < |After(events).requests| :: After(events).requests[k].phase == Done
    ensures Acknowledged(events, p) == Submitted(events, p)
  {
    Conservation(events, p);
    DoneIsEmptyHanded(events);
    NothingHeld(After(events).requests, p);
  }

  lemma {:induction false} DoneIsEmptyHanded(events: seq<Event>)
    requires IsRun(events)
    ensures forall k | 0 <= k < |After(events).requests| && After(events).requests[k].phase == Done ::
              After(events).requests[k].batch == []
    decreases |events|
  {
    if events != [] {
      DoneIsEmptyHanded(events[..|events| - 1]);
    }
  }

  lemma {:induction false} NothingHeld(requests: seq<Request>, p: Str)
    requires forall k | 0 <= k < |requests| :: requests[k].batch == []
    ensures Held(requests, p) == multiset{}
  {
    if requests != [] {
      NothingHeld(requests[..|requests| - 1], p);
    }
  }

  // ----- one failing request, whatever else happens -----

  predicate Touches(e: Event, request: nat) {
    match e
    case Submit(_, _) => false
    case Dequeue(_) => false
    case Swap(k, _, _) => k == request
    case Shuffled(k) => k == request
    case ShuffleFailed(k) => k == request
    case PostAccepted(k) => k == request
    case PostFailed(k) => k == request
    case Restore(k) => k == request
    case FlushAnswered(k) => k == request
  }

  ghost predicate Continues(r: Relay, events: seq<Event>)
    decreases |events|
  {
    events == [] || (Enabled(r, events[0]) && Continues(Next(r, events[0]), events[1..]))
  }

  ghost function Continue(r: Relay, events: seq<Event>): Relay
    requires Continues(r, events)
    decreases |events|
  {
    if events == [] then r else Continue(Next(r, events[0]), events[1..])
  }

  /** Nobody else changes a request's copy: whatever the other requests and submitters do
      between its failing and its restore, exactly the undelivered rest goes back, ahead of
      everything that has arrived meanwhile. */
  lemma RestoredAhead(r: Relay, k: nat, meanwhile: seq<Event>)
    requires InPhase(r, k, Posting) && r.requests[k].batch != []
    requires Continues(Next(r, PostFailed(k)), meanwhile) && forall e | e in meanwhile :: !Touches(e, k)
    ensures var before := Continue(Next(r, PostFailed(k)), meanwhile);
      && Enabled(before, Restore(k))
      && Queue(Next(before, Restore(k)), r.requests[k].poll) == r.requests[k].batch + Queue(before, r.requests[k].poll)
      && forall p | p != r.requests[k].poll :: Queue(Next(before, Restore(k)), p) == Queue(before, p)
  {
    Untouched(Next(r, PostFailed(k)), k, meanwhile);
  }

  lemma {:induction false} Untouched(r: Relay, k: nat, events: seq<Event>)
    requires k < |r.requests| && Continues(r, events) && forall e | e in events :: !Touches(e, k)
    ensures k < |Continue(r, events).requests| && Continue(r, events).requests[k] == r.requests[k]
    decreases |events|
  {
    if events != [] {
      assert !Touches(events[0], k);
      assert Next(r, events[0]).requests[k] == r.requests[k];
      Untouched(Next(r, events[0]), k, events[1..]);
    }
  }

  // ----- one request and nobody else -----

  /** One request comes from r to s by steps of its own. */
  ghost predicate Alone(r: Relay, k: nat, s: Relay) {
    exists events :: Continues(r, events) && (forall e | e in events :: Touches(e, k)) && Continue(r, events) == s
  }

  lemma AloneStays(r: Relay, k: nat)
    ensures Alone(r, k, r)
  {
    assert Continues(r, []) && Continue(r, []) == r;
  }

  lemma AloneSteps(r: Relay, k: nat, s: Relay, e: Event)
    requires Alone(r, k, s) && Touches(e, k) && Enabled(s, e)
    ensures Alone(r, k, Next(s, e))
  {
    hide Next, Enabled, Touches;
    var events :| Continues(r, events) && (forall e | e in events :: Touches(e, k)) && Continue(r, events) == s;
    ContinueMore(r, events, e);
    assert forall x | x in events + [e] :: Touches(x, k);
  }

  lemma {:induction false} ContinueMore(r: Relay, events: seq<Event>, e: Event)
    requires Continues(r, events) && Enabled(Continue(r, events), e)
    ensures Continues(r, events + [e]) && Continue(r, events + [e]) == Next(Continue(r, events), e)
    decreases |events|
  {
    hide Next, Enabled;
    if events != [] {
      ContinueMore(Next(r, events[0]), events[1..], e);
      assert (events + [e])[0] == events[0] && (events + [e])[1..] == events[1..] + [e];
    } else {
      assert [] + [e] == [e] && [e][1..] == [];
    }
  }

  lemma {:induction false} PostsReach(from: Relay, r: Relay, k: nat, n: nat)
    requires Alone(from, k, r) && InPhase(r, k, Posting) && n <= |r.requests[k].batch|
    ensures Alone(from, k, With(r, k, r.requests[k].(batch := r.requests[k].batch[n..])))
    decreases n
  {
    hide Alone;
    var batch := r.requests[k].batch;
    if n == 0 {
      assert batch[0..] == batch && With(r, k, r.requests[k]) == r;
    } else {
      AloneSteps(from, k, r, PostAccepted(k));
      var s := Next(r, PostAccepted(k));
      PostsReach(from, s, k, n - 1);
      assert batch[1..][n - 1..] == batch[n..];
      assert With(s, k, s.requests[k].(batch := batch[n..])) == With(r, k, r.requests[k].(batch := batch[n..]));
    }
  }
}
