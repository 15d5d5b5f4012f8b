/** The submission queue of the API server: entries wait per poll, a flush takes the whole
    queue, broadcasts it as one batch and puts all of it back when the ledger refuses.

    The server and the ledger each derive the submission id and the identity of an entry in
    their own way: the server to keep duplicates out of the queue, the ledger to refuse a
    batch that holds one. Both derivations are modelled, for every identity mode.

    Every event is one critical section; a run is any interleaving of them. */
module ServerQueue {
  import opened Ordering
  import V = VotingSpec
  import Merkle

  /** How the ledger identifies a participant; `Device` stands for both issuers that attest
      a device key. */
  datatype Mode = Device | Nullifier | Wallet

  /** What a cast carries of its participant and its nonce. The wallet address is trimmed
      and in lower case. */
  datatype Ballot = Ballot(nonce: Str, beacon: Str, withPayload: bool, choices: seq<Str>,
                           nullifier: Str, deviceKey: Str, wallet: Str)

  /** Hash, JSON text of the choices, decoding of hexadecimal text, and the identity mode. */
  datatype Config = Config(h: Str -> Str, json: seq<Str> -> Str, unhex: Str -> Str, mode: Mode)

  // ----- the two derivations -----

  function ServerIdBytes(cfg: Config, b: Ballot): Str {
    if b.withPayload then b.nonce + [58] + cfg.json(b.choices) else b.nonce
  }

  function ServerId(cfg: Config, b: Ballot): Str {
    cfg.h(ServerIdBytes(cfg, b))
  }

  /** An empty beacon falls back to the nonce alone. */
  function LedgerIdBytes(cfg: Config, b: Ballot): Str {
    if b.withPayload then b.nonce + [58] + cfg.json(b.choices)
    else if b.beacon == [] then b.nonce
    else cfg.unhex(b.beacon) + cfg.unhex(b.nonce)
  }

  function LedgerId(cfg: Config, b: Ballot): Str {
    cfg.h(LedgerIdBytes(cfg, b))
  }

  /** Without a nullifier and a device key the server refuses the ballot. */
  predicate Identifiable(b: Ballot) {
    b.nullifier != [] || b.deviceKey != []
  }

  function ServerIdentity(cfg: Config, p: Str, b: Ballot): Str {
    if b.nullifier != [] then b.nullifier else cfg.h(b.deviceKey + p)
  }

  function LedgerIdentity(cfg: Config, p: Str, b: Ballot): Str {
    match cfg.mode
    case Device => cfg.h(b.deviceKey + p)
    case Nullifier => b.nullifier
    case Wallet => cfg.h(b.wallet + [58] + p)
  }

  // ----- the queue -----

  datatype Flight = Flight(poll: Str, batch: seq<Ballot>)
  datatype Server = Server(queue: map<Str, seq<Ballot>>, flights: seq<Flight>)

  datatype Event =
    | Enqueue(poll: Str, item: Ballot)
    | Dequeue(poll: Str)
    | Accepted(flight: nat)
    | Refused(flight: nat)

  function Queue(s: Server, p: Str): seq<Ballot> {
    if p in s.queue then s.queue[p] else []
  }

  predicate ServerClash(cfg: Config, p: Str, a: Ballot, b: Ballot) {
    ServerId(cfg, a) == ServerId(cfg, b) || ServerIdentity(cfg, p, a) == ServerIdentity(cfg, p, b)
  }

  predicate LedgerClash(cfg: Config, p: Str, a: Ballot, b: Ballot) {
    LedgerId(cfg, a) == LedgerId(cfg, b) || LedgerIdentity(cfg, p, a) == LedgerIdentity(cfg, p, b)
  }

  /** No two entries clash for the server. */
  ghost predicate Unique(cfg: Config, p: Str, q: seq<Ballot>) {
    forall i, j | 0 <= i < j < |q| :: !ServerClash(cfg, p, q[i], q[j])
  }

  ghost predicate Apart(cfg: Config, p: Str, a: seq<Ballot>, b: seq<Ballot>) {
    forall i, j | 0 <= i < |a| && 0 <= j < |b| :: !ServerClash(cfg, p, a[i], b[j])
  }

  /** No two entries clash for the ledger. */
  ghost predicate Acceptable(cfg: Config, p: Str, q: seq<Ballot>) {
    forall i, j | 0 <= i < j < |q| :: !LedgerClash(cfg, p, q[i], q[j])
  }

  /** A batch the ledger accepts has no clash for the ledger; everything else about
      acceptance is open. */
  ghost predicate Enabled(cfg: Config, s: Server, e: Event) {
    match e
    case Enqueue(p, item) => Identifiable(item) && Apart(cfg, p, Queue(s, p), [item])
    case Dequeue(p) => Queue(s, p) != []
    case Accepted(k) => k < |s.flights| && Acceptable(cfg, s.flights[k].poll, s.flights[k].batch)
    case Refused(k) => k < |s.flights|
  }

  function Landed(s: Server, k: nat): Server
    requires k < |s.flights|
  {
    s.(flights := s.flights[..k] + s.flights[k + 1..])
  }

  function Restored(s: Server, k: nat): Server
    requires k < |s.flights|
  {
    var p := s.flights[k].poll;
    Landed(s, k).(queue := s.queue[p := s.flights[k].batch + Queue(s, p)])
  }

  ghost function Next(cfg: Config, s: Server, e: Event): Server
    requires Enabled(cfg, s, e)
  {
    match e
    case Enqueue(p, item) => s.(queue := s.queue[p := Queue(s, p) + [item]])
    case Dequeue(p) => Server(s.queue - {p}, s.flights + [Flight(p, Queue(s, p))])
    case Accepted(k) => Landed(s, k)
    case Refused(k) => Restored(s, k)
  }

  ghost predicate Continues(cfg: Config, s: Server, events: seq<Event>)
    decreases |events|
  {
    events == [] || (Enabled(cfg, s, events[0]) && Continues(cfg, Next(cfg, s, events[0]), events[1..]))
  }

  ghost function Continue(cfg: Config, s: Server, events: seq<Event>): Server
    requires Continues(cfg, s, events)
    decreases |events|
  {
    if events == [] then s else Continue(cfg, Next(cfg, s, events[0]), events[1..])
  }

  // ----- conservation -----

  ghost function Share(f: Flight, p: Str): multiset<Ballot> {
    if f.poll == p then multiset(f.batch) else multiset{}
  }

  ghost function InFlight(flights: seq<Flight>, p: Str): multiset<Ballot> {
    if flights == [] then multiset{} else InFlight(flights[..|flights| - 1], p) + Share(flights[|flights| - 1], p)
  }

  /** The entries of a poll that wait or are being flushed. */
  ghost function Inside(s: Server, p: Str): multiset<Ballot> {
    multiset(Queue(s, p)) + InFlight(s.flights, p)
  }

  ghost function Arriving(e: Event, p: Str): multiset<Ballot> {
    if e.Enqueue? && e.poll == p then multiset{e.item} else multiset{}
  }

  ghost function Leaving(cfg: Config, s: Server, e: Event, p: Str): multiset<Ballot>
    requires Enabled(cfg, s, e)
  {
    if e.Accepted? then Share(s.flights[e.flight], p) else multiset{}
  }

  ghost function Enqueued(events: seq<Event>, p: Str): multiset<Ballot> {
    if events == [] then multiset{} else Arriving(events[0], p) + Enqueued(events[1..], p)
  }

  ghost function Delivered(cfg: Config, s: Server, events: seq<Event>, p: Str): multiset<Ballot>
    requires Continues(cfg, s, events)
    decreases |events|
  {
    if events == [] then multiset{}
      else Leaving(cfg, s, events[0], p) + Delivered(cfg, Next(cfg, s, events[0]), events[1..], p)
  }

  lemma {:induction false} InFlightWithout(flights: seq<Flight>, k: nat, p: Str)
    requires k < |flights|
    ensures InFlight(flights, p) == InFlight(flights[..k] + flights[k + 1..], p) + Share(flights[k], p)
    decreases |flights|
  {
    hide Share;
    var n := |flights| - 1;
    var rest := flights[..k] + flights[k + 1..];
    if k == n {
      assert rest == flights[..n];
    } else {
      InFlightWithout(flights[..n], k, p);
      assert rest[..n - 1] == flights[..n][..k] + flights[..n][k + 1..];
      assert rest[n - 1] == flights[n];
    }
  }

  lemma {:induction false} StepConserves(cfg: Config, s: Server, e: Event, p: Str)
    requires Enabled(cfg, s, e)
    ensures Inside(Next(cfg, s, e), p) + Leaving(cfg, s, e, p) == Inside(s, p) + Arriving(e, p)
  {
    hide InFlight, Share, Apart, Acceptable, Inside;
    match e
    case Enqueue(p', item) => EnqueueInside(cfg, s, p', item, p);
    case Dequeue(q) => DequeueInside(cfg, s, q, p);
    case Accepted(k) => AcceptedInside(s, k, p);
    case Refused(k) => RefusedInside(s, k, p);
  }

  lemma EnqueueInside(cfg: Config, s: Server, q: Str, item: Ballot, p: Str)
    requires Enabled(cfg, s, Enqueue(q, item))
    ensures Inside(Next(cfg, s, Enqueue(q, item)), p) == Inside(s, p) + Arriving(Enqueue(q, item), p)
  {
    hide InFlight, Apart;
  }

  lemma DequeueInside(cfg: Config, s: Server, q: Str, p: Str)
    requires Enabled(cfg, s, Dequeue(q))
    ensures Inside(Next(cfg, s, Dequeue(q)), p) == Inside(s, p)
  {
    hide InFlight;
    InFlightMore(s.flights, Flight(q, Queue(s, q)), p);
  }

  lemma AcceptedInside(s: Server, k: nat, p: Str)
    requires k < |s.flights|
    ensures Inside(Landed(s, k), p) + Share(s.flights[k], p) == Inside(s, p)
  {
    hide InFlight, Share;
    InFlightWithout(s.flights, k, p);
  }

  lemma RefusedInside(s: Server, k: nat, p: Str)
    requires k < |s.flights|
    ensures Inside(Restored(s, k), p) == Inside(s, p)
  {
    hide InFlight;
    InFlightWithout(s.flights, k, p);
  }

  lemma InFlightMore(flights: seq<Flight>, f: Flight, p: Str)
    ensures InFlight(flights + [f], p) == InFlight(flights, p) + Share(f, p)
  {
    assert (flights + [f])[..|flights|] == flights;
  }

  /** Over every interleaving, entries are never lost and never multiplied. */
  lemma {:induction false} Conservation(cfg: Config, s: Server, events: seq<Event>, p: Str)
    requires Continues(cfg, s, events)
    ensures Inside(s, p) + Enqueued(events, p) == Inside(Continue(cfg, s, events), p) + Delivered(cfg, s, events, p)
    decreases |events|
  {
    if events != [] {
      StepConserves(cfg, s, events[0], p);
      hide Inside, Leaving, Arriving, Enabled, Next;
      Conservation(cfg, Next(cfg, s, events[0]), events[1..], p);
      Chained(Inside(s, p), Arriving(events[0], p), Inside(Next(cfg, s, events[0]), p), Leaving(cfg, s, events[0], p),
              Enqueued(events[1..], p), Inside(Continue(cfg, s, events), p),
              Delivered(cfg, Next(cfg, s, events[0]), events[1..], p));
    }
  }

  lemma Chained<T>(a: multiset<T>, come: multiset<T>, b: multiset<T>, go: multiset<T>, laterCome: multiset<T>,
                   c: multiset<T>, laterGo: multiset<T>)
    requires b + go == a + come && b + laterCome == c + laterGo
    ensures a + (come + laterCome) == c + (go + laterGo)
  {
    assert a + (come + laterCome) == (a + come) + laterCome == (b + laterCome) + go == c + (go + laterGo);
  }

  // ----- what the ledger refuses -----

  /** The entries as the ledger sees them. */
  function Casts(cfg: Config, p: Str, batch: seq<Ballot>): seq<V.Cast> {
    seq(|batch|, i requires 0 <= i < |batch| =>
      V.Cast(LedgerId(cfg, batch[i]), LedgerIdentity(cfg, p, batch[i]), batch[i].choices, []))
  }

  /** Why an accepted batch has no clash for the ledger. */
  lemma LedgerRefusesClashes(cfg: Config, s: V.State, p: Str, batch: seq<Ballot>, now: int)
    requires V.Valid(s, V.BatchFlush(p, Casts(cfg, p, batch), now))
    ensures Acceptable(cfg, p, batch)
  {
    var casts := Casts(cfg, p, batch);
    forall i, j | 0 <= i < j < |batch| ensures !LedgerClash(cfg, p, batch[i], batch[j]) {
      assert V.BallotIds(casts)[i] != V.BallotIds(casts)[j] && V.Identities(casts)[i] != V.Identities(casts)[j];
    }
  }

  // ----- uniqueness for the server -----

  lemma UniqueJoin(cfg: Config, p: Str, a: seq<Ballot>, b: seq<Ballot>)
    ensures Unique(cfg, p, a + b) <==> Unique(cfg, p, a) && Unique(cfg, p, b) && Apart(cfg, p, a, b)
  {
    hide ServerClash;
    if Unique(cfg, p, a + b) {
      forall i, j | 0 <= i < j < |a| ensures !ServerClash(cfg, p, a[i], a[j]) {
        assert (a + b)[i] == a[i] && (a + b)[j] == a[j];
      }
      forall i, j | 0 <= i < j < |b| ensures !ServerClash(cfg, p, b[i], b[j]) {
        assert (a + b)[|a| + i] == b[i] && (a + b)[|a| + j] == b[j];
      }
      forall i, j | 0 <= i < |a| && 0 <= j < |b| ensures !ServerClash(cfg, p, a[i], b[j]) {
        assert (a + b)[i] == a[i] && (a + b)[|a| + j] == b[j];
      }
    }
  }

  ghost predicate AllUnique(cfg: Config, s: Server) {
    && (forall p :: Unique(cfg, p, Queue(s, p)))
    && (forall k | 0 <= k < |s.flights| :: Unique(cfg, s.flights[k].poll, s.flights[k].batch))
  }

  /** Whether the batch that comes back meets newer entries it clashes with. */
  ghost predicate Collides(cfg: Config, s: Server, e: Event) {
    && e.Refused? && e.flight < |s.flights|
    && !Apart(cfg, s.flights[e.flight].poll, s.flights[e.flight].batch, Queue(s, s.flights[e.flight].poll))
  }

  /** What the server takes for duplicates stays out of queues and batches through every
      event but one kind: exactly a refused batch coming back to newer entries that clash
      with it breaks it. */
  lemma UniqueExactly(cfg: Config, s: Server, e: Event)
    requires Enabled(cfg, s, e) && AllUnique(cfg, s)
    ensures AllUnique(cfg, Next(cfg, s, e)) <==> !Collides(cfg, s, e)
  {
    hide Unique, Apart, Acceptable;
    var t := Next(cfg, s, e);
    match e
    case Enqueue(p, item) =>
      UniqueJoin(cfg, p, Queue(s, p), [item]);
      UniqueOne(cfg, p, item);
      assert Queue(t, p) == Queue(s, p) + [item];
      forall q ensures Unique(cfg, q, Queue(t, q)) {
        assert q != p ==> Queue(t, q) == Queue(s, q);
      }
    case Dequeue(p) =>
      UniqueNone(cfg, p);
      forall q ensures Unique(cfg, q, Queue(t, q)) {
        assert Queue(t, q) == if q == p then [] else Queue(s, q);
      }
    case Accepted(k) =>
      forall q ensures Unique(cfg, q, Queue(t, q)) {
        assert Queue(t, q) == Queue(s, q);
      }
    case Refused(k) =>
      var p := s.flights[k].poll;
      UniqueJoin(cfg, p, s.flights[k].batch, Queue(s, p));
      assert Queue(t, p) == s.flights[k].batch + Queue(s, p);
      forall q ensures q != p ==> Unique(cfg, q, Queue(t, q)) {
        assert q != p ==> Queue(t, q) == Queue(s, q);
      }
  }

  lemma UniqueNone(cfg: Config, p: Str)
    ensures Unique(cfg, p, [])
  {
  }

  lemma UniqueOne(cfg: Config, p: Str, item: Ballot)
    ensures Unique(cfg, p, [item])
  {
  }

  // ----- what a clash for the ledger does to its poll -----

  lemma AcceptableParts(cfg: Config, p: Str, a: seq<Ballot>, b: seq<Ballot>)
    requires Acceptable(cfg, p, a + b)
    ensures Acceptable(cfg, p, a) && Acceptable(cfg, p, b)
  {
    hide LedgerClash;
    forall i, j | 0 <= i < j < |a| ensures !LedgerClash(cfg, p, a[i], a[j]) {
      assert (a + b)[i] == a[i] && (a + b)[j] == a[j];
    }
    forall i, j | 0 <= i < j < |b| ensures !LedgerClash(cfg, p, b[i], b[j]) {
      assert (a + b)[|a| + i] == b[i] && (a + b)[|a| + j] == b[j];
    }
  }

  /** Some queue or batch of the poll holds two entries that clash for the ledger. */
  ghost predicate Stuck(cfg: Config, s: Server, p: Str) {
    || !Acceptable(cfg, p, Queue(s, p))
    || exists k :: 0 <= k < |s.flights| && s.flights[k].poll == p && !Acceptable(cfg, p, s.flights[k].batch)
  }

  /** Once two entries that clash for the ledger are queued together they are never
      delivered: whatever is submitted, flushed, accepted or refused from then on, the poll
      keeps holding a batch that the ledger refuses. */
  lemma {:induction false} StuckForever(cfg: Config, s: Server, p: Str, events: seq<Event>)
    requires Stuck(cfg, s, p) && Continues(cfg, s, events)
    ensures Stuck(cfg, Continue(cfg, s, events), p)
    decreases |events|
  {
    hide Stuck, Enabled;
    if events != [] {
      StuckStep(cfg, s, p, events[0]);
      StuckForever(cfg, Next(cfg, s, events[0]), p, events[1..]);
    }
  }

  lemma StuckStep(cfg: Config, s: Server, p: Str, e: Event)
    requires Stuck(cfg, s, p) && Enabled(cfg, s, e)
    ensures Stuck(cfg, Next(cfg, s, e), p)
  {
    hide Acceptable, Apart;
    var t := Next(cfg, s, e);
    if Acceptable(cfg, p, Queue(s, p)) {
      var k :| 0 <= k < |s.flights| && s.flights[k].poll == p && !Acceptable(cfg, p, s.flights[k].batch);
      StuckBatch(cfg, s, p, k, e);
    } else {
      match e
      case Enqueue(q, item) =>
        if q == p && Acceptable(cfg, p, Queue(s, p) + [item]) {
          AcceptableParts(cfg, p, Queue(s, p), [item]);
        }
      case Dequeue(q) =>
        if q == p {
          assert t.flights[|s.flights|] == Flight(p, Queue(s, p));
        } else {
          assert Queue(t, p) == Queue(s, p);
        }
      case Accepted(_) => assert Queue(t, p) == Queue(s, p);
      case Refused(j) =>
        if s.flights[j].poll != p {
          assert Queue(t, p) == Queue(s, p);
        } else if Acceptable(cfg, p, s.flights[j].batch + Queue(s, p)) {
          AcceptableParts(cfg, p, s.flights[j].batch, Queue(s, p));
        }
    }
  }

  lemma StuckBatch(cfg: Config, s: Server, p: Str, k: nat, e: Event)
    requires Enabled(cfg, s, e) && k < |s.flights| && s.flights[k].poll == p && !Acceptable(cfg, p, s.flights[k].batch)
    ensures Stuck(cfg, Next(cfg, s, e), p)
  {
    hide Acceptable, Apart;
    var t := Next(cfg, s, e);
    match e
    case Enqueue(_, _) => assert t.flights[k] == s.flights[k];
    case Dequeue(_) => assert t.flights[k] == s.flights[k];
    case Accepted(j) =>
      assert j != k;
      assert t.flights[if k < j then k else k - 1] == s.flights[k];
    case Refused(j) =>
      if j == k {
        assert Queue(t, p) == s.flights[k].batch + Queue(s, p);
        if Acceptable(cfg, p, s.flights[k].batch + Queue(s, p)) {
          AcceptableParts(cfg, p, s.flights[k].batch, Queue(s, p));
        }
      } else {
        assert t.flights[if k < j then k else k - 1] == s.flights[k];
      }
  }

  // ----- how two clashing entries come together -----

  const IDLE := Server(map[], [])

  /** The duplicate check sees only what is waiting: whatever the two ballots have in
      common, the second is queued while the first is in a batch, and the batch is then
      refused. The two wait together, and the poll is stuck exactly if they clash for the
      ledger; otherwise their batch can still be accepted. */
  lemma TogetherAfterRefusal(cfg: Config, p: Str, a: Ballot, b: Ballot)
    requires Identifiable(a) && Identifiable(b)
    ensures var events := [Enqueue(p, a), Dequeue(p), Enqueue(p, b), Refused(0)];
      && Continues(cfg, IDLE, events)
      && var s := Continue(cfg, IDLE, events);
      && Queue(s, p) == [a, b] && s.flights == []
      && (Stuck(cfg, s, p) <==> LedgerClash(cfg, p, a, b))
      && (!LedgerClash(cfg, p, a, b) ==> Continues(cfg, s, [Dequeue(p), Accepted(0)]))
  {
    hide ServerClash, LedgerClash;
    var e0, e1, e2, e3 := Enqueue(p, a), Dequeue(p), Enqueue(p, b), Refused(0);
    var s1 := Next(cfg, IDLE, e0);
    assert Queue(s1, p) == [a];
    var s2 := Next(cfg, s1, e1);
    assert s2.queue == map[] && s2.flights == [Flight(p, [a])];
    var s3 := Next(cfg, s2, e2);
    assert Queue(s3, p) == [b] && s3.flights == s2.flights;
    var s4 := Next(cfg, s3, e3);
    assert Queue(s4, p) == [a] + [b] == [a, b] && s4.flights == [];
    Chain(cfg, IDLE, e0, [e1, e2, e3]);
    Chain(cfg, s1, e1, [e2, e3]);
    Chain(cfg, s2, e2, [e3]);
    Chain(cfg, s3, e3, []);
    assert [e0] + [e1, e2, e3] == [e0, e1, e2, e3] && [e1] + [e2, e3] == [e1, e2, e3] && [e2] + [e3] == [e2, e3];
    assert [e3] + [] == [e3];
    PairAcceptable(cfg, p, a, b);
    if !LedgerClash(cfg, p, a, b) {
      Deliverable(cfg, s4, p);
    }
  }

  lemma PairAcceptable(cfg: Config, p: Str, a: Ballot, b: Ballot)
    ensures Acceptable(cfg, p, [a, b]) <==> !LedgerClash(cfg, p, a, b)
  {
    hide LedgerClash;
    assert [a, b][0] == a && [a, b][1] == b;
  }

  lemma Deliverable(cfg: Config, s: Server, p: Str)
    requires s.flights == [] && Queue(s, p) != [] && Acceptable(cfg, p, Queue(s, p))
    ensures Continues(cfg, s, [Dequeue(p), Accepted(0)])
  {
    hide Acceptable;
    var t := Next(cfg, s, Dequeue(p));
    assert t.flights == [Flight(p, Queue(s, p))];
    Chain(cfg, t, Accepted(0), []);
    Chain(cfg, s, Dequeue(p), [Accepted(0)]);
    assert [Accepted(0)] + [] == [Accepted(0)] && [Dequeue(p)] + [Accepted(0)] == [Dequeue(p), Accepted(0)];
  }

  lemma Chain(cfg: Config, s: Server, e: Event, rest: seq<Event>)
    requires Enabled(cfg, s, e)
    ensures Continues(cfg, s, [e] + rest) <==> Continues(cfg, Next(cfg, s, e), rest)
    ensures Continues(cfg, Next(cfg, s, e), rest) ==>
      Continue(cfg, s, [e] + rest) == Continue(cfg, Next(cfg, s, e), rest)
  {
    assert ([e] + rest)[1..] == rest;
  }

  /** One participant queueing the same ballot again while the first is in a refused batch
      clashes for both, in every mode: the poll is stuck. */
  lemma DuplicateAfterRefusal(cfg: Config, p: Str, item: Ballot)
    requires Identifiable(item)
    ensures var events := [Enqueue(p, item), Dequeue(p), Enqueue(p, item), Refused(0)];
      Continues(cfg, IDLE, events) && Stuck(cfg, Continue(cfg, IDLE, events), p)
  {
    TogetherAfterRefusal(cfg, p, item, item);
  }

  /** And without any refusal: two ballots that the server keeps apart but the ledger does
      not are queued one after the other. */
  lemma TogetherUnseen(cfg: Config, p: Str, a: Ballot, b: Ballot)
    requires Identifiable(a) && Identifiable(b) && !ServerClash(cfg, p, a, b) && LedgerClash(cfg, p, a, b)
    ensures var events := [Enqueue(p, a), Enqueue(p, b)];
      Continues(cfg, IDLE, events) && Stuck(cfg, Continue(cfg, IDLE, events), p)
  {
    hide ServerClash, LedgerClash;
    var e0, e1 := Enqueue(p, a), Enqueue(p, b);
    var s1 := Next(cfg, IDLE, e0);
    assert Queue(s1, p) == [a];
    assert Enabled(cfg, s1, e1);
    var s2 := Next(cfg, s1, e1);
    assert Queue(s2, p) == [a] + [b] == [a, b];
    Chain(cfg, IDLE, e0, [e1]);
    Chain(cfg, s1, e1, []);
    assert [e0] + [e1] == [e0, e1] && [e1] + [] == [e1];
    PairAcceptable(cfg, p, a, b);
  }

  // ----- when the two derivations agree -----

  /** What the server goes by. */
  datatype Claim = ByNullifier(nullifier: Str) | ByDevice(deviceKey: Str)

  function ServerClaim(b: Ballot): Claim {
    if b.nullifier != [] then ByNullifier(b.nullifier) else ByDevice(b.deviceKey)
  }

  /** What the ledger goes by. */
  function LedgerClaim(cfg: Config, b: Ballot): Str {
    match cfg.mode
    case Device => b.deviceKey
    case Nullifier => b.nullifier
    case Wallet => b.wallet
  }

  /** The nullifier of one ballot is the digest by which the server knows the device of the
      other. A nullifier is free text in the device and wallet modes. */
  predicate Borrows(cfg: Config, p: Str, a: Ballot, b: Ballot) {
    a.nullifier != [] && b.nullifier == [] && a.nullifier == cfg.h(b.deviceKey + p)
  }

  predicate SameForServer(cfg: Config, p: Str, a: Ballot, b: Ballot) {
    ServerClaim(a) == ServerClaim(b) || Borrows(cfg, p, a, b) || Borrows(cfg, p, b, a)
  }

  ghost predicate DigestsApart(cfg: Config, p: Str, a: Ballot, b: Ballot) {
    && Merkle.CollisionFree(cfg.h, {a.deviceKey + p, b.deviceKey + p})
    && Merkle.CollisionFree(cfg.h, {a.wallet + [58] + p, b.wallet + [58] + p})
  }

  lemma ServerIdentityIsClaim(cfg: Config, p: Str, a: Ballot, b: Ballot)
    requires DigestsApart(cfg, p, a, b)
    ensures ServerIdentity(cfg, p, a) == ServerIdentity(cfg, p, b) <==> SameForServer(cfg, p, a, b)
  {
    SamePrefix(a.deviceKey, b.deviceKey, p);
  }

  lemma LedgerIdentityIsClaim(cfg: Config, p: Str, a: Ballot, b: Ballot)
    requires DigestsApart(cfg, p, a, b)
    ensures LedgerIdentity(cfg, p, a) == LedgerIdentity(cfg, p, b) <==> LedgerClaim(cfg, a) == LedgerClaim(cfg, b)
  {
    SamePrefix(a.deviceKey, b.deviceKey, p);
    SameWallet(a, b, p);
  }

  /** The server and the ledger answer alike whether the two come from one participant. */
  predicate IdentityChecksAgree(cfg: Config, p: Str, a: Ballot, b: Ballot) {
    ServerIdentity(cfg, p, a) == ServerIdentity(cfg, p, b) <==> LedgerIdentity(cfg, p, a) == LedgerIdentity(cfg, p, b)
  }

  /** In every mode and for any two ballots the two identity checks say the same exactly
      when what the server goes by and what the ledger goes by tell the same participants
      apart. */
  lemma IdentityChecksIff(cfg: Config, p: Str, a: Ballot, b: Ballot)
    requires DigestsApart(cfg, p, a, b)
    ensures IdentityChecksAgree(cfg, p, a, b)
      <==> (SameForServer(cfg, p, a, b) <==> LedgerClaim(cfg, a) == LedgerClaim(cfg, b))
  {
    hide ServerIdentity, LedgerIdentity, SameForServer, LedgerClaim;
    ServerIdentityIsClaim(cfg, p, a, b);
    LedgerIdentityIsClaim(cfg, p, a, b);
  }

  lemma SameWallet(a: Ballot, b: Ballot, p: Str)
    ensures a.wallet + [58] + p == b.wallet + [58] + p <==> a.wallet == b.wallet
  {
    assert a.wallet + [58] + p == a.wallet + ([58] + p) && b.wallet + [58] + p == b.wallet + ([58] + p);
    SamePrefix(a.wallet, b.wallet, [58] + p);
  }

  lemma SamePrefix(x: Str, y: Str, tail: Str)
    ensures x + tail == y + tail <==> x == y
  {
    if x + tail == y + tail {
      assert |x + tail| == |y + tail| && |x| == |y|;
      assert x == (x + tail)[..|x|] && y == (y + tail)[..|y|];
    }
  }

  lemma SameParts(a: Str, x: Str, b: Str, y: Str)
    requires |a| == |b|
    ensures a + x == b + y <==> a == b && x == y
  {
    if a + x == b + y {
      assert a == (a + x)[..|a|] && b == (b + y)[..|b|];
      assert x == (a + x)[|a|..] && y == (b + y)[|b|..];
    }
  }

  ghost predicate IdsApart(cfg: Config, a: Ballot, b: Ballot) {
    Merkle.CollisionFree(cfg.h,
      {ServerIdBytes(cfg, a), ServerIdBytes(cfg, b), LedgerIdBytes(cfg, a), LedgerIdBytes(cfg, b)})
  }

  /** Both ids are made of the nonce, under beacons that decode to the same length. */
  predicate BothFromNonce(cfg: Config, a: Ballot, b: Ballot) {
    && !a.withPayload && !b.withPayload && a.beacon != [] && b.beacon != []
    && |cfg.unhex(a.beacon)| == |cfg.unhex(b.beacon)|
  }

  predicate IdChecksAgree(cfg: Config, a: Ballot, b: Ballot) {
    ServerId(cfg, a) == ServerId(cfg, b) <==> LedgerId(cfg, a) == LedgerId(cfg, b)
  }

  predicate SameDecoded(cfg: Config, a: Ballot, b: Ballot) {
    cfg.unhex(a.beacon) == cfg.unhex(b.beacon) && cfg.unhex(a.nonce) == cfg.unhex(b.nonce)
  }

  /** The two id checks on ids made of the nonce: the server hashes the text of the nonce,
      the ledger the decoded beacon and nonce. They say the same exactly when equal texts
      and equal decodings go together. */
  lemma NonceIdsIff(cfg: Config, a: Ballot, b: Ballot)
    requires BothFromNonce(cfg, a, b) && IdsApart(cfg, a, b)
    ensures IdChecksAgree(cfg, a, b) <==> (a.nonce == b.nonce <==> SameDecoded(cfg, a, b))
  {
    SameParts(cfg.unhex(a.beacon), cfg.unhex(a.nonce), cfg.unhex(b.beacon), cfg.unhex(b.nonce));
  }

  /** With the payload in at least one of the ids the checks agree: both ids are derived
      alike by server and ledger, or, for nonces as long as validation asks, one is longer
      than the other for both. */
  lemma PayloadIdsAgree(cfg: Config, a: Ballot, b: Ballot)
    requires a.withPayload && IdsApart(cfg, a, b)
    requires b.withPayload
      || (|b.nonce| <= |a.nonce| && b.beacon != [] && |cfg.unhex(b.beacon)| + |cfg.unhex(b.nonce)| <= |a.nonce|)
    ensures IdChecksAgree(cfg, a, b)
  {
    if !b.withPayload {
      assert |ServerIdBytes(cfg, a)| > |a.nonce| && |LedgerIdBytes(cfg, a)| > |a.nonce|;
    }
  }

  /** One nonce under two beacons is one id for the server and two for the ledger. */
  lemma BeaconsDiffer(cfg: Config, a: Ballot, b: Ballot)
    requires BothFromNonce(cfg, a, b) && IdsApart(cfg, a, b)
    requires a.nonce == b.nonce && cfg.unhex(a.beacon) != cfg.unhex(b.beacon)
    ensures ServerId(cfg, a) == ServerId(cfg, b) && LedgerId(cfg, a) != LedgerId(cfg, b)
  {
    SameParts(cfg.unhex(a.beacon), cfg.unhex(a.nonce), cfg.unhex(b.beacon), cfg.unhex(b.nonce));
  }

  /** One nonce written in two ways, say in lower and in upper case, is two ids for the
      server and one for the ledger: both ballots are queued, and the poll is stuck. */
  lemma SpellingsStick(cfg: Config, p: Str, a: Ballot, b: Ballot)
    requires Identifiable(a) && Identifiable(b) && ServerIdentity(cfg, p, a) != ServerIdentity(cfg, p, b)
    requires BothFromNonce(cfg, a, b) && IdsApart(cfg, a, b)
    requires a.nonce != b.nonce && SameDecoded(cfg, a, b)
    ensures var events := [Enqueue(p, a), Enqueue(p, b)];
      Continues(cfg, IDLE, events) && Stuck(cfg, Continue(cfg, IDLE, events), p)
  {
    hide ServerIdentity, LedgerIdentity, Identifiable;
    assert ServerId(cfg, a) != ServerId(cfg, b) && LedgerId(cfg, a) == LedgerId(cfg, b);
    TogetherUnseen(cfg, p, a, b);
  }

  /** A clash that only the server sees does not stick: in the wallet mode, one device with
      two wallets and two nonces is refused as a duplicate when both wait, but after a
      refused batch the two are delivered together. */
  lemma WalletClashClears(cfg: Config, p: Str, a: Ballot, b: Ballot)
    requires cfg.mode == Wallet && a.nullifier == [] && b.nullifier == []
    requires a.deviceKey == b.deviceKey != [] && a.wallet != b.wallet && LedgerId(cfg, a) != LedgerId(cfg, b)
    requires Merkle.CollisionFree(cfg.h, {a.wallet + [58] + p, b.wallet + [58] + p})
    ensures ServerClash(cfg, p, a, b) && !LedgerClash(cfg, p, a, b)
    ensures var events := [Enqueue(p, a), Dequeue(p), Enqueue(p, b), Refused(0)];
      && Continues(cfg, IDLE, events)
      && var s := Continue(cfg, IDLE, events);
      !Stuck(cfg, s, p) && Continues(cfg, s, [Dequeue(p), Accepted(0)])
  {
    SameWallet(a, b, p);
    TogetherAfterRefusal(cfg, p, a, b);
  }

  /** A clash that only the ledger sees sticks at once: in the device mode, one device key
      with two nullifiers is queued twice without an objection, and the poll is stuck. */
  lemma NullifiersStick(cfg: Config, p: Str, a: Ballot, b: Ballot)
    requires cfg.mode == Device && a.nullifier != [] && b.nullifier != [] && a.nullifier != b.nullifier
    requires a.deviceKey == b.deviceKey && ServerId(cfg, a) != ServerId(cfg, b)
    ensures var events := [Enqueue(p, a), Enqueue(p, b)];
      Continues(cfg, IDLE, events) && Stuck(cfg, Continue(cfg, IDLE, events), p)
  {
    TogetherUnseen(cfg, p, a, b);
  }

  /** A ballot whose nullifier is the digest of another participant's device takes that
      participant's place in the queue, although the two do not clash for the ledger. */
  lemma BorrowedPlace(cfg: Config, p: Str, a: Ballot, b: Ballot)
    requires Borrows(cfg, p, a, b) && Identifiable(b)
    ensures Enabled(cfg, IDLE, Enqueue(p, a))
    ensures !Enabled(cfg, Next(cfg, IDLE, Enqueue(p, a)), Enqueue(p, b))
    ensures DigestsApart(cfg, p, a, b) && LedgerClaim(cfg, a) != LedgerClaim(cfg, b) ==>
      (LedgerClash(cfg, p, a, b) <==> LedgerId(cfg, a) == LedgerId(cfg, b))
  {
    var s := Next(cfg, IDLE, Enqueue(p, a));
    assert Queue(s, p) == [a];
    assert ServerClash(cfg, p, Queue(s, p)[0], [b][0]);
    if DigestsApart(cfg, p, a, b) {
      LedgerIdentityIsClaim(cfg, p, a, b);
    }
  }

  // ----- batch ids -----

  function ServerBatchBytes(p: Str, ids: seq<Str>): Str {
    if ids == [] then p else ServerBatchBytes(p, ids[..|ids| - 1]) + [58] + ids[|ids| - 1]
  }

  /** The server separates ids with a colon and the ledger with a zero byte: for one batch
      the two report hashes of different bytes. */
  lemma {:induction false} BatchIdsDiffer(p: Str, ids: seq<Str>)
    requires ids != []
    ensures |ServerBatchBytes(p, ids)| == |V.BatchBytes(p, ids)| > |p|
    ensures ServerBatchBytes(p, ids)[|p|] == 58 && V.BatchBytes(p, ids)[|p|] == 0
    ensures ServerBatchBytes(p, ids) != V.BatchBytes(p, ids)
  {
    if |ids| > 1 {
      BatchIdsDiffer(p, ids[..|ids| - 1]);
    } else {
      assert ids[..0] == [];
    }
  }

  // ----- the object that owns the queues -----

  datatype Outcome = Queued | Unidentified | DuplicateSubmission | DuplicateParticipant

  function ServerIds(cfg: Config, batch: seq<Ballot>): (r: seq<Str>)
    ensures |r| == |batch|
  {
    seq(|batch|, i requires 0 <= i < |batch| => ServerId(cfg, batch[i]))
  }

  method SortedIds(cfg: Config, batch: seq<Ballot>) returns (ids: seq<Str>)
    ensures ids == Sort(StrLe, ServerIds(cfg, batch))
  {
    hide Sort, StrLe, ServerId;
    ids := [];
    for i := 0 to |batch|
      invariant |ids| == i && forall k | 0 <= k < i :: ids[k] == ServerId(cfg, batch[k])
    {
      ids := ids + [ServerId(cfg, batch[i])];
    }
    assert ids == ServerIds(cfg, batch);
    ids := Sort(StrLe, ids);
  }

  lemma ServerBytesStart(p: Str, ids: seq<Str>)
    ensures ServerBatchBytes(p, ids[..0]) == p
  {
  }

  lemma ServerBytesMore(p: Str, ids: seq<Str>, i: nat)
    requires i < |ids|
    ensures ServerBatchBytes(p, ids[..i + 1]) == ServerBatchBytes(p, ids[..i]) + [58] + ids[i]
  {
    assert ids[..i + 1][..i] == ids[..i];
  }

  method ComputeServerBatchId(cfg: Config, p: Str, batch: seq<Ballot>) returns (id: Str)
    ensures id == cfg.h(ServerBatchBytes(p, Sort(StrLe, ServerIds(cfg, batch))))
  {
    hide Sort, StrLe, ServerIds, ServerBatchBytes;
    var ids := SortedIds(cfg, batch);
    var bytes := p;
    ServerBytesStart(p, ids);
    for i := 0 to |ids|
      invariant bytes == ServerBatchBytes(p, ids[..i])
    {
      ServerBytesMore(p, ids, i);
      bytes := bytes + [58] + ids[i];
    }
    assert ids[..|ids|] == ids;
    id := cfg.h(bytes);
  }

  /** A batch that goes out and lands again, with nothing in between. */
  lemma OneFlight(cfg: Config, s: Server, p: Str)
    requires Queue(s, p) != []
    ensures Enabled(cfg, s, Dequeue(p))
    ensures var t, k := Next(cfg, s, Dequeue(p)), |s.flights|;
      && t.flights == s.flights + [Flight(p, Queue(s, p))] && Enabled(cfg, t, Refused(k))
      && Next(cfg, t, Refused(k)) == Restored(t, k)
      && Continues(cfg, s, [Dequeue(p), Refused(k)])
      && Continue(cfg, s, [Dequeue(p), Refused(k)]) == Restored(t, k)
      && (Acceptable(cfg, p, Queue(s, p)) ==>
        && Continues(cfg, s, [Dequeue(p), Accepted(k)])
        && Continue(cfg, s, [Dequeue(p), Accepted(k)]) == Landed(t, k))
    ensures var t, k := Next(cfg, s, Dequeue(p)), |s.flights|;
      && Landed(t, k) == Server(s.queue - {p}, s.flights)
      && Queue(Restored(t, k), p) == Queue(s, p) && Restored(t, k).queue - {p} == s.queue - {p}
  {
    hide Acceptable;
    var t, k := Next(cfg, s, Dequeue(p)), |s.flights|;
    assert t.flights[k] == Flight(p, Queue(s, p));
    assert [Dequeue(p)] + [Refused(k)] == [Dequeue(p), Refused(k)] && [Refused(k)] + [] == [Refused(k)];
    assert [Dequeue(p)] + [Accepted(k)] == [Dequeue(p), Accepted(k)] && [Accepted(k)] + [] == [Accepted(k)];
    Chain(cfg, s, Dequeue(p), [Refused(k)]);
    Chain(cfg, t, Refused(k), []);
    if Acceptable(cfg, p, Queue(s, p)) {
      Chain(cfg, s, Dequeue(p), [Accepted(k)]);
      Chain(cfg, t, Accepted(k), []);
    }
  }

  /** The batches in flight are held by the requests, not by the server; the ghost field
      keeps them so that the object can be compared with the machine above. */
  class BallotQueue {
    const cfg: Config
    var queue: map<Str, seq<Ballot>>
    ghost var flights: seq<Flight>

    ghost function Snapshot(): Server
      reads this
    {
      Server(queue, flights)
    }

    function Waiting(p: Str): seq<Ballot>
      reads this
    {
      if p in queue then queue[p] else []
    }

    constructor (cfg: Config)
      ensures this.cfg == cfg && Snapshot() == IDLE
    {
      this.cfg := cfg;
      queue, flights := map[], [];
    }

    /** Queued exactly when the server can identify the participant and nothing that waits
        shares the submission id or the identity it derives. */
    method EnqueueBallot(p: Str, item: Ballot) returns (outcome: Outcome)
      modifies this
      ensures outcome == Unidentified <==> !Identifiable(item)
      ensures outcome == Queued <==> Enabled(cfg, old(Snapshot()), Enqueue(p, item))
      ensures outcome == DuplicateSubmission ==>
        exists i :: 0 <= i < |Waiting(p)| && ServerId(cfg, Waiting(p)[i]) == ServerId(cfg, item)
      ensures outcome == DuplicateParticipant ==>
        exists i :: 0 <= i < |Waiting(p)| && ServerIdentity(cfg, p, Waiting(p)[i]) == ServerIdentity(cfg, p, item)
      ensures Snapshot() == if outcome == Queued then Next(cfg, old(Snapshot()), Enqueue(p, item)) else old(Snapshot())
    {
      hide ServerId, ServerIdentity;
      if item.nullifier == [] && item.deviceKey == [] {
        return Unidentified;
      }
      var q := [];
      if p in queue {
        q := queue[p];
      }
      for i := 0 to |q|
        invariant forall j | 0 <= j < i :: !ServerClash(cfg, p, q[j], item)
      {
        if ServerId(cfg, q[i]) == ServerId(cfg, item) {
          assert Waiting(p)[i] == q[i] && ServerClash(cfg, p, q[i], [item][0]);
          return DuplicateSubmission;
        }
        if ServerIdentity(cfg, p, q[i]) == ServerIdentity(cfg, p, item) {
          assert Waiting(p)[i] == q[i] && ServerClash(cfg, p, q[i], [item][0]);
          return DuplicateParticipant;
        }
      }
      queue := queue[p := q + [item]];
      outcome := Queued;
    }

    method DequeueBallotsForFlush(p: Str) returns (batch: seq<Ballot>, batchId: Str)
      modifies this
      ensures batch == old(Waiting(p))
      ensures batch == [] ==> Snapshot() == old(Snapshot())
      ensures batch != [] ==>
        && Snapshot() == Next(cfg, old(Snapshot()), Dequeue(p))
        && batchId == cfg.h(ServerBatchBytes(p, Sort(StrLe, ServerIds(cfg, batch))))
    {
      batch, batchId := [], [];
      if p in queue {
        batch := queue[p];
      }
      if |batch| == 0 {
        return;
      }
      queue := queue - {p};
      flights := flights + [Flight(p, batch)];
      batchId := ComputeServerBatchId(cfg, p, batch);
    }

    method RestoreQueuedBallots(p: Str, batch: seq<Ballot>, ghost k: nat)
      requires batch != [] ==> k < |flights| && flights[k] == Flight(p, batch)
      modifies this
      ensures Snapshot() == if batch == [] then old(Snapshot()) else Next(cfg, old(Snapshot()), Refused(k))
    {
      if |batch| == 0 {
        return;
      }
      var q := [];
      if p in queue {
        q := queue[p];
      }
      queue := queue[p := batch + q];
      flights := flights[..k] + flights[k + 1..];
    }

    /** One flush request with nothing else under way: the batch goes out as a whole, and a
        refusal puts back exactly what was waiting. */
    method FlushQueuedBallots(p: Str, accepts: seq<Ballot> -> bool) returns (flushed: bool, batch: seq<Ballot>)
      requires accepts(Waiting(p)) ==> Acceptable(cfg, p, Waiting(p))
      modifies this
      ensures flushed <==> old(Waiting(p)) != [] && accepts(old(Waiting(p)))
      ensures batch == old(Waiting(p)) && Waiting(p) == (if flushed then [] else old(Waiting(p)))
      ensures queue - {p} == old(queue) - {p}
      ensures batch == [] ==> Snapshot() == old(Snapshot())
      ensures batch != [] ==>
        && var end := if flushed then Accepted(|old(flights)|) else Refused(|old(flights)|);
        && Continues(cfg, old(Snapshot()), [Dequeue(p), end])
        && Snapshot() == Continue(cfg, old(Snapshot()), [Dequeue(p), end])
    {
      hide Acceptable, Continues, Continue, ServerBatchBytes, Sort, ServerIds, Next, Restored, Enabled;
      ghost var was, k := Snapshot(), |flights|;
      var batchId;
      batch, batchId := DequeueBallotsForFlush(p);
      if |batch| == 0 {
        return false, batch;
      }
      OneFlight(cfg, was, p);
      assert Snapshot() == Next(cfg, was, Dequeue(p));
      flushed := accepts(batch);
      if flushed {
        flights := flights[..k] + flights[k + 1..];
        assert Snapshot() == Landed(Next(cfg, was, Dequeue(p)), k);
      } else {
        RestoreQueuedBallots(p, batch, k);
      }
    }
  }
}
