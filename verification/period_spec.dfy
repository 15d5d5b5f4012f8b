/** The generic two-list period machine (submit, update, withdraw, close, rolling
    attestation) under the guards that its chat and store clients put in front of it. */
module PeriodSpec {
  import opened Ordering
  import opened Merkle
  import opened TwoList

  datatype Status = Open | Closed

  datatype Submission = Submission(payload: Str, superseded: bool)

  datatype Closure = Closure(totalSubmissions: int, l1Root: Str, l2Root: Str)

  datatype State = State(
    periods: map<Str, Status>,
    submissions: map<Key, Submission>,  // List 1: (period, submission)
    participants: set<Key>,             // List 2: (period, identity)
    closures: map<Str, Closure>,
    submissionCounts: map<Str, nat>,
    checkpoints: map<Str, seq<Checkpoint>>)

  datatype Config = Config(h: Hash, rolling: bool, threshold: nat, writeOnly: bool)

  datatype Tx =
    | Create(period: Str)
    | Submit(period: Str, id: Str, identity: Str, payload: Str)
    | Update(period: Str, oldId: Str, newId: Str, identity: Str, payload: Str)
    | Withdraw(period: Str, id: Str, identity: Str)
    | Close(period: Str)

  const EMPTY := State(map[], map[], {}, map[], map[], map[])

  predicate IsOpen(s: State, p: Str) {
    p in s.periods && s.periods[p] == Open
  }

  /** When a client's validator accepts a transaction. The client never asks whether a
      submission id is already in use. */
  predicate Valid(cfg: Config, s: State, tx: Tx) {
    match tx
    case Create(p) => p !in s.periods
    case Submit(p, _, identity, _) => IsOpen(s, p) && (p, identity) !in s.participants
    case Update(p, oldId, _, identity, _) =>
      !cfg.writeOnly && IsOpen(s, p) && (p, oldId) in s.submissions && (p, identity) in s.participants
    case Withdraw(p, id, identity) => IsOpen(s, p) && (p, id) in s.submissions && (p, identity) in s.participants
    case Close(p) => IsOpen(s, p)
  }

  ghost function L1(s: State, p: Str): set<Key> {
    set k | k in s.submissions && k.0 == p
  }

  /** What an attestation counts and commits: submissions that are not superseded. */
  ghost function Live(s: State, p: Str): set<Key> {
    set k | k in s.submissions && k.0 == p && !s.submissions[k].superseded
  }

  ghost function L2(s: State, p: Str): set<Key> {
    set k | k in s.participants && k.0 == p
  }

  ghost predicate ListsMatch(s: State, p: Str) {
    |Live(s, p)| == |L2(s, p)|
  }

  ghost function L1Root(cfg: Config, s: State, p: Str): Str {
    SetRoot(cfg.h, Ids(Live(s, p)))
  }

  ghost function L2Root(cfg: Config, s: State, p: Str): Str {
    SetRoot(cfg.h, Ids(L2(s, p)))
  }

  ghost function Written(s: State, p: Str, id: Str, identity: Str, payload: Str): State {
    s.(submissions := s.submissions[(p, id) := Submission(payload, false)],
       participants := s.participants + {(p, identity)})
  }

  /** The attestation step after one submission: at the threshold the counter restarts and
      a checkpoint is added, unless the lists differ; then the failure is only logged. */
  ghost function Attested(cfg: Config, s: State, p: Str): State {
    if cfg.rolling && cfg.threshold > 0 then
      var n := GetOr(s.submissionCounts, p, 0) + 1;
      if n < cfg.threshold then s.(submissionCounts := s.submissionCounts[p := n])
      else
        var t := s.(submissionCounts := s.submissionCounts[p := 0]);
        if ListsMatch(s, p) then t.(checkpoints := t.checkpoints[p := NextCheckpoints(cfg, s, p)]) else t
    else s
  }

  ghost function NextCheckpoints(cfg: Config, s: State, p: Str): seq<Checkpoint> {
    var cps := GetOr(s.checkpoints, p, []);
    cps + [Checkpoint(|cps|, |Live(s, p)|, L1Root(cfg, s, p), L2Root(cfg, s, p))]
  }

  ghost function Updated(s: State, p: Str, oldId: Str, newId: Str, payload: Str): State {
    s.(submissions := (s.submissions - {(p, oldId)})[(p, newId) := Submission(payload, false)])
  }

  ghost function Withdrawn(s: State, p: Str, id: Str, identity: Str): State {
    s.(submissions := s.submissions - {(p, id)}, participants := s.participants - {(p, identity)})
  }

  ghost function WithClosure(s: State, p: Str, c: Closure): State {
    s.(periods := s.periods[p := Closed], closures := s.closures[p := c])
  }

  ghost function ClosedBy(cfg: Config, s: State, p: Str): State {
    if ListsMatch(s, p) then WithClosure(s, p, Closure(|Live(s, p)|, L1Root(cfg, s, p), L2Root(cfg, s, p))) else s
  }

  ghost function Apply(cfg: Config, s: State, tx: Tx): State {
    match tx
    case Create(p) => s.(periods := s.periods[p := Open])
    case Submit(p, id, identity, payload) => Attested(cfg, Written(s, p, id, identity, payload), p)
    case Update(p, oldId, newId, _, payload) => Updated(s, p, oldId, newId, payload)
    case Withdraw(p, id, identity) => Withdrawn(s, p, id, identity)
    case Close(p) => ClosedBy(cfg, s, p)
  }

  ghost function Step(cfg: Config, s: State, tx: Tx): State {
    if Valid(cfg, s, tx) then Apply(cfg, s, tx) else s
  }

  ghost function Run(cfg: Config, txs: seq<Tx>): State {
    if txs == [] then EMPTY else Step(cfg, Run(cfg, txs[..|txs| - 1]), txs[|txs| - 1])
  }
}
