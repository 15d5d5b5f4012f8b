/** The two-list voting machine as a transition system: what each transaction needs to be
    accepted, and the state it leaves behind.

    Map keys `pollID:suffix` are pairs here; module Keys says exactly when that is sound.
    A voter record holds nothing but the identity that is its key, so List 2 is a set. */
module VotingSpec {
  import opened Ordering
  import opened Merkle
  import opened TwoList

  datatype Method = Plurality | Approval | Ranked
  datatype Status = Pending | Open | Closed
  datatype Partition = Unassigned | Public | Sealed

  datatype Poll = Poll(
    options: seq<Str>, votingMethod: Method, startTime: int, endTime: int, status: Status,
    hasRescissionKeys: bool, sealedCount: int, reattestationCount: int, idvCastCount: int)

  datatype Vote = Vote(choices: seq<Str>, partition: Partition, superseded: bool, pubKeyHash: Str)

  datatype Tally = Tally(
    counts: map<Str, int>, totalVotes: int, confirmedCount: int,
    voteRoot: Str, voterRoot: Str, attestationDegraded: bool, rescissionCount: int)

  datatype State = State(
    polls: map<Str, Poll>,
    votes: map<Key, Vote>,           // List 1: (poll, ballot)
    voters: set<Key>,                // List 2: (poll, identity)
    confirms: set<Key>,              // (poll, identity)
    rescissions: set<Key>,           // (poll, ballot), append-only
    restores: set<Key>,              // (poll, identity), append-only
    tallies: map<Str, Tally>,
    submissionCounts: map<Str, nat>,
    checkpoints: map<Str, seq<Checkpoint>>)

  datatype Config = Config(h: Hash, rolling: bool, threshold: nat)

  datatype Cast = Cast(ballotId: Str, identity: Str, choices: seq<Str>, pubKeyHash: Str)

  datatype Tx =
    | CreatePoll(poll: Str, options: seq<Str>, votingMethod: Method, startTime: int, endTime: int, keys: bool, now: int)
    | OpenPoll(poll: Str, now: int)
    | BatchFlush(poll: Str, casts: seq<Cast>, now: int)
    | UpdateBallot(poll: Str, oldBallot: Str, newBallot: Str, identity: Str, newChoices: seq<Str>, now: int)
    | ResealVote(poll: Str, ballot: Str, pubKeyHash: Str)
    | ConfirmReceipt(poll: Str, identity: Str, now: int)
    | AuthorityRescind(poll: Str, ballot: Str, identity: Str)
    | AuthorityRestore(poll: Str, ballot: Str, identity: Str)
    | ClosePoll(poll: Str, now: int, degraded: bool)

  const EMPTY := State(map[], map[], {}, {}, {}, {}, map[], map[], map[])

  predicate ValidChoices(poll: Poll, choices: seq<Str>) {
    && choices != []
    && (forall c | c in choices :: c in poll.options)
    && Distinct(choices)
    && (poll.votingMethod == Plurality ==> |choices| == 1)
  }

  predicate ValidOptions(options: seq<Str>) {
    2 <= |options| <= 10 && Distinct(options) && [] !in options
  }

  function BallotIds(casts: seq<Cast>): (r: seq<Str>)
    ensures |r| == |casts|
  {
    seq(|casts|, i requires 0 <= i < |casts| => casts[i].ballotId)
  }

  function Identities(casts: seq<Cast>): (r: seq<Str>)
    ensures |r| == |casts|
  {
    seq(|casts|, i requires 0 <= i < |casts| => casts[i].identity)
  }

  /** The per-ballot checks of validateBallotCast; device signature, beacon and identity
      attestation only narrow them further. */
  predicate ValidCast(s: State, p: Str, c: Cast, now: int)
    requires p in s.polls
  {
    && s.polls[p].startTime <= now < s.polls[p].endTime
    && ValidChoices(s.polls[p], c.choices)
    && ((p, c.identity) in s.voters ==> (p, c.identity) in s.restores)
  }

  /** When the stateless and the stateful validation accept a transaction. */
  predicate Valid(s: State, tx: Tx) {
    match tx
    case CreatePoll(p, options, _, startTime, endTime, _, now) =>
      p !in s.polls && ValidOptions(options) && now <= startTime < endTime
    case OpenPoll(p, now) =>
      p in s.polls && s.polls[p].status == Pending && s.polls[p].startTime <= now < s.polls[p].endTime
    case BatchFlush(p, casts, now) =>
      && p in s.polls && s.polls[p].status != Closed && casts != []
      && (forall c | c in casts :: ValidCast(s, p, c, now))
      && Distinct(BallotIds(casts)) && Distinct(Identities(casts))
    case UpdateBallot(p, oldBallot, _, identity, newChoices, now) =>
      && p in s.polls && s.polls[p].startTime <= now < s.polls[p].endTime && s.polls[p].status != Closed
      && (p, oldBallot) in s.votes && (p, identity) in s.voters
      && (newChoices == [] || ValidChoices(s.polls[p], newChoices))
    case ResealVote(p, ballot, pubKeyHash) =>
      && p in s.polls && s.polls[p].status != Closed && (p, ballot) in s.votes
      && !s.votes[(p, ballot)].superseded && s.votes[(p, ballot)].partition != Sealed
      && s.votes[(p, ballot)].pubKeyHash != [] && s.votes[(p, ballot)].pubKeyHash == pubKeyHash
    case ConfirmReceipt(p, identity, now) =>
      && p in s.polls && s.polls[p].startTime <= now
      && (p, identity) in s.voters && (p, identity) !in s.confirms
    case AuthorityRescind(p, ballot, identity) =>
      && p in s.polls && s.polls[p].hasRescissionKeys
      && (p, ballot) in s.votes && (p, identity) in s.voters && (p, ballot) !in s.rescissions
    case AuthorityRestore(p, ballot, identity) =>
      && p in s.polls && s.polls[p].hasRescissionKeys
      && (p, ballot) in s.rescissions && (p, identity) !in s.restores
    case ClosePoll(p, now, _) =>
      p in s.polls && s.polls[p].status != Closed && s.polls[p].endTime <= now && p !in s.tallies
  }

  // ----- what the lists of one poll hold -----

  predicate IsCounted(v: Vote) {
    v.partition != Sealed && !v.superseded
  }

  ghost function L1(s: State, p: Str): set<Key> {
    set k | k in s.votes && k.0 == p
  }

  ghost function L2(s: State, p: Str): set<Key> {
    set k | k in s.voters && k.0 == p
  }

  ghost function Counted(s: State, p: Str): set<Key> {
    set k | k in s.votes && k.0 == p && IsCounted(s.votes[k])
  }

  ghost function SealedVotes(s: State, p: Str): set<Key> {
    set k | k in s.votes && k.0 == p && s.votes[k].partition == Sealed
  }

  ghost function ConfirmsOf(s: State, p: Str): set<Key> {
    set k | k in s.confirms && k.0 == p
  }

  /** Whether a ballot with these choices counts for an option: for any of them under
      approval voting, for the first one otherwise. */
  predicate Backs(m: Method, choices: seq<Str>, o: Str) {
    if m == Approval then o in choices else choices != [] && choices[0] == o
  }

  predicate VotesFor(m: Method, v: Vote, o: Str) {
    Backs(m, v.choices, o)
  }

  ghost function Backers(s: State, p: Str, o: Str): set<Key>
    requires p in s.polls
  {
    set k | k in s.votes && k.0 == p && IsCounted(s.votes[k]) && VotesFor(s.polls[p].votingMethod, s.votes[k], o)
  }

  /** A recount from scratch: the counted ballots of the poll that count for `o`. */
  ghost function Recount(s: State, p: Str, o: Str): nat
    requires p in s.polls
  {
    |Backers(s, p, o)|
  }

  // ----- batch flush -----

  predicate CastLe(a: Cast, b: Cast) {
    StrLe(a.ballotId, b.ballotId)
  }

  function FlushedVote(c: Cast): Vote {
    Vote(c.choices, Unassigned, false, c.pubKeyHash)
  }

  function WriteVotes(votes: map<Key, Vote>, p: Str, casts: seq<Cast>): map<Key, Vote> {
    if casts == [] then votes
    else
      var last := casts[|casts| - 1];
      WriteVotes(votes, p, casts[..|casts| - 1])[(p, last.ballotId) := FlushedVote(last)]
  }

  function WriteVoters(voters: set<Key>, p: Str, casts: seq<Cast>): set<Key> {
    if casts == [] then voters
    else WriteVoters(voters, p, casts[..|casts| - 1]) + {(p, casts[|casts| - 1].identity)}
  }

  /** The rolling-attestation loop of a flush: how often a checkpoint is due, and what
      happens when the two lists do not match. */
  datatype Rolled = Rolled(counter: nat, checkpoints: seq<Checkpoint>, ok: bool)

  ghost function Roll(threshold: nat, counter: nat, cps: seq<Checkpoint>, matching: bool,
                      total: int, l1: Str, l2: Str): Rolled
    requires threshold > 0
    decreases counter
  {
    if counter < threshold then Rolled(counter, cps, true)
    else if !matching then Rolled(counter - threshold, cps, false)
    else Roll(threshold, counter - threshold, cps + [Checkpoint(|cps|, total, l1, l2)], matching, total, l1, l2)
  }

  ghost predicate ListsMatch(s: State, p: Str) {
    |Counted(s, p)| == |L2(s, p)|
  }

  ghost function RolledAfter(cfg: Config, s: State, p: Str, n: nat): Rolled
    requires cfg.threshold > 0
  {
    Roll(cfg.threshold, GetOr(s.submissionCounts, p, 0) + n, GetOr(s.checkpoints, p, []), ListsMatch(s, p),
         |Counted(s, p)|, SetRoot(cfg.h, Ids(Counted(s, p))), SetRoot(cfg.h, Ids(L2(s, p))))
  }

  ghost function FlushedLists(s: State, p: Str, casts: seq<Cast>): State
    requires p in s.polls
  {
    var sorted := Sort(CastLe, casts);
    s.(votes := WriteVotes(s.votes, p, sorted), voters := WriteVoters(s.voters, p, sorted),
       polls := s.polls[p := s.polls[p].(idvCastCount := s.polls[p].idvCastCount + |casts|)])
  }

  ghost function WithRolled(s: State, p: Str, r: Rolled): State {
    s.(submissionCounts := s.submissionCounts[p := r.counter],
       checkpoints := if r.checkpoints == GetOr(s.checkpoints, p, []) then s.checkpoints
                      else s.checkpoints[p := r.checkpoints])
  }

  ghost function AfterFlush(cfg: Config, s: State, p: Str, casts: seq<Cast>): State
    requires p in s.polls
  {
    var t := FlushedLists(s, p, casts);
    if cfg.rolling && cfg.threshold > 0 then WithRolled(t, p, RolledAfter(cfg, t, p, |casts|)) else t
  }

  /** Whether executeBatchFlush reports success; on failure the lists stay written. */
  ghost predicate FlushSucceeds(cfg: Config, s: State, p: Str, casts: seq<Cast>)
    requires p in s.polls
  {
    cfg.rolling && cfg.threshold > 0 ==> RolledAfter(cfg, FlushedLists(s, p, casts), p, |casts|).ok
  }

  function BatchBytes(p: Str, ids: seq<Str>): Str {
    if ids == [] then p else BatchBytes(p, ids[..|ids| - 1]) + [0] + ids[|ids| - 1]
  }

  ghost function BatchId(cfg: Config, p: Str, casts: seq<Cast>): Str {
    cfg.h(BatchBytes(p, BallotIds(Sort(CastLe, casts))))
  }

  // ----- the other transactions -----

  function Decrement(counts: map<Str, int>, o: Str): map<Str, int> {
    counts[o := GetOr(counts, o, 0) - 1]
  }

  function DecrementAll(counts: map<Str, int>, choices: seq<Str>): map<Str, int> {
    if choices == [] then counts
    else Decrement(DecrementAll(counts, choices[..|choices| - 1]), choices[|choices| - 1])
  }

  /** The tally of a closed poll after one of its ballots was rescinded. */
  function RescindedTally(t: Tally, m: Method, v: Vote): Tally {
    t.(totalVotes := t.totalVotes - 1,
       counts := if m == Ranked then (if v.choices == [] then t.counts else Decrement(t.counts, v.choices[0]))
                 else DecrementAll(t.counts, v.choices),
       rescissionCount := t.rescissionCount + 1,
       attestationDegraded := true)
  }

  function RescindedPoll(poll: Poll, hadConfirm: bool, v: Vote): Poll {
    poll.(reattestationCount := if hadConfirm && poll.reattestationCount > 0 then poll.reattestationCount - 1
                                else poll.reattestationCount,
          sealedCount := if v.partition == Sealed && poll.sealedCount > 0 then poll.sealedCount - 1
                         else poll.sealedCount)
  }

  ghost function FreshTally(cfg: Config, s: State, p: Str, degraded: bool): Tally
    requires p in s.polls
  {
    Tally(map o | o in s.polls[p].options :: Recount(s, p, o), |Counted(s, p)|, |ConfirmsOf(s, p)|,
          SetRoot(cfg.h, Ids(Counted(s, p))), SetRoot(cfg.h, Ids(L2(s, p))), degraded, 0)
  }

  ghost function Withdrawn(s: State, p: Str, ballot: Str, identity: Str): State {
    s.(votes := s.votes - {(p, ballot)}, voters := s.voters - {(p, identity)}, confirms := s.confirms - {(p, identity)})
  }

  ghost function Replaced(s: State, p: Str, oldBallot: Str, newBallot: Str, choices: seq<Str>): State {
    s.(votes := (s.votes - {(p, oldBallot)})[(p, newBallot) := Vote(choices, Unassigned, false, [])])
  }

  ghost function Resealed(s: State, p: Str, ballot: Str): State
    requires p in s.polls && (p, ballot) in s.votes
  {
    s.(votes := s.votes[(p, ballot) := s.votes[(p, ballot)].(partition := Sealed)],
       polls := s.polls[p := s.polls[p].(sealedCount := s.polls[p].sealedCount + 1)])
  }

  ghost function Confirmed(s: State, p: Str, identity: Str): State
    requires p in s.polls
  {
    var confirms := s.confirms + {(p, identity)};
    var n := |set k | k in confirms && k.0 == p|;
    s.(confirms := confirms,
       polls := s.polls[p := s.polls[p].(reattestationCount := s.polls[p].reattestationCount + 1)],
       tallies := if p in s.tallies then s.tallies[p := s.tallies[p].(confirmedCount := n)] else s.tallies)
  }

  ghost function Rescinded(s: State, p: Str, ballot: Str, identity: Str): State
    requires p in s.polls && (p, ballot) in s.votes
  {
    var v := s.votes[(p, ballot)];
    s.(votes := s.votes - {(p, ballot)}, voters := s.voters - {(p, identity)},
       confirms := s.confirms - {(p, identity)},
       polls := s.polls[p := RescindedPoll(s.polls[p], (p, identity) in s.confirms, v)],
       tallies := if p in s.tallies then s.tallies[p := RescindedTally(s.tallies[p], s.polls[p].votingMethod, v)]
         else s.tallies,
       rescissions := s.rescissions + {(p, ballot)})
  }

  ghost function WithTally(s: State, p: Str, t: Tally): State
    requires p in s.polls
  {
    s.(polls := s.polls[p := s.polls[p].(status := Closed)], tallies := s.tallies[p := t])
  }

  ghost function ClosedBy(cfg: Config, s: State, p: Str, degraded: bool): State
    requires p in s.polls
  {
    if ListsMatch(s, p) then WithTally(s, p, FreshTally(cfg, s, p, degraded)) else s
  }

  ghost function Created(s: State, p: Str, options: seq<Str>, m: Method, startTime: int, endTime: int,
                         keys: bool): State {
    s.(polls := s.polls[p := Poll(options, m, startTime, endTime, Pending, keys, 0, 0, 0)])
  }

  ghost function Opened(s: State, p: Str): State
    requires p in s.polls
  {
    s.(polls := s.polls[p := s.polls[p].(status := Open)])
  }

  ghost function Restored(s: State, p: Str, identity: Str): State {
    s.(restores := s.restores + {(p, identity)})
  }

  ghost function Apply(cfg: Config, s: State, tx: Tx): State
    requires Valid(s, tx)
  {
    match tx
    case CreatePoll(p, options, m, startTime, endTime, keys, _) => Created(s, p, options, m, startTime, endTime, keys)
    case OpenPoll(p, _) => Opened(s, p)
    case BatchFlush(p, casts, _) => AfterFlush(cfg, s, p, casts)
    case UpdateBallot(p, oldBallot, newBallot, identity, newChoices, _) =>
      if newChoices == [] then Withdrawn(s, p, oldBallot, identity)
      else Replaced(s, p, oldBallot, newBallot, newChoices)
    case ResealVote(p, ballot, _) => Resealed(s, p, ballot)
    case ConfirmReceipt(p, identity, _) => Confirmed(s, p, identity)
    case AuthorityRescind(p, ballot, identity) => Rescinded(s, p, ballot, identity)
    case AuthorityRestore(p, _, identity) => Restored(s, p, identity)
    case ClosePoll(p, _, degraded) => ClosedBy(cfg, s, p, degraded)
  }

  /** A rejected transaction changes nothing. */
  ghost function Step(cfg: Config, s: State, tx: Tx): State {
    if Valid(s, tx) then Apply(cfg, s, tx) else s
  }

  /** The state after any sequence of submitted transactions. */
  ghost function Run(cfg: Config, txs: seq<Tx>): State {
    if txs == [] then EMPTY else Step(cfg, Run(cfg, txs[..|txs| - 1]), txs[|txs| - 1])
  }
}
