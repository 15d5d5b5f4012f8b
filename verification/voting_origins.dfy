/** Where everything in the lists comes from: each ballot, registration, confirmation and
    grant of any reachable state is what the last accepted transaction about it said. */
module VotingOrigins {
  import opened Ordering
  import opened TwoList
  import opened Histories
  import opened VotingSpec
  import opened VotingLaws
  import opened VotingRuns
  import opened VotingEffects

  // ----- what one transaction says about one key -----

  /** A ballot as somebody cast or chose it. */
  datatype Written = Written(choices: seq<Str>, pubKeyHash: Str)

  ghost predicate Casts(casts: seq<Cast>, id: Str, w: Written) {
    exists c :: c in casts && c.ballotId == id && w == Written(c.choices, c.pubKeyHash)
  }

  ghost function BallotMark(s: State, tx: Tx, k: Key): Mark<Written> {
    if !Valid(s, tx) || tx.poll != k.0 then Keeps
    else
      match tx
      case BatchFlush(_, casts, _) =>
        if exists w :: Casts(casts, k.1, w) then
          var w :| Casts(casts, k.1, w);
          Sets(w)
        else Keeps
      case UpdateBallot(_, oldBallot, newBallot, _, newChoices, _) =>
        if newChoices != [] && newBallot == k.1 then Sets(Written(newChoices, []))
        else if oldBallot == k.1 then Clears
        else Keeps
      case AuthorityRescind(_, ballot, _) => if ballot == k.1 then Clears else Keeps
      case _ => Keeps
  }

  /** A reseal names the key hash; whatever writes or removes the ballot ends the seal. */
  ghost function SealMark(s: State, tx: Tx, k: Key): Mark<Str> {
    if Valid(s, tx) && tx.poll == k.0 && tx.ResealVote? && tx.ballot == k.1 then Sets(tx.pubKeyHash)
    else if BallotMark(s, tx, k).Keeps? then Keeps
    else Clears
  }

  predicate TakesOut(tx: Tx, identity: Str) {
    (IsWithdrawal(tx) && tx.identity == identity) || (tx.AuthorityRescind? && tx.identity == identity)
  }

  ghost function VoterMark(s: State, tx: Tx, k: Key): Mark<()> {
    if !Valid(s, tx) || tx.poll != k.0 then Keeps
    else if tx.BatchFlush? && exists c :: c in tx.casts && c.identity == k.1 then Sets(())
    else if TakesOut(tx, k.1) then Clears
    else Keeps
  }

  ghost function ConfirmMark(s: State, tx: Tx, k: Key): Mark<()> {
    if !Valid(s, tx) || tx.poll != k.0 then Keeps
    else if tx.ConfirmReceipt? && tx.identity == k.1 then Sets(())
    else if TakesOut(tx, k.1) then Clears
    else Keeps
  }

  /** What a poll is created with. */
  datatype Terms = Terms(options: seq<Str>, votingMethod: Method, startTime: int, endTime: int, keys: bool)

  ghost function TermsMark(s: State, tx: Tx, k: Key): Mark<Terms> {
    if Valid(s, tx) && tx.CreatePoll? && tx.poll == k.0 then
      Sets(Terms(tx.options, tx.votingMethod, tx.startTime, tx.endTime, tx.keys))
    else Keeps
  }

  ghost function StatusMark(s: State, tx: Tx, k: Key): Mark<Status> {
    if !Valid(s, tx) || tx.poll != k.0 then Keeps
    else if tx.CreatePoll? then Sets(Pending)
    else if tx.OpenPoll? then Sets(Open)
    else if tx.ClosePoll? && ListsMatch(s, k.0) then Sets(Closed)
    else Keeps
  }

  // ----- and what a run says -----

  ghost function Runs(cfg: Config): seq<Tx> -> State {
    txs => Run(cfg, txs)
  }

  // ----- the ballots -----

  ghost predicate BallotAsTold(s: State, k: Key, ballot: Mark<Written>, seal: Mark<Str>) {
    && (k in s.votes <==> ballot.Sets?)
    && (k in s.votes ==>
          && !s.votes[k].superseded && ballot.value == Written(s.votes[k].choices, s.votes[k].pubKeyHash)
          && s.votes[k].partition == (if seal.Sets? then Sealed else Unassigned)
          && (seal.Sets? ==> seal.value == s.votes[k].pubKeyHash != []))
  }

  lemma OneWritten(casts: seq<Cast>, c: Cast, w: Written)
    requires Distinct(BallotIds(casts)) && c in casts && Casts(casts, c.ballotId, w)
    ensures w == Written(c.choices, c.pubKeyHash)
  {
    var d :| d in casts && d.ballotId == c.ballotId && w == Written(d.choices, d.pubKeyHash);
    OneCastPerId(casts, c, d);
  }

  lemma {:induction false} FlushTold(cfg: Config, s: State, p: Str, casts: seq<Cast>, now: int, k: Key,
                                     b: Mark<Written>, seal: Mark<Str>)
    requires Valid(s, BatchFlush(p, casts, now)) && k.0 == p && BallotAsTold(s, k, b, seal)
    ensures var tx := BatchFlush(p, casts, now);
      BallotAsTold(Apply(cfg, s, tx), k, After(b, BallotMark(s, tx, k)), After(seal, SealMark(s, tx, k)))
  {
    hide Valid, Apply, BallotKeys, IdentityKeys, Distinct;
    FlushChecked(s, p, casts, now);
    FlushStores(cfg, s, p, casts, now);
    CastKeys(p, casts);
    CastOrNot(p, casts, k);
    if k in BallotKeys(p, casts) {
      var c :| c in casts && k == (p, c.ballotId);
      var w := BallotMark(s, BatchFlush(p, casts, now), k).value;
      OneWritten(casts, c, w);
    }
  }

  lemma CastOrNot(p: Str, casts: seq<Cast>, k: Key)
    requires k.0 == p
    ensures k in BallotKeys(p, casts) <==> exists w :: Casts(casts, k.1, w)
  {
    CastKeys(p, casts);
    if k in BallotKeys(p, casts) {
      var c :| c in casts && k == (p, c.ballotId);
      assert Casts(casts, k.1, Written(c.choices, c.pubKeyHash));
    }
  }

  lemma {:induction false} BallotStep(cfg: Config, s: State, tx: Tx, k: Key, b: Mark<Written>, seal: Mark<Str>)
    requires Valid(s, tx) && tx.poll == k.0 && BallotAsTold(s, k, b, seal)
    ensures BallotAsTold(Apply(cfg, s, tx), k, After(b, BallotMark(s, tx, k)), After(seal, SealMark(s, tx, k)))
  {
    hide Apply;
    if tx.BatchFlush? {
      FlushTold(cfg, s, tx.poll, tx.casts, tx.now, k, b, seal);
    } else if IsReplacement(tx) {
      UpdateStores(cfg, s, tx);
    } else if IsWithdrawal(tx) {
      Removes(cfg, s, tx, tx.oldBallot);
    } else if tx.AuthorityRescind? {
      Removes(cfg, s, tx, tx.ballot);
    } else if tx.ResealVote? {
      ResealKeeps(cfg, s, tx);
    } else {
      OthersKeep(cfg, s, tx);
    }
  }

  /** Every reachable ballot: it is there exactly if the last accepted transaction about its
      id wrote it, with the choices and the key hash of that cast or update, and it is
      sealed exactly if it was resealed since, with that same key hash. */
  lemma {:induction false} BallotsExact(cfg: Config, txs: seq<Tx>, k: Key)
    ensures BallotAsTold(Run(cfg, txs), k, Told(Runs(cfg), txs, k, BallotMark), Told(Runs(cfg), txs, k, SealMark))
    decreases |txs|
  {
    hide BallotMark, SealMark, Apply, Valid, Told;
    if txs == [] {
      ToldNothing(Runs(cfg), k, BallotMark);
      ToldNothing(Runs(cfg), k, SealMark);
    } else {
      var before, tx := txs[..|txs| - 1], txs[|txs| - 1];
      BallotsExact(cfg, before, k);
      ToldMore(Runs(cfg), txs, k, BallotMark);
      ToldMore(Runs(cfg), txs, k, SealMark);
      if Valid(Run(cfg, before), tx) && tx.poll == k.0 {
        BallotStep(cfg, Run(cfg, before), tx, k, Told(Runs(cfg), before, k, BallotMark),
                   Told(Runs(cfg), before, k, SealMark));
      } else {
        Silent(Run(cfg, before), tx, k);
        if Valid(Run(cfg, before), tx) {
          OtherPoll(cfg, Run(cfg, before), tx, k.0);
        }
      }
    }
  }

  lemma Silent(s: State, tx: Tx, k: Key)
    requires !Valid(s, tx) || tx.poll != k.0
    ensures BallotMark(s, tx, k).Keeps? && SealMark(s, tx, k).Keeps?
    ensures VoterMark(s, tx, k).Keeps? && ConfirmMark(s, tx, k).Keeps?
    ensures TermsMark(s, tx, k).Keeps? && StatusMark(s, tx, k).Keeps?
  {
    hide Valid;
  }

  /** The same with the transaction named: whatever is stored was cast or chosen by an
      accepted transaction after which no other one was about that ballot. */
  lemma {:induction false} BallotOrigin(cfg: Config, txs: seq<Tx>, k: Key)
    requires k in Run(cfg, txs).votes
    ensures var v := Run(cfg, txs).votes[k];
      exists i ::
        && SetBy(Runs(cfg), txs, i, k, BallotMark)
        && BallotMark(Run(cfg, txs[..i]), txs[i], k).value == Written(v.choices, v.pubKeyHash)
  {
    BallotsExact(cfg, txs, k);
    hide Run, BallotMark, SealMark, Told;
    ToldBy(Runs(cfg), txs, k, BallotMark);
  }

  /** Who backs an option, from the transactions: the ballots whose last word backs it and
      that are not sealed. With TallyExact this is what a clean close counts. */
  lemma {:induction false} BackersExact(cfg: Config, txs: seq<Tx>, p: Str, o: Str, k: Key)
    requires p in Run(cfg, txs).polls
    ensures var b, seal := Told(Runs(cfg), txs, k, BallotMark), Told(Runs(cfg), txs, k, SealMark);
      k in Backers(Run(cfg, txs), p, o) <==>
        k.0 == p && b.Sets? && !seal.Sets? && Backs(Run(cfg, txs).polls[p].votingMethod, b.value.choices, o)
  {
    BallotsExact(cfg, txs, k);
    hide Run, BallotMark, SealMark, Told, Backs;
  }

  // ----- registrations, confirmations, grants -----

  lemma VoterStep(cfg: Config, s: State, tx: Tx, k: Key)
    requires Valid(s, tx) && tx.poll == k.0
    ensures k in Apply(cfg, s, tx).voters
        <==> After(if k in s.voters then Sets(()) else Clears, VoterMark(s, tx, k)).Sets?
  {
    hide Apply, IdentityKeys;
    if tx.BatchFlush? {
      FlushStores(cfg, s, tx.poll, tx.casts, tx.now);
      IdentityCast(tx.poll, tx.casts, k);
    } else if IsReplacement(tx) {
      UpdateStores(cfg, s, tx);
    } else if IsWithdrawal(tx) {
      Removes(cfg, s, tx, tx.oldBallot);
    } else if tx.AuthorityRescind? {
      Removes(cfg, s, tx, tx.ballot);
    } else if tx.ResealVote? {
      ResealKeeps(cfg, s, tx);
    } else {
      OthersKeep(cfg, s, tx);
    }
  }

  lemma IdentityCast(p: Str, casts: seq<Cast>, k: Key)
    requires k.0 == p
    ensures k in IdentityKeys(p, casts) <==> exists c :: c in casts && c.identity == k.1
  {
    if k in IdentityKeys(p, casts) {
      var i :| 0 <= i < |casts| && Identities(casts)[i] == k.1;
      assert casts[i] in casts && casts[i].identity == k.1;
    }
    if c :| c in casts && c.identity == k.1 {
      var i :| 0 <= i < |casts| && casts[i] == c;
      assert Identities(casts)[i] == k.1;
    }
  }

  lemma ConfirmStep(cfg: Config, s: State, tx: Tx, k: Key)
    requires Valid(s, tx) && tx.poll == k.0
    ensures k in Apply(cfg, s, tx).confirms
      <==> After(if k in s.confirms then Sets(()) else Clears, ConfirmMark(s, tx, k)).Sets?
  {
    hide Apply, IdentityKeys, BallotKeys;
    if tx.BatchFlush? {
      FlushStores(cfg, s, tx.poll, tx.casts, tx.now);
    } else if IsReplacement(tx) {
      UpdateStores(cfg, s, tx);
    } else if IsWithdrawal(tx) {
      Removes(cfg, s, tx, tx.oldBallot);
    } else if tx.AuthorityRescind? {
      Removes(cfg, s, tx, tx.ballot);
    } else if tx.ResealVote? {
      ResealKeeps(cfg, s, tx);
    } else {
      OthersKeep(cfg, s, tx);
    }
  }

  lemma LogStep(cfg: Config, s: State, tx: Tx)
    requires Valid(s, tx)
    ensures var t := Apply(cfg, s, tx);
      && t.restores == s.restores + (if tx.AuthorityRestore? then {(tx.poll, tx.identity)} else {})
      && t.rescissions == s.rescissions + (if tx.AuthorityRescind? then {(tx.poll, tx.ballot)} else {})
  {
    hide Apply, IdentityKeys, BallotKeys;
    if tx.BatchFlush? {
      FlushStores(cfg, s, tx.poll, tx.casts, tx.now);
    } else if IsReplacement(tx) {
      UpdateStores(cfg, s, tx);
    } else if IsWithdrawal(tx) {
      Removes(cfg, s, tx, tx.oldBallot);
    } else if tx.AuthorityRescind? {
      Removes(cfg, s, tx, tx.ballot);
    } else if tx.ResealVote? {
      ResealKeeps(cfg, s, tx);
    } else {
      OthersKeep(cfg, s, tx);
    }
  }

  lemma ElsewhereKept(cfg: Config, s: State, tx: Tx, k: Key)
    requires Valid(s, tx) && tx.poll != k.0
    ensures k in Apply(cfg, s, tx).voters <==> k in s.voters
    ensures k in Apply(cfg, s, tx).confirms <==> k in s.confirms
  {
    OtherPoll(cfg, s, tx, k.0);
  }

  /** List 2: an identity is registered exactly if the last accepted transaction about it
      was a flush with a cast of it, and confirmed exactly if the last one was its
      confirmation. */
  lemma {:induction false} VotersExact(cfg: Config, txs: seq<Tx>, k: Key)
    ensures k in Run(cfg, txs).voters <==> Told(Runs(cfg), txs, k, VoterMark).Sets?
    ensures k in Run(cfg, txs).confirms <==> Told(Runs(cfg), txs, k, ConfirmMark).Sets?
    decreases |txs|
  {
    hide VoterMark, ConfirmMark, Apply, Valid, Told;
    if txs == [] {
      ToldNothing(Runs(cfg), k, VoterMark);
      ToldNothing(Runs(cfg), k, ConfirmMark);
    } else {
      var before, tx := txs[..|txs| - 1], txs[|txs| - 1];
      VotersExact(cfg, before, k);
      ToldMore(Runs(cfg), txs, k, VoterMark);
      ToldMore(Runs(cfg), txs, k, ConfirmMark);
      if Valid(Run(cfg, before), tx) && tx.poll == k.0 {
        VoterStep(cfg, Run(cfg, before), tx, k);
        ConfirmStep(cfg, Run(cfg, before), tx, k);
      } else {
        Silent(Run(cfg, before), tx, k);
        if Valid(Run(cfg, before), tx) {
          ElsewhereKept(cfg, Run(cfg, before), tx, k);
        }
      }
    }
  }

  /** An accepted restore of the identity in the poll, at this place of the run. */
  ghost predicate Grants(cfg: Config, txs: seq<Tx>, i: int, p: Str, identity: Str) {
    && 0 <= i < |txs| && Valid(Run(cfg, txs[..i]), txs[i])
    && txs[i].AuthorityRestore? && txs[i].poll == p && txs[i].identity == identity
  }

  ghost predicate Granted(cfg: Config, txs: seq<Tx>, p: Str, identity: Str) {
    exists i :: Grants(cfg, txs, i, p, identity)
  }

  lemma {:induction false} GrantsExact(cfg: Config, txs: seq<Tx>, p: Str, identity: Str)
    ensures (p, identity) in Run(cfg, txs).restores <==> Granted(cfg, txs, p, identity)
    decreases |txs|
  {
    hide Valid, Apply;
    if txs != [] {
      var before, tx := txs[..|txs| - 1], txs[|txs| - 1];
      GrantsExact(cfg, before, p, identity);
      GrantedMore(cfg, txs, p, identity);
      if Valid(Run(cfg, before), tx) {
        LogStep(cfg, Run(cfg, before), tx);
      }
    }
  }

  lemma GrantedMore(cfg: Config, txs: seq<Tx>, p: Str, identity: Str)
    requires txs != []
    ensures Granted(cfg, txs, p, identity)
      <==> Granted(cfg, txs[..|txs| - 1], p, identity) || Grants(cfg, txs, |txs| - 1, p, identity)
  {
    hide Valid, Run;
    var before := txs[..|txs| - 1];
    forall i | 0 <= i < |before| ensures Grants(cfg, txs, i, p, identity) <==> Grants(cfg, before, i, p, identity) {
      assert before[..i] == txs[..i];
    }
    if Granted(cfg, before, p, identity) {
      var i :| Grants(cfg, before, i, p, identity);
      assert Grants(cfg, txs, i, p, identity);
    }
    if i :| Grants(cfg, txs, i, p, identity) && i < |before| {
      assert Grants(cfg, before, i, p, identity);
    }
  }

  /** Everything a flush is asked for besides the registry. */
  predicate WellFormed(s: State, p: Str, casts: seq<Cast>, now: int) {
    && p in s.polls && s.polls[p].status != Closed && casts != []
    && s.polls[p].startTime <= now < s.polls[p].endTime
    && (forall c | c in casts :: ValidChoices(s.polls[p], c.choices))
    && (forall i, j | 0 <= i < j < |casts| :: casts[i].ballotId != casts[j].ballotId)
    && (forall i, j | 0 <= i < j < |casts| :: casts[i].identity != casts[j].identity)
  }

  /** Nobody votes twice without leave: in any run, a well-formed flush is accepted exactly
      if everyone in it who stands registered was granted a restore by an accepted
      transaction of the run. */
  lemma {:induction false} FlushAcceptedIff(cfg: Config, txs: seq<Tx>, p: Str, casts: seq<Cast>, now: int)
    ensures Valid(Run(cfg, txs), BatchFlush(p, casts, now)) <==>
      && WellFormed(Run(cfg, txs), p, casts, now)
      && forall c | c in casts && Told(Runs(cfg), txs, (p, c.identity), VoterMark).Sets? ::
        Granted(cfg, txs, p, c.identity)
  {
    hide Run, Told, VoterMark, Granted, ValidChoices;
    var s := Run(cfg, txs);
    forall c | c in casts
      ensures (p, c.identity) in s.voters <==> Told(Runs(cfg), txs, (p, c.identity), VoterMark).Sets?
      ensures (p, c.identity) in s.restores <==> Granted(cfg, txs, p, c.identity)
    {
      VotersExact(cfg, txs, (p, c.identity));
      GrantsExact(cfg, txs, p, c.identity);
    }
    assert Distinct(BallotIds(casts)) <==> forall i, j | 0 <= i < j < |casts| ::
      casts[i].ballotId != casts[j].ballotId by {
      SameIds(casts);
    }
    assert Distinct(Identities(casts)) <==> forall i, j | 0 <= i < j < |casts| ::
      casts[i].identity != casts[j].identity by {
      SameIds(casts);
    }
    hide Distinct;
    if casts != [] { assert casts[0] in casts; }
  }

  lemma SameIds(casts: seq<Cast>)
    ensures Distinct(BallotIds(casts)) <==> forall i, j | 0 <= i < j < |casts| :: casts[i].ballotId != casts[j].ballotId
    ensures Distinct(Identities(casts)) <==> forall i, j | 0 <= i < j < |casts| ::
        casts[i].identity != casts[j].identity
  {
    assert forall i | 0 <= i < |casts| :: BallotIds(casts)[i] == casts[i].ballotId;
    assert forall i | 0 <= i < |casts| :: Identities(casts)[i] == casts[i].identity;
    if Distinct(BallotIds(casts)) {
      forall i, j | 0 <= i < j < |casts| ensures casts[i].ballotId != casts[j].ballotId {
        assert BallotIds(casts)[i] != BallotIds(casts)[j];
      }
    }
    if Distinct(Identities(casts)) {
      forall i, j | 0 <= i < j < |casts| ensures casts[i].identity != casts[j].identity {
        assert Identities(casts)[i] != Identities(casts)[j];
      }
    }
  }

  /** Without an accepted restore in the poll there are no recasts at all. */
  lemma {:induction false} NoGrantNoRecast(cfg: Config, txs: seq<Tx>, p: Str)
    requires forall identity :: !Granted(cfg, txs, p, identity)
    ensures HistoryOf(cfg, txs, p).recasts == 0
    decreases |txs|
  {
    if txs != [] {
      var before, tx := txs[..|txs| - 1], txs[|txs| - 1];
      var s := Run(cfg, before);
      hide Run, Valid, Granted;
      forall identity ensures !Granted(cfg, before, p, identity) {
        GrantedMore(cfg, txs, p, identity);
      }
      NoGrantNoRecast(cfg, before, p);
      if tx.BatchFlush? && tx.poll == p && Valid(s, tx) {
        forall identity ensures (p, identity) !in s.restores {
          GrantsExact(cfg, before, p, identity);
        }
        NobodyRegistered(s, p, tx.casts, tx.now);
      }
    }
  }

  lemma NobodyRegistered(s: State, p: Str, casts: seq<Cast>, now: int)
    requires Valid(s, BatchFlush(p, casts, now)) && forall identity :: (p, identity) !in s.restores
    ensures IdentityKeys(p, casts) * s.voters == {}
  {
    forall k | k in IdentityKeys(p, casts) ensures k !in s.voters {
      IdentityCast(p, casts, k);
      var c :| c in casts && c.identity == k.1;
      assert ValidCast(s, p, c, now);
      assert k == (p, c.identity);
    }
  }

  // ----- the two logs -----

  ghost function RescissionsOf(s: State, p: Str): set<Key> {
    set k | k in s.rescissions && k.0 == p
  }

  /** The append-only log has one entry for each accepted rescission: no ballot is
      rescinded twice. */
  lemma {:induction false} OneEntryPerRescission(cfg: Config, txs: seq<Tx>, p: Str)
    ensures |RescissionsOf(Run(cfg, txs), p)| == HistoryOf(cfg, txs, p).rescissions
    decreases |txs|
  {
    if txs != [] {
      var before, tx := txs[..|txs| - 1], txs[|txs| - 1];
      var s := Run(cfg, before);
      OneEntryPerRescission(cfg, before, p);
      hide Apply, Run;
      if Valid(s, tx) {
        var t := Apply(cfg, s, tx);
        LogStep(cfg, s, tx);
        LoggedOnce(s, t, tx, p);
      }
    }
  }

  lemma LoggedOnce(s: State, t: State, tx: Tx, p: Str)
    requires t.rescissions == s.rescissions + (if tx.AuthorityRescind? then {(tx.poll, tx.ballot)} else {})
    requires tx.AuthorityRescind? ==> (tx.poll, tx.ballot) !in s.rescissions
    ensures |RescissionsOf(t, p)| == |RescissionsOf(s, p)| + One(tx.AuthorityRescind? && tx.poll == p)
  {
    var was, now := RescissionsOf(s, p), RescissionsOf(t, p);
    if tx.AuthorityRescind? && tx.poll == p {
      assert now == was + {(p, tx.ballot)};
    } else {
      assert now == was;
    }
  }

  ghost function RescissionMark(s: State, tx: Tx, k: Key): Mark<()> {
    if Valid(s, tx) && tx.AuthorityRescind? && (tx.poll, tx.ballot) == k then Sets(()) else Keeps
  }

  lemma {:induction false} RescissionsExact(cfg: Config, txs: seq<Tx>, k: Key)
    ensures k in Run(cfg, txs).rescissions <==> Told(Runs(cfg), txs, k, RescissionMark).Sets?
    decreases |txs|
  {
    hide Valid, Apply, Told;
    if txs == [] {
      ToldNothing(Runs(cfg), k, RescissionMark);
    } else {
      var before, tx := txs[..|txs| - 1], txs[|txs| - 1];
      RescissionsExact(cfg, before, k);
      ToldMore(Runs(cfg), txs, k, RescissionMark);
      if Valid(Run(cfg, before), tx) {
        LogStep(cfg, Run(cfg, before), tx);
      }
    }
  }

  /** A grant is given once, and only after an accepted rescission of the ballot it names. */
  lemma {:induction false} RestoreFollowsRescission(cfg: Config, txs: seq<Tx>, tx: Tx)
    requires tx.AuthorityRestore? && Valid(Run(cfg, txs), tx)
    ensures Told(Runs(cfg), txs, (tx.poll, tx.ballot), RescissionMark).Sets? && !Granted(cfg, txs, tx.poll, tx.identity)
  {
    RescissionsExact(cfg, txs, (tx.poll, tx.ballot));
    GrantsExact(cfg, txs, tx.poll, tx.identity);
    hide Run, Told, Granted;
  }

  // ----- the terms of a poll -----

  function TermsOf(poll: Poll): Terms {
    Terms(poll.options, poll.votingMethod, poll.startTime, poll.endTime, poll.hasRescissionKeys)
  }

  ghost predicate PollAsTold(s: State, p: Str, terms: Mark<Terms>, status: Mark<Status>) {
    && (p in s.polls <==> terms.Sets?)
    && (p in s.polls ==>
          && terms.value == TermsOf(s.polls[p]) && status == Sets(s.polls[p].status)
          && ValidOptions(terms.value.options) && terms.value.startTime < terms.value.endTime)
  }

  lemma {:induction false} PollStep(cfg: Config, s: State, tx: Tx, terms: Mark<Terms>, status: Mark<Status>)
    requires Valid(s, tx) && PollAsTold(s, tx.poll, terms, status)
    ensures var k := (tx.poll, []);
      PollAsTold(Apply(cfg, s, tx), tx.poll, After(terms, TermsMark(s, tx, k)), After(status, StatusMark(s, tx, k)))
  {
    hide ListsMatch, RolledAfter, WriteVotes, WriteVoters, Sort, FreshTally, RescindedTally, ValidOptions, ValidCast,
      ValidChoices;
  }

  /** Every poll has the terms of the transaction that created it and the status that the
      last opening or successful close gave it. */
  lemma {:induction false} PollsExact(cfg: Config, txs: seq<Tx>, p: Str)
    ensures PollAsTold(Run(cfg, txs), p, Told(Runs(cfg), txs, (p, []), TermsMark),
                       Told(Runs(cfg), txs, (p, []), StatusMark))
    decreases |txs|
  {
    hide TermsMark, StatusMark, Apply, Valid, Told, ValidOptions;
    var k: Key := (p, []);
    if txs == [] {
      ToldNothing(Runs(cfg), k, TermsMark);
      ToldNothing(Runs(cfg), k, StatusMark);
    } else {
      var before, tx := txs[..|txs| - 1], txs[|txs| - 1];
      PollsExact(cfg, before, p);
      ToldMore(Runs(cfg), txs, k, TermsMark);
      ToldMore(Runs(cfg), txs, k, StatusMark);
      if Valid(Run(cfg, before), tx) && tx.poll == p {
        PollStep(cfg, Run(cfg, before), tx, Told(Runs(cfg), before, k, TermsMark),
                 Told(Runs(cfg), before, k, StatusMark));
      } else {
        Silent(Run(cfg, before), tx, k);
        if Valid(Run(cfg, before), tx) {
          OtherPoll(cfg, Run(cfg, before), tx, p);
        }
      }
    }
  }

  predicate ChosenWithin(terms: Terms, choices: seq<Str>) {
    && choices != [] && (forall c | c in choices :: c in terms.options)
    && (forall i, j | 0 <= i < j < |choices| :: choices[i] != choices[j])
    && (terms.votingMethod == Plurality ==> |choices| == 1)
  }

  /** Whatever is accepted keeps to the terms its poll was created with: casts and updates
      to the window and the options, confirmations to the start, closes to the end,
      rescissions and restores to polls with keys. */
  predicate Within(terms: Terms, tx: Tx) {
    match tx
    case CreatePoll(_, _, _, _, _, _, _) => false
    case OpenPoll(_, now) => terms.startTime <= now < terms.endTime
    case BatchFlush(_, casts, now) =>
      terms.startTime <= now < terms.endTime && forall c | c in casts :: ChosenWithin(terms, c.choices)
    case UpdateBallot(_, _, _, _, choices, now) =>
      terms.startTime <= now < terms.endTime && (choices != [] ==> ChosenWithin(terms, choices))
    case ResealVote(_, _, _) => true
    case ConfirmReceipt(_, _, now) => terms.startTime <= now
    case AuthorityRescind(_, _, _) => terms.keys
    case AuthorityRestore(_, _, _) => terms.keys
    case ClosePoll(_, now, _) => terms.endTime <= now
  }

  lemma {:induction false} AcceptedWithin(cfg: Config, txs: seq<Tx>, tx: Tx)
    requires Valid(Run(cfg, txs), tx)
    ensures var terms := Told(Runs(cfg), txs, (tx.poll, []), TermsMark);
      if tx.CreatePoll? then !terms.Sets? else terms.Sets? && Within(terms.value, tx)
  {
    PollsExact(cfg, txs, tx.poll);
    hide Run, Told, TermsMark, StatusMark, ValidOptions;
    if tx.BatchFlush? {
      assert tx.casts[0] in tx.casts;
      forall c | c in tx.casts ensures ValidCast(Run(cfg, txs), tx.poll, c, tx.now) {
      }
    }
  }
}
