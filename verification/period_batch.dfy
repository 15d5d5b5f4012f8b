/** One batch of the voting machine against as many single submissions to the period
    machine, from corresponding states. */
module PeriodBatch {
  import opened Ordering
  import opened Merkle
  import opened TwoList
  import opened PeriodSpec
  import V = VotingSpec
  import L = VotingLaws

  datatype Item = Item(id: Str, identity: Str, payload: Str)

  /** The submissions of a list of items, one transaction after the other. */
  ghost function SubmitAll(cfg: Config, s: State, p: Str, items: seq<Item>): State
    decreases |items|
  {
    if items == [] then s
    else SubmitAll(cfg, Step(cfg, s, Submit(p, items[0].id, items[0].identity, items[0].payload)), p, items[1..])
  }

  /** Nothing in the list is in use yet, and nothing occurs in it twice. */
  ghost predicate Fresh(s: State, p: Str, items: seq<Item>) {
    && (forall i | 0 <= i < |items| :: (p, items[i].id) !in s.submissions && (p, items[i].identity) !in s.participants)
    && (forall i, j | 0 <= i < j < |items| :: items[i].id != items[j].id && items[i].identity != items[j].identity)
  }

  function ItemIds(items: seq<Item>): seq<Str> {
    seq(|items|, i requires 0 <= i < |items| => items[i].id)
  }

  function ItemIdentities(items: seq<Item>): seq<Str> {
    seq(|items|, i requires 0 <= i < |items| => items[i].identity)
  }

  ghost function IdKeys(p: Str, items: seq<Item>): set<Key> {
    KeysOf(p, ItemIds(items))
  }

  ghost function ParticipantKeys(p: Str, items: seq<Item>): set<Key> {
    KeysOf(p, ItemIdentities(items))
  }

  ghost function Pending(s: State, p: Str): nat {
    GetOr(s.submissionCounts, p, 0)
  }

  ghost function Checkpoints(s: State, p: Str): nat {
    |GetOr(s.checkpoints, p, [])|
  }

  // ----- one submission -----

  lemma WrittenMore(s: State, p: Str, item: Item)
    requires ListsMatch(s, p) && (p, item.id) !in s.submissions && (p, item.identity) !in s.participants
    ensures var t := Written(s, p, item.id, item.identity, item.payload);
      && Live(t, p) == Live(s, p) + {(p, item.id)} && L2(t, p) == L2(s, p) + {(p, item.identity)}
      && ListsMatch(t, p)
  {
    var t := Written(s, p, item.id, item.identity, item.payload);
    assert Live(t, p) == Live(s, p) + {(p, item.id)} && L2(t, p) == L2(s, p) + {(p, item.identity)};
  }

  lemma AttestedMore(cfg: Config, s: State, p: Str)
    requires cfg.rolling && Pending(s, p) < cfg.threshold && ListsMatch(s, p)
    ensures var t, full := Attested(cfg, s, p), Pending(s, p) + 1 >= cfg.threshold;
      && t.submissions == s.submissions && t.participants == s.participants && t.periods == s.periods
      && Pending(t, p) == (if full then 0 else Pending(s, p) + 1)
      && Checkpoints(t, p) == Checkpoints(s, p) + One(full)
  {
    hide SetRoot, ListsMatch, L1Root, L2Root;
  }

  lemma SameKeysSameLists(s: State, t: State, p: Str)
    requires s.submissions == t.submissions && s.participants == t.participants
    ensures Live(s, p) == Live(t, p) && L2(s, p) == L2(t, p) && (ListsMatch(s, p) <==> ListsMatch(t, p))
  {
    assert Live(s, p) == Live(t, p) && L2(s, p) == L2(t, p);
  }

  /** One accepted submission to matching lists: both lists grow by one, and the counter
      either grows by one or restarts with a new checkpoint. */
  lemma {:induction false} SubmitOne(cfg: Config, s: State, p: Str, item: Item)
    requires cfg.rolling && Pending(s, p) < cfg.threshold && IsOpen(s, p) && ListsMatch(s, p)
    requires (p, item.id) !in s.submissions && (p, item.identity) !in s.participants
    ensures var t, full := Step(cfg, s, Submit(p, item.id, item.identity, item.payload)),
        Pending(s, p) + 1 >= cfg.threshold;
      && IsOpen(t, p) && ListsMatch(t, p)
      && Live(t, p) == Live(s, p) + {(p, item.id)} && L2(t, p) == L2(s, p) + {(p, item.identity)}
      && t.submissions.Keys == s.submissions.Keys + {(p, item.id)}
      && t.participants == s.participants + {(p, item.identity)}
      && Pending(t, p) == (if full then 0 else Pending(s, p) + 1)
      && Checkpoints(t, p) == Checkpoints(s, p) + One(full)
  {
    hide Attested, ListsMatch, Live, L2;
    var t := Written(s, p, item.id, item.identity, item.payload);
    WrittenMore(s, p, item);
    AttestedMore(cfg, t, p);
    SameKeysSameLists(t, Attested(cfg, t, p), p);
  }

  // ----- all of them -----

  /** The counter and the number of checkpoints after `n` single submissions to matching
      lists, starting from a counter below the threshold. */
  ghost function Singles(T: nat, counter: nat, n: nat): (nat, nat)
    requires counter < T
    decreases n
  {
    if n == 0 then (counter, 0)
    else
      var rest := Singles(T, if counter + 1 >= T then 0 else counter + 1, n - 1);
      (rest.0, rest.1 + One(counter + 1 >= T))
  }

  lemma {:induction false} SinglesShift(T: nat, counter: nat, n: nat)
    requires counter < T <= counter + n
    ensures var a, b := Singles(T, counter, n), Singles(T, 0, counter + n - T); a.0 == b.0 && a.1 == b.1 + 1
    decreases n
  {
    if counter + 1 < T {
      SinglesShift(T, counter + 1, n - 1);
    }
  }

  lemma {:induction false} SinglesBelow(T: nat, counter: nat, n: nat)
    requires counter + n < T
    ensures Singles(T, counter, n) == (counter + n, 0)
    decreases n
  {
    if n > 0 {
      SinglesBelow(T, counter + 1, n - 1);
    }
  }

  lemma FreshRest(s: State, t: State, p: Str, items: seq<Item>)
    requires items != [] && Fresh(s, p, items)
    requires t.submissions.Keys == s.submissions.Keys + {(p, items[0].id)}
    requires t.participants == s.participants + {(p, items[0].identity)}
    ensures Fresh(t, p, items[1..])
  {
  }

  lemma KeysSplit(p: Str, items: seq<Item>)
    requires items != []
    ensures IdKeys(p, items) == {(p, items[0].id)} + IdKeys(p, items[1..])
    ensures ParticipantKeys(p, items) == {(p, items[0].identity)} + ParticipantKeys(p, items[1..])
  {
    assert ItemIds(items) == [items[0].id] + ItemIds(items[1..]);
    assert ItemIdentities(items) == [items[0].identity] + ItemIdentities(items[1..]);
  }

  /** Fresh submissions to a period with matching lists: all are accepted, the lists grow
      by exactly the items, and counter and checkpoints go as counted one by one. */
  lemma {:induction false} SubmitAllCounts(cfg: Config, s: State, p: Str, items: seq<Item>)
    requires cfg.rolling && Pending(s, p) < cfg.threshold && IsOpen(s, p) && ListsMatch(s, p) && Fresh(s, p, items)
    ensures var t, singles := SubmitAll(cfg, s, p, items), Singles(cfg.threshold, Pending(s, p), |items|);
      && ListsMatch(t, p)
      && Live(t, p) == Live(s, p) + IdKeys(p, items) && L2(t, p) == L2(s, p) + ParticipantKeys(p, items)
      && Pending(t, p) == singles.0 && Checkpoints(t, p) == Checkpoints(s, p) + singles.1
    decreases |items|
  {
    hide ListsMatch, Live, L2, IsOpen, Fresh, IdKeys, ParticipantKeys, Step, Pending, Checkpoints;
    if items == [] {
      NoKeys(p);
    } else {
      var t := Step(cfg, s, Submit(p, items[0].id, items[0].identity, items[0].payload));
      FreshFirst(s, p, items);
      SubmitOne(cfg, s, p, items[0]);
      FreshRest(s, t, p, items);
      KeysSplit(p, items);
      SubmitAllCounts(cfg, t, p, items[1..]);
    }
  }

  lemma NoKeys(p: Str)
    ensures IdKeys(p, []) == {} && ParticipantKeys(p, []) == {}
  {
  }

  lemma FreshFirst(s: State, p: Str, items: seq<Item>)
    requires items != [] && Fresh(s, p, items)
    ensures (p, items[0].id) !in s.submissions && (p, items[0].identity) !in s.participants
  {
  }

  // ----- the flush -----

  lemma {:induction false} RollEqualsSingles(T: nat, counter: nat, n: nat, cps: seq<Checkpoint>, total: int, l1: Str,
                                             l2: Str)
    requires counter < T
    ensures var r, singles := V.Roll(T, counter + n, cps, true, total, l1, l2), Singles(T, counter, n);
      r.ok && r.counter == singles.0 && |r.checkpoints| == |cps| + singles.1
    decreases counter + n
  {
    if counter + n < T {
      SinglesBelow(T, counter, n);
    } else {
      SinglesShift(T, counter, n);
      RollEqualsSingles(T, 0, counter + n - T, cps + [Checkpoint(|cps|, total, l1, l2)], total, l1, l2);
    }
  }

  /** The two machines stand at the same lists, the same counter and as many checkpoints. */
  ghost predicate Mirrors(s: State, v: V.State, p: Str) {
    && Live(s, p) == V.Counted(v, p) && L2(s, p) == V.L2(v, p)
    && Pending(s, p) == GetOr(v.submissionCounts, p, 0)
    && Checkpoints(s, p) == |GetOr(v.checkpoints, p, [])|
  }

  /** The items and the casts carry the same ids and identities. */
  ghost predicate Matches(items: seq<Item>, casts: seq<V.Cast>) {
    ItemIds(items) == V.BallotIds(casts) && ItemIdentities(items) == V.Identities(casts)
  }

  lemma FlushAdds(v: V.State, p: Str, casts: seq<V.Cast>)
    requires p in v.polls && Distinct(V.BallotIds(casts)) && L.BallotKeys(p, casts) !! v.votes.Keys
    ensures var t := V.FlushedLists(v, p, casts);
      && V.Counted(t, p) == V.Counted(v, p) + L.BallotKeys(p, casts)
      && V.L2(t, p) == V.L2(v, p) + L.IdentityKeys(p, casts)
      && t.submissionCounts == v.submissionCounts && t.checkpoints == v.checkpoints
  {
    L.FlushGrows(v, p, casts);
    hide V.FlushedLists, L.BallotKeys, L.IdentityKeys;
  }

  lemma {:induction false} Rolls(cfg: V.Config, v: V.State, p: Str, casts: seq<V.Cast>)
    requires p in v.polls && cfg.rolling && GetOr(v.submissionCounts, p, 0) < cfg.threshold
    requires V.ListsMatch(V.FlushedLists(v, p, casts), p)
    requires V.FlushedLists(v, p, casts).submissionCounts == v.submissionCounts
    requires V.FlushedLists(v, p, casts).checkpoints == v.checkpoints
    ensures var t, singles := V.AfterFlush(cfg, v, p, casts),
        Singles(cfg.threshold, GetOr(v.submissionCounts, p, 0), |casts|);
      && V.FlushSucceeds(cfg, v, p, casts)
      && V.Counted(t, p) == V.Counted(V.FlushedLists(v, p, casts), p)
      && V.L2(t, p) == V.L2(V.FlushedLists(v, p, casts), p)
      && GetOr(t.submissionCounts, p, 0) == singles.0
      && |GetOr(t.checkpoints, p, [])| == |GetOr(v.checkpoints, p, [])| + singles.1
  {
    hide SetRoot, V.FlushedLists, V.ListsMatch, V.Roll, Singles;
    var u := V.FlushedLists(v, p, casts);
    RollEqualsSingles(cfg.threshold, GetOr(v.submissionCounts, p, 0), |casts|, GetOr(v.checkpoints, p, []),
                      |V.Counted(u, p)|, SetRoot(cfg.h, Ids(V.Counted(u, p))), SetRoot(cfg.h, Ids(V.L2(u, p))));
    WithRolledKeeps(u, p, V.RolledAfter(cfg, u, p, |casts|));
  }

  lemma WithRolledKeeps(v: V.State, p: Str, r: V.Rolled)
    ensures var t := V.WithRolled(v, p, r);
      && V.Counted(t, p) == V.Counted(v, p) && V.L2(t, p) == V.L2(v, p)
      && GetOr(t.submissionCounts, p, 0) == r.counter && GetOr(t.checkpoints, p, []) == r.checkpoints
  {
  }

  /** One flush of n fresh ballots and n single submissions of the same ids and identities,
      from states that mirror each other: the flush succeeds and the states mirror each
      other again, in both lists, the pending counter and the number of checkpoints. */
  lemma {:induction false} BatchEqualsSingles(cfg: Config, s: State, items: seq<Item>, votingCfg: V.Config, v: V.State,
                                              p: Str, casts: seq<V.Cast>)
    requires cfg.rolling && votingCfg.rolling && cfg.threshold == votingCfg.threshold && Pending(s, p) < cfg.threshold
    requires IsOpen(s, p) && ListsMatch(s, p) && Fresh(s, p, items)
    requires p in v.polls && Distinct(V.BallotIds(casts)) && L.BallotKeys(p, casts) !! v.votes.Keys
    requires Mirrors(s, v, p) && Matches(items, casts)
    ensures V.FlushSucceeds(votingCfg, v, p, casts)
    ensures Mirrors(SubmitAll(cfg, s, p, items), V.AfterFlush(votingCfg, v, p, casts), p)
  {
    hide SubmitAll, V.AfterFlush, V.FlushSucceeds, V.FlushedLists, Live, L2, V.Counted, V.L2, Singles, Fresh, IsOpen,
      KeysOf,
      V.BallotIds, V.Identities, ItemIds, ItemIdentities;
    SameLength(items, casts);
    SubmitAllCounts(cfg, s, p, items);
    FlushAdds(v, p, casts);
    Rolls(votingCfg, v, p, casts);
  }

  lemma SameLength(items: seq<Item>, casts: seq<V.Cast>)
    requires Matches(items, casts)
    ensures |items| == |casts|
  {
    assert |ItemIds(items)| == |items|;
  }
}
