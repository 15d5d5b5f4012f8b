/** The relay and the ledger together: the order in which the relay puts the submissions
    it holds makes no difference to the ledger. */
module RelayLedger {
  import opened Ordering
  import opened Permutations
  import opened RelayShuffle
  import V = VotingSpec
  import VotingTheorems

  /** The batch that arrives when the submissions are shuffled with these draws. */
  function Arrived(parse: Str -> V.Cast, waiting: seq<Str>, draws: seq<nat>): seq<V.Cast>
    requires Draws(draws, |waiting|)
  {
    Mapped(parse, Shuffle(waiting, draws))
  }

  /** Whatever is drawn, the ledger accepts the batch or refuses it, and if it accepts,
      the state, the outcome and the batch id are the same: nothing of the order a relay
      has drawn, or has received, is left in the ledger. */
  lemma {:induction false} DrawsLeaveNoTrace(cfg: V.Config, s: V.State, p: Str, parse: Str -> V.Cast,
                                             waiting: seq<Str>, d: seq<nat>, e: seq<nat>, now: int)
    requires Draws(d, |waiting|) && Draws(e, |waiting|)
    ensures var a, b := Arrived(parse, waiting, d), Arrived(parse, waiting, e);
      && (V.Valid(s, V.BatchFlush(p, a, now)) <==> V.Valid(s, V.BatchFlush(p, b, now)))
      && (V.Valid(s, V.BatchFlush(p, a, now)) ==>
            && V.Apply(cfg, s, V.BatchFlush(p, a, now)) == V.Apply(cfg, s, V.BatchFlush(p, b, now))
            && (V.FlushSucceeds(cfg, s, p, a) <==> V.FlushSucceeds(cfg, s, p, b))
            && V.BatchId(cfg, p, a) == V.BatchId(cfg, p, b))
  {
    hide *;
    ArrivedPermutes(parse, waiting, d, e);
    VotingTheorems.BatchOrderIrrelevant(cfg, s, p, Arrived(parse, waiting, d), Arrived(parse, waiting, e), now);
  }

  lemma ArrivedPermutes(parse: Str -> V.Cast, waiting: seq<Str>, d: seq<nat>, e: seq<nat>)
    requires Draws(d, |waiting|) && Draws(e, |waiting|)
    ensures multiset(Arrived(parse, waiting, d)) == multiset(Arrived(parse, waiting, e))
  {
    hide Shuffle, Draws, Mapped;
    ShufflePermutes(waiting, d);
    ShufflePermutes(waiting, e);
    MapPermutes(parse, Shuffle(waiting, d), Shuffle(waiting, e));
  }

  /** Nor of the order in which they came in: every batch that one order of arrival can
      lead to is one that any other can lead to. */
  lemma SameArrivals(parse: Str -> V.Cast, one: seq<Str>, other: seq<Str>, d: seq<nat>) returns (e: seq<nat>)
    requires multiset(one) == multiset(other) && Draws(d, |one|)
    ensures Draws(e, |other|) && Arrived(parse, other, e) == Arrived(parse, one, d)
  {
    ShufflePermutes(one, d);
    hide Shuffle, Draws, Mapped;
    e := ShuffleReaches(other, Shuffle(one, d));
  }
}
