/** Where the entries of a period come from: each submission and registration of any
    reachable state is what the last accepted transaction about it said. */
module PeriodOrigins {
  import opened Ordering
  import opened TwoList
  import opened Histories
  import opened PeriodSpec
  import opened PeriodRuns

  ghost function Runs(cfg: Config): seq<Tx> -> State {
    txs => Run(cfg, txs)
  }

  /** The write-only guard of the client is part of what is accepted. */
  datatype About = About(cfg: Config, key: Key)

  ghost function PayloadMark(s: State, tx: Tx, a: About): Mark<Str> {
    if !Valid(a.cfg, s, tx) || tx.period != a.key.0 then Keeps
    else
      match tx
      case Submit(_, id, _, payload) => if id == a.key.1 then Sets(payload) else Keeps
      case Update(_, oldId, newId, _, payload) =>
        if newId == a.key.1 then Sets(payload) else if oldId == a.key.1 then Clears else Keeps
      case Withdraw(_, id, _) => if id == a.key.1 then Clears else Keeps
      case _ => Keeps
  }

  ghost function ParticipantMark(s: State, tx: Tx, a: About): Mark<()> {
    if !Valid(a.cfg, s, tx) || tx.period != a.key.0 then Keeps
    else if tx.Submit? && tx.identity == a.key.1 then Sets(())
    else if tx.Withdraw? && tx.identity == a.key.1 then Clears
    else Keeps
  }

  ghost predicate EntryAsTold(s: State, k: Key, payload: Mark<Str>, participant: Mark<()>) {
    && (k in s.submissions <==> payload.Sets?)
    && (k in s.submissions ==> s.submissions[k] == Submission(payload.value, false))
    && (k in s.participants <==> participant.Sets?)
  }

  lemma {:induction false} EntryStep(cfg: Config, s: State, tx: Tx, k: Key, payload: Mark<Str>, participant: Mark<()>)
    requires Valid(cfg, s, tx) && EntryAsTold(s, k, payload, participant)
    ensures EntryAsTold(Apply(cfg, s, tx), k, After(payload, PayloadMark(s, tx, About(cfg, k))),
                        After(participant, ParticipantMark(s, tx, About(cfg, k))))
  {
    if tx.Submit? {
      AttestedLists(cfg, Written(s, tx.period, tx.id, tx.identity, tx.payload), tx.period);
    }
    hide Attested, ListsMatch, Live, L2, L1Root, L2Root;
  }

  /** Every reachable submission carries the payload of the submission or update that last
      wrote its id, and an identity is registered exactly if its last accepted transaction
      was a submission. */
  lemma {:induction false} EntriesExact(cfg: Config, txs: seq<Tx>, k: Key)
    ensures EntryAsTold(Run(cfg, txs), k, Told(Runs(cfg), txs, About(cfg, k), PayloadMark),
                        Told(Runs(cfg), txs, About(cfg, k), ParticipantMark))
    decreases |txs|
  {
    hide PayloadMark, ParticipantMark, Apply, Valid, Told, EntryAsTold;
    var a := About(cfg, k);
    if txs == [] {
      ToldNothing(Runs(cfg), a, PayloadMark);
      ToldNothing(Runs(cfg), a, ParticipantMark);
      NothingYet(k);
    } else {
      var before, tx := txs[..|txs| - 1], txs[|txs| - 1];
      EntriesExact(cfg, before, k);
      ToldMore(Runs(cfg), txs, a, PayloadMark);
      ToldMore(Runs(cfg), txs, a, ParticipantMark);
      if Valid(cfg, Run(cfg, before), tx) {
        EntryStep(cfg, Run(cfg, before), tx, k, Told(Runs(cfg), before, a, PayloadMark),
                  Told(Runs(cfg), before, a, ParticipantMark));
      } else {
        Silent(cfg, Run(cfg, before), tx, k);
      }
    }
  }

  lemma NothingYet(k: Key)
    ensures EntryAsTold(EMPTY, k, Clears, Clears)
  {
  }

  lemma Silent(cfg: Config, s: State, tx: Tx, k: Key)
    requires !Valid(cfg, s, tx)
    ensures PayloadMark(s, tx, About(cfg, k)).Keeps? && ParticipantMark(s, tx, About(cfg, k)).Keeps?
  {
    hide Valid;
  }

  /** A submission is accepted exactly if the period is open and the identity has not
      submitted since it last withdrew, if ever. */
  lemma {:induction false} SubmitAcceptedIff(cfg: Config, txs: seq<Tx>, p: Str, id: Str, identity: Str, payload: Str)
    ensures Valid(cfg, Run(cfg, txs), Submit(p, id, identity, payload)) <==>
      IsOpen(Run(cfg, txs), p) && !Told(Runs(cfg), txs, About(cfg, (p, identity)), ParticipantMark).Sets?
  {
    EntriesExact(cfg, txs, (p, identity));
    hide Run, Told, PayloadMark, ParticipantMark;
  }

  /** An update is accepted exactly if the client allows updates, the period is open, the
      old submission is there and the identity is registered. */
  lemma {:induction false} UpdateAcceptedIff(cfg: Config, txs: seq<Tx>, tx: Tx)
    requires tx.Update?
    ensures Valid(cfg, Run(cfg, txs), tx) <==>
      && !cfg.writeOnly && IsOpen(Run(cfg, txs), tx.period)
      && Told(Runs(cfg), txs, About(cfg, (tx.period, tx.oldId)), PayloadMark).Sets?
      && Told(Runs(cfg), txs, About(cfg, (tx.period, tx.identity)), ParticipantMark).Sets?
  {
    EntriesExact(cfg, txs, (tx.period, tx.oldId));
    EntriesExact(cfg, txs, (tx.period, tx.identity));
    hide Run, Told, PayloadMark, ParticipantMark;
  }
}
