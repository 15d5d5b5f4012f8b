/** When an export bundle verifies, and that the cutover made from it does. */
module ScytaleBundle {
  import opened Ordering
  import opened ScytaleSpec
  import opened ScytaleLaws
  import opened ScytaleCutover

  ghost predicate SameRows(a: Rows, b: Rows) {
    && multiset(a.mailboxes) == multiset(b.mailboxes)
    && multiset(a.dispatches) == multiset(b.dispatches)
    && multiset(a.receipts) == multiset(b.receipts)
  }

  /** No row has a plain field that is null under its database spelling only; the NOT NULL
      columns of the tables guarantee it for stored rows. */
  ghost predicate Clean(rows: Rows) {
    AllClean(MAILBOX, rows.mailboxes) && AllClean(DISPATCH, rows.dispatches) && AllClean(RECEIPT, rows.receipts)
  }

  // ----- the rest of the body comes back as it was -----

  lemma {:induction false} Truthy(env: Env, v: Opt)
    ensures !Falsy(Def(SortValue(env, OrObject(v))))
    ensures SortValue(env, OrObject(Def(SortValue(env, OrObject(v))))) == SortValue(env, OrObject(v))
  {
    SortValueIdempotent(env, OrObject(v));
  }

  lemma TenantAgain(env: Env, v: Opt)
    requires Lawful(env)
    ensures NormalizeTenantId(env, Def(Text(NormalizeTenantId(env, v)))) == NormalizeTenantId(env, v)
  {
  }

  lemma CleanIdAgain(env: Env, v: Opt)
    requires Lawful(env)
    ensures CleanId(env, OrNothing(CleanId(env, v))) == CleanId(env, v)
  {
  }

  lemma LengthsPermute(a: Rows, b: Rows)
    requires SameRows(a, b)
    ensures |a.mailboxes| == |b.mailboxes| && |a.dispatches| == |b.dispatches| && |a.receipts| == |b.receipts|
  {
    assert |multiset(a.mailboxes)| == |multiset(b.mailboxes)|;
    assert |multiset(a.dispatches)| == |multiset(b.dispatches)|;
    assert |multiset(a.receipts)| == |multiset(b.receipts)|;
  }

  ghost function Exported(env: Env, o: Origin, deployment: Opt, rows: Rows, exported: Rows): Bundle {
    CreateExportBundle(env, o.tenantId, deployment, CreateCheckpointPayload(env, o, rows), exported)
  }

  /** Recomputing the checkpoint of a bundle differs from the original in the roots at most. */
  lemma {:induction false} RecomputedBody(env: Env, o: Origin, deployment: Opt, rows: Rows, exported: Rows)
    requires Lawful(env) && SameRows(rows, exported)
    ensures var b := Exported(env, o, deployment, rows, exported);
      Recomputed(env, b).body == b.checkpoint.body.(roots := Recomputed(env, b).body.roots)
  {
    TenantAgain(env, o.tenantId);
    CleanIdAgain(env, o.previousCheckpointId);
    CleanIdAgain(env, o.sourceCheckpointId);
    CleanIdAgain(env, o.sourceCheckpointDigest);
    Truthy(env, o.sourceDeployment);
    LengthsPermute(rows, exported);
    hide SortValue, CleanId, NormalizeTenantId, CollectionRoot, OrObject, Falsy, NormalizeAll, Normalize, OrNothing;
  }

  /** The rows of a bundle, normalised when it was made and again when it is checked. */
  ghost function Twice(env: Env, exported: Rows): Rows {
    NormalizeRows(env, NormalizeRows(env, exported))
  }

  lemma RecomputedRoots(env: Env, o: Origin, deployment: Opt, rows: Rows, exported: Rows)
    ensures var b := Exported(env, o, deployment, rows, exported);
      && RootsOf(env, b.checkpoint.body.roots, NormalizeRows(env, rows))
      && RootsOf(env, Recomputed(env, b).body.roots, Twice(env, exported))
      && b.checkpoint.digest == Digest(env, BodyJson(b.checkpoint.body))
      && Recomputed(env, b).digest == Digest(env, BodyJson(Recomputed(env, b).body))
  {
    hide CollectionRoot, NormalizeAll, BodyJson, Digest;
  }

  lemma FormsAgainIff(env: Env, rows: Rows, exported: Rows)
    requires Lawful(env) && SameRows(rows, exported)
    ensures SameForms(env, NormalizeRows(env, rows), Twice(env, exported)) <==> Clean(rows)
  {
    hide Lawful, AllClean, OneRuleEach, NormalizeAll, Forms;
    MailboxRules();
    DispatchRules();
    ReceiptRules();
    AgainIff(env, MAILBOX, rows.mailboxes, exported.mailboxes);
    AgainIff(env, DISPATCH, rows.dispatches, exported.dispatches);
    AgainIff(env, RECEIPT, rows.receipts, exported.receipts);
  }

  lemma {:induction false} SameFormsSameRoots(env: Env, x: Triple<Str>, m: Rows, y: Triple<Str>, n: Rows)
    requires RootsOf(env, x, m) && RootsOf(env, y, n) && SameForms(env, m, n)
    ensures x == y
  {
    hide CollectionRoot, Forms;
    RootForgetsOrder(env, m.mailboxes, n.mailboxes);
    RootForgetsOrder(env, m.dispatches, n.dispatches);
    RootForgetsOrder(env, m.receipts, n.receipts);
  }

  /** A bundle of clean rows verifies, in whatever order the rows are exported. */
  lemma {:induction false} CleanBundleVerifies(env: Env, o: Origin, deployment: Opt, rows: Rows, exported: Rows,
                                               signature: Signature)
    requires Lawful(env) && SameRows(rows, exported) && Clean(rows) && signature != Forged
    ensures VerifyExportBundle(env, Exported(env, o, deployment, rows, exported), signature)
  {
    var b := Exported(env, o, deployment, rows, exported);
    assert b.schemaVersion == EXPORT_SCHEMA;
    hide Lawful, SameRows, Clean, RootsOf, SameForms, NormalizeRows, Twice, Exported, Recomputed, BodyJson, Digest;
    RecomputedRoots(env, o, deployment, rows, exported);
    RecomputedBody(env, o, deployment, rows, exported);
    FormsAgainIff(env, rows, exported);
    SameFormsSameRoots(env, b.checkpoint.body.roots, NormalizeRows(env, rows), Recomputed(env, b).body.roots,
                       Twice(env, exported));
  }

  /** With digests that do not collide on what is written, a bundle verifies exactly when
      its rows are clean: normalising at export and again at verification is not always
      the same as normalising once for the checkpoint. */
  lemma {:induction false} BundleVerifiesIff(env: Env, o: Origin, deployment: Opt, rows: Rows, exported: Rows,
                                             signature: Signature)
    requires Lawful(env) && SameRows(rows, exported) && signature != Forged
    requires var b := Exported(env, o, deployment, rows, exported);
      Binding(env, BodyWrites(env, b.checkpoint.body, NormalizeRows(env, rows))
                 + BodyWrites(env, Recomputed(env, b).body, Twice(env, exported)))
    ensures VerifyExportBundle(env, Exported(env, o, deployment, rows, exported), signature) <==> Clean(rows)
  {
    var b := Exported(env, o, deployment, rows, exported);
    hide Lawful, SameRows, Clean, RootsOf, SameForms, NormalizeRows, Twice, Exported, Recomputed, BodyJson, Digest,
      Binding, BodyWrites;
    if Clean(rows) {
      CleanBundleVerifies(env, o, deployment, rows, exported, signature);
    }
    if VerifyExportBundle(env, b, signature) {
      RecomputedRoots(env, o, deployment, rows, exported);
      CheckpointBinds(env, b.checkpoint.body, NormalizeRows(env, rows), Recomputed(env, b).body, Twice(env, exported));
      FormsAgainIff(env, rows, exported);
    }
  }

  // ----- a row that is not clean -----

  /** A mailbox row as a database could return it, with a null in `mailbox_id`. */
  const STRAY: Row := [Field(Snake(MailboxId), Null)]

  /** Its second normalisation loses the field that the first one kept. */
  lemma StrayRowChanges(env: Env)
    requires Lawful(env)
    ensures var once := Normalize(env, MAILBOX, STRAY);
      && Get(once, Camel(MailboxId)) == Def(Null)
      && Get(Normalize(env, MAILBOX, once), Camel(MailboxId)) == Undefined
      && Normalize(env, MAILBOX, once) != once
  {
    hide Normalize, Lawful;
    MailboxRules();
    assert MAILBOX[1] == Rule(MailboxId, Plain, true) && StrayNull(MAILBOX[1], STRAY);
    var once := Normalize(env, MAILBOX, STRAY);
    GetNormalized(env, MAILBOX, STRAY, 1);
    GetNormalized(env, MAILBOX, once, 1);
    AgainAt(env, MAILBOX, STRAY, 1);
  }

  /** And the bundle made from a checkpoint of that one row does not verify. */
  lemma {:induction false} StrayBundleFails(env: Env, o: Origin, deployment: Opt, signature: Signature)
    requires Lawful(env)
    requires var rows := Rows([STRAY], [], []);
      var b := Exported(env, o, deployment, rows, rows);
      Binding(env, BodyWrites(env, b.checkpoint.body, NormalizeRows(env, rows))
                 + BodyWrites(env, Recomputed(env, b).body, Twice(env, rows)))
    ensures var rows := Rows([STRAY], [], []);
      !VerifyExportBundle(env, Exported(env, o, deployment, rows, rows), signature)
  {
    hide Lawful, Exported, Recomputed, BodyWrites, NormalizeRows, Twice, Binding;
    var rows := Rows([STRAY], [], []);
    assert MAILBOX[1] == Rule(MailboxId, Plain, true) && StrayNull(MAILBOX[1], rows.mailboxes[0]);
    assert !Clean(rows);
    if signature != Forged {
      BundleVerifiesIff(env, o, deployment, rows, rows, signature);
    }
  }

  // ----- rows that the store loads -----

  lemma NormalizedClean(env: Env, rules: seq<Rule>, rows: seq<Row>)
    requires Lawful(env) && OneRuleEach(rules)
    ensures AllClean(rules, NormalizeAll(env, rules, rows))
  {
    hide Lawful, Normalize, NoStrayNull, OneRuleEach;
    forall i | 0 <= i < |rows| ensures NoStrayNull(rules, NormalizeAll(env, rules, rows)[i]) {
      ThirdPassChangesNothing(env, rules, rows[i]);
    }
  }

  /** The store normalises rows as it loads them: a bundle made from loaded rows always
      verifies, whatever the tables hold. */
  lemma {:induction false} LoadedBundleVerifies(env: Env, o: Origin, deployment: Opt, stored: Rows, exported: Rows,
                                                signature: Signature)
    requires Lawful(env) && SameRows(NormalizeRows(env, stored), exported) && signature != Forged
    ensures VerifyExportBundle(env, Exported(env, o, deployment, NormalizeRows(env, stored), exported), signature)
  {
    hide Lawful, SameRows, OneRuleEach, NormalizeAll, AllClean, Exported, VerifyExportBundle;
    MailboxRules();
    DispatchRules();
    ReceiptRules();
    NormalizedClean(env, MAILBOX, stored.mailboxes);
    NormalizedClean(env, DISPATCH, stored.dispatches);
    NormalizedClean(env, RECEIPT, stored.receipts);
    CleanBundleVerifies(env, o, deployment, NormalizeRows(env, stored), exported, signature);
  }

  // ----- the bootstrap statement -----

  lemma {:induction false} UnsealedAgain(env: Env, b: Bundle, d: Destination)
    requires Lawful(env)
    ensures var s := CreateBootstrapStatement(env, b, d);
      var again := Destination(Def(OrObject(Def(s.destinationDeployment))), OrNothing(s.destinationGenesisRef),
                               OrNothing(s.destinationCheckpointRef), Def(s.createdAt));
      Unsealed(env, b, again) == Unsealed(env, b, d)
  {
    Truthy(env, d.deployment);
    CleanIdAgain(env, d.genesisRef);
    CleanIdAgain(env, d.checkpointRef);
    assert OrObject(Def(SortValue(env, OrObject(d.deployment)))) == SortValue(env, OrObject(d.deployment));
    hide SortValue, CleanId, NormalizeTenantId, Falsy, OrNothing, RootOrNull, Digest, CheckpointId;
  }

  lemma TrimmedId(env: Env, id: Str)
    requires Lawful(env)
    ensures TrimString(env, Def(Text(id))) == TrimString(env, Def(CleanId(env, Def(Text(id)))))
  {
  }

  /** A statement made from a bundle is accepted with it exactly when the bundle itself
      verifies, for every destination, reference and time. */
  lemma {:induction false} CutoverContinues(env: Env, b: Bundle, bundleSignature: Signature, d: Destination,
                                            signature: Signature)
    requires Lawful(env) && signature != Forged
    ensures VerifyCutoverContinuity(env, b, bundleSignature, CreateBootstrapStatement(env, b, d), signature)
        <==> VerifyExportBundle(env, b, bundleSignature)
  {
    UnsealedAgain(env, b, d);
    TrimmedId(env, CheckpointId(b.checkpoint));
    TrimmedId(env, b.checkpoint.digest);
    TenantAgain(env, b.tenantId);
    TenantAgain(env, Def(Text(NormalizeTenantId(env, b.tenantId))));
    DigestFieldIgnored(env, Unsealed(env, b, d));
    hide VerifyExportBundle, SortValue, CleanId, TrimString, NormalizeTenantId, Digest, StatementJson, CheckpointId,
      RootOrNull,
      OrObject, OrNothing, Lawful;
  }

  lemma DigestFieldIgnored(env: Env, s: Statement)
    ensures forall d :: StatementJson(s.(digest := d)) == StatementJson(s)
  {
  }
}
