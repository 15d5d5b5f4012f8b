/** The scytale cutover: row normalisation, checkpoint digests, export bundles and the
    bootstrap statement made from one.

    JSON text, trimming, date and number conversion, the spelling of field names and
    SHA-256 are parameters of the model (`Env`). */
module ScytaleSpec {
  import opened Ordering

  /** The fields of rows, checkpoints and statements. */
  datatype Name =
    | TenantId | MailboxId | OwnerUid | Label | Address | AccountLabel | AccountScope | RouteHint | MailboxScope
    | AuditPolicy | DeliveryState | DeliveryWindow | Excerpt | CounterpartyRoute | CreatedAt | UpdatedAt
    | MessageId | DispatchId | PeerMailboxId | Direction | Status | RecipientAddress | SenderAddress
    | RequestedDeliveryWindow | Timestamp | PayloadCommitment | AuditSurface | ContentClass | PayloadFormat
    | AuditMode | Sensitivity | RecoveryMode | ContentDisposition | AttachmentCount | PrivateFieldCount | SealedPayload
    | MailboxAddress | LastDispatchId | LastPayloadCommitment | RecoveryRef | SealedContent
    | SchemaVersion | Counts | Roots | Lineage | SourceDeployment | Mailboxes | Dispatches | Receipts
    | PreviousCheckpointId | SourceCheckpointId | SourceCheckpointDigest
    | SourceBundleSchema | SourceRoots | SourceCounts | DestinationDeployment | DestinationGenesisRef
    | DestinationCheckpointRef

  /** A property name: `mailboxId`, the database spelling `mailbox_id`, or any other. */
  datatype Key = Camel(name: Name) | Snake(name: Name) | Other(text: Str)

  datatype Field = Field(key: Key, value: Json)
  datatype Json = Null | Bool(b: bool) | Num(n: int) | Text(text: Str) | Arr(items: seq<Json>) | Obj(fields: seq<Field>)

  /** A property that may be missing. */
  datatype Opt = Undefined | Def(value: Json)

  datatype Env = Env(h: Str -> Str, stringify: Json -> Str, spelling: Key -> Str, trim: Str -> Str,
                     iso: Opt -> Json, number: Json -> Json)

  /** What the library functions behind the parameters guarantee. */
  ghost predicate Lawful(env: Env) {
    && (forall s :: env.trim(env.trim(s)) == env.trim(s))
    && env.trim(DEFAULT) == DEFAULT
    && env.iso(Undefined) == Null && env.iso(Def(Null)) == Null
    && (forall v :: env.iso(Def(env.iso(v))) == env.iso(v))
    && (forall v :: env.number(v) != Null && env.number(env.number(v)) == env.number(v))
  }

  function Get(fields: seq<Field>, key: Key): Opt {
    if fields == [] then Undefined
    else if fields[0].key == key then Def(fields[0].value)
    else Get(fields[1..], key)
  }

  /** The nullish operator. */
  function OrElse(a: Opt, b: Opt): Opt {
    if a.Undefined? || a.value.Null? then b else a
  }

  // ----- canonical form -----

  function FieldLe(env: Env): (Field, Field) -> bool {
    (a: Field, b: Field) => StrLe(env.spelling(a.key), env.spelling(b.key))
  }

  function SortValue(env: Env, v: Json): Json
    decreases v
  {
    match v
    case Arr(items) => Arr(seq(|items|, i requires 0 <= i < |items| => SortValue(env, items[i])))
    case Obj(fields) =>
      Obj(Sort(FieldLe(env),
               seq(|fields|, i requires 0 <= i < |fields| => Field(fields[i].key, SortValue(env, fields[i].value)))))
    case _ => v
  }

  function Canonical(env: Env, v: Json): Str {
    env.stringify(SortValue(env, v))
  }

  function Digest(env: Env, v: Json): Str {
    env.h(Canonical(env, v))
  }

  // ----- normalisation -----

  datatype Kind = Plain | OrNull | Tenant | Iso | Sorted | Count | Kept
  /** One line of a normaliser; `both` when the database spelling is tried as well. */
  datatype Rule = Rule(name: Name, kind: Kind, both: bool)

  const DEFAULT: Str := [100, 101, 102, 97, 117, 108, 116]

  function TrimString(env: Env, v: Opt): Str {
    if v.Def? && v.value.Text? then env.trim(v.value.text) else []
  }

  function NormalizeTenantId(env: Env, v: Opt): Str {
    if TrimString(env, v) == [] then DEFAULT else TrimString(env, v)
  }

  function Lookup(rule: Rule, row: seq<Field>): Opt {
    var here := Get(row, Camel(rule.name));
    var there := if rule.both then Get(row, Snake(rule.name)) else Undefined;
    if !rule.both then here
    else if rule.kind == Kept then (if here.Undefined? then there else here)
    else OrElse(here, there)
  }

  function Normalized(env: Env, rule: Rule, row: seq<Field>): Opt {
    var v := Lookup(rule, row);
    match rule.kind
    case Plain => v
    case Kept => v
    case OrNull => OrElse(v, Def(Null))
    case Tenant => Def(Text(NormalizeTenantId(env, v)))
    case Iso => Def(env.iso(v))
    case Sorted => Def(SortValue(env, OrElse(v, Def(Obj([]))).value))
    case Count => Def(env.number(OrElse(v, Def(Num(0))).value))
  }

  /** Properties that come out undefined do not reach the JSON text and are left out. */
  function Normalize(env: Env, rules: seq<Rule>, row: seq<Field>): seq<Field> {
    if rules == [] then []
    else
      var v := Normalized(env, rules[0], row);
      (if v.Undefined? then [] else [Field(Camel(rules[0].name), v.value)]) + Normalize(env, rules[1..], row)
  }

  const MAILBOX: seq<Rule> := [
    Rule(TenantId, Tenant, true), Rule(MailboxId, Plain, true), Rule(OwnerUid, OrNull, true), Rule(Label, Plain, false),
    Rule(Address, Plain, false), Rule(AccountLabel, Plain, true), Rule(AccountScope, Plain, true),
    Rule(RouteHint, Plain, true), Rule(MailboxScope, Plain, true), Rule(AuditPolicy, Plain, true),
    Rule(DeliveryState, Plain, true), Rule(DeliveryWindow, Plain, true), Rule(Excerpt, Plain, false),
    Rule(CounterpartyRoute, Plain, true), Rule(CreatedAt, Iso, true), Rule(UpdatedAt, Iso, true)]

  const DISPATCH: seq<Rule> := [
    Rule(TenantId, Tenant, true), Rule(MessageId, Plain, true), Rule(DispatchId, Plain, true),
      Rule(MailboxId, Plain, true),
    Rule(PeerMailboxId, OrNull, true), Rule(Direction, Plain, false), Rule(Status, Plain, false),
    Rule(RecipientAddress, Plain, true), Rule(SenderAddress, Plain, true), Rule(RequestedDeliveryWindow, Plain, true),
    Rule(Timestamp, Iso, false), Rule(PayloadCommitment, Plain, true), Rule(AuditSurface, Sorted, true),
    Rule(ContentClass, Plain, true), Rule(PayloadFormat, Plain, true), Rule(AuditMode, Plain, true),
    Rule(Sensitivity, Plain, false), Rule(RecoveryMode, Plain, true), Rule(ContentDisposition, Plain, true),
    Rule(AttachmentCount, Count, true), Rule(PrivateFieldCount, Count, true), Rule(SealedPayload, Sorted, true),
    Rule(CreatedAt, Iso, true)]

  const RECEIPT: seq<Rule> := [
    Rule(TenantId, Tenant, true), Rule(MailboxId, Plain, true), Rule(MailboxAddress, Plain, true),
    Rule(MailboxScope, Plain, true), Rule(LastDispatchId, OrNull, true), Rule(LastPayloadCommitment, OrNull, true),
    Rule(RecoveryRef, Plain, true), Rule(RecoveryMode, Plain, true), Rule(SealedContent, Kept, true),
    Rule(CreatedAt, Iso, true), Rule(UpdatedAt, Iso, true)]

  // ----- checkpoints -----

  datatype Rows = Rows(mailboxes: seq<seq<Field>>, dispatches: seq<seq<Field>>, receipts: seq<seq<Field>>)

  function NormalizeAll(env: Env, rules: seq<Rule>, rows: seq<seq<Field>>): (r: seq<seq<Field>>)
    ensures |r| == |rows|
  {
    seq(|rows|, i requires 0 <= i < |rows| => Normalize(env, rules, rows[i]))
  }

  function NormalizeRows(env: Env, rows: Rows): Rows {
    Rows(NormalizeAll(env, MAILBOX, rows.mailboxes), NormalizeAll(env, DISPATCH, rows.dispatches),
         NormalizeAll(env, RECEIPT, rows.receipts))
  }

  function RowDigests(env: Env, rows: seq<seq<Field>>): (r: seq<Str>)
    ensures |r| == |rows|
  {
    seq(|rows|, i requires 0 <= i < |rows| => Digest(env, Obj(rows[i])))
  }

  function Texts(ids: seq<Str>): Json {
    Arr(seq(|ids|, i requires 0 <= i < |ids| => Text(ids[i])))
  }

  function CollectionRoot(env: Env, rows: seq<seq<Field>>): Str {
    env.h(env.stringify(Texts(Sort(StrLe, RowDigests(env, rows)))))
  }

  datatype Triple<T> = Triple(mailboxes: T, dispatches: T, receipts: T)
  datatype Ancestry = Ancestry(previousCheckpointId: Json, sourceCheckpointId: Json, sourceCheckpointDigest: Json)
  datatype Body = Body(tenantId: Str, createdAt: Json, counts: Triple<nat>, roots: Triple<Str>, lineage: Ancestry,
                       sourceDeployment: Json)
  datatype Checkpoint = Checkpoint(digest: Str, body: Body)

  const CHECKPOINT_SCHEMA: Str := [1]
  const EXPORT_SCHEMA: Str := [2]
  const BOOTSTRAP_SCHEMA: Str := [3]

  function Triplet(a: Json, b: Json, c: Json): Json {
    Obj([Field(Camel(Mailboxes), a), Field(Camel(Dispatches), b), Field(Camel(Receipts), c)])
  }

  function LineageJson(l: Ancestry): Json {
    Obj([Field(Camel(PreviousCheckpointId), l.previousCheckpointId),
         Field(Camel(SourceCheckpointId), l.sourceCheckpointId),
         Field(Camel(SourceCheckpointDigest), l.sourceCheckpointDigest)])
  }

  function BodyJson(b: Body): Json {
    Obj([Field(Camel(SchemaVersion), Text(CHECKPOINT_SCHEMA)), Field(Camel(TenantId), Text(b.tenantId)),
         Field(Camel(CreatedAt), b.createdAt),
         Field(Camel(Counts), Triplet(Num(b.counts.mailboxes), Num(b.counts.dispatches), Num(b.counts.receipts))),
         Field(Camel(Roots), Triplet(Text(b.roots.mailboxes), Text(b.roots.dispatches), Text(b.roots.receipts))),
         Field(Camel(Lineage), LineageJson(b.lineage)), Field(Camel(SourceDeployment), b.sourceDeployment)])
  }

  predicate Falsy(v: Opt) {
    v.Undefined? || v.value == Null || v.value == Bool(false) || v.value == Num(0) || v.value == Text([])
  }

  function OrObject(v: Opt): Json {
    if Falsy(v) then Obj([]) else v.value
  }

  /** `trimString(x) || null` */
  function CleanId(env: Env, v: Opt): Json {
    if TrimString(env, v) == [] then Null else Text(TrimString(env, v))
  }

  datatype Origin = Origin(tenantId: Opt, createdAt: Opt, previousCheckpointId: Opt, sourceCheckpointId: Opt,
                           sourceCheckpointDigest: Opt, sourceDeployment: Opt)

  function BodyOf(env: Env, o: Origin, rows: Rows): Body {
    var n := NormalizeRows(env, rows);
    Body(NormalizeTenantId(env, o.tenantId), env.iso(o.createdAt),
         Triple(|n.mailboxes|, |n.dispatches|, |n.receipts|),
         Triple(CollectionRoot(env, n.mailboxes), CollectionRoot(env, n.dispatches), CollectionRoot(env, n.receipts)),
         Ancestry(CleanId(env, o.previousCheckpointId), CleanId(env, o.sourceCheckpointId),
                  CleanId(env, o.sourceCheckpointDigest)),
         SortValue(env, OrObject(o.sourceDeployment)))
  }

  function CreateCheckpointPayload(env: Env, o: Origin, rows: Rows): Checkpoint {
    var body := BodyOf(env, o, rows);
    Checkpoint(Digest(env, BodyJson(body)), body)
  }

  /** `chk-` and the first sixteen characters of the digest. */
  function CheckpointId(c: Checkpoint): Str {
    [99, 104, 107, 45] + (if |c.digest| < 16 then c.digest else c.digest[..16])
  }

  // ----- bundles -----

  datatype Bundle = Bundle(schemaVersion: Str, tenantId: Opt, sourceDeployment: Json, checkpoint: Checkpoint,
                           rows: Rows)

  function CreateExportBundle(env: Env, tenantId: Opt, deployment: Opt, checkpoint: Checkpoint, rows: Rows): Bundle {
    Bundle(EXPORT_SCHEMA, Def(Text(NormalizeTenantId(env, tenantId))), SortValue(env, OrObject(deployment)), checkpoint,
           NormalizeRows(env, rows))
  }

  /** The result of checking a signature: none given, or what the library says of it. */
  datatype Signature = Unsigned | Accepted | Forged

  function OrNothing(v: Json): Opt {
    if Falsy(Def(v)) then Def(Null) else Def(v)
  }

  function Recomputed(env: Env, b: Bundle): Checkpoint {
    var was := b.checkpoint.body;
    CreateCheckpointPayload(env,
      Origin(b.tenantId, Def(was.createdAt), OrNothing(was.lineage.previousCheckpointId),
             OrNothing(was.lineage.sourceCheckpointId), OrNothing(was.lineage.sourceCheckpointDigest),
             Def(if Falsy(Def(was.sourceDeployment)) then b.sourceDeployment else was.sourceDeployment)),
      b.rows)
  }

  predicate VerifyExportBundle(env: Env, b: Bundle, signature: Signature) {
    b.schemaVersion == EXPORT_SCHEMA && Recomputed(env, b).digest == b.checkpoint.digest && signature != Forged
  }

  // ----- bootstrap statements -----

  datatype Destination = Destination(deployment: Opt, genesisRef: Opt, checkpointRef: Opt, createdAt: Opt)

  datatype Statement = Statement(
    schemaVersion: Str, digest: Str, tenantId: Str, createdAt: Json, sourceBundleSchema: Str,
    sourceCheckpointId: Json, sourceCheckpointDigest: Json, sourceRoots: Triple<Json>, sourceCounts: Triple<Json>,
    destinationDeployment: Json, destinationGenesisRef: Json, destinationCheckpointRef: Json)

  function StatementJson(s: Statement): Json {
    Obj([Field(Camel(SchemaVersion), Text(s.schemaVersion)), Field(Camel(TenantId), Text(s.tenantId)),
         Field(Camel(CreatedAt), s.createdAt), Field(Camel(SourceBundleSchema), Text(s.sourceBundleSchema)),
         Field(Camel(SourceCheckpointId), s.sourceCheckpointId),
           Field(Camel(SourceCheckpointDigest), s.sourceCheckpointDigest),
         Field(Camel(SourceRoots), Triplet(s.sourceRoots.mailboxes, s.sourceRoots.dispatches, s.sourceRoots.receipts)),
         Field(Camel(SourceCounts),
               Triplet(s.sourceCounts.mailboxes, s.sourceCounts.dispatches, s.sourceCounts.receipts)),
         Field(Camel(DestinationDeployment), s.destinationDeployment),
         Field(Camel(DestinationGenesisRef), s.destinationGenesisRef),
         Field(Camel(DestinationCheckpointRef), s.destinationCheckpointRef)])
  }

  function RootOrNull(r: Str): Json {
    if r == [] then Null else Text(r)
  }

  /** The statement with its digest still to be filled in. */
  function Unsealed(env: Env, b: Bundle, d: Destination): Statement {
    var was := b.checkpoint.body;
    Statement(
      BOOTSTRAP_SCHEMA, [], NormalizeTenantId(env, Def(Text(NormalizeTenantId(env, b.tenantId)))),
        env.iso(d.createdAt), EXPORT_SCHEMA,
      CleanId(env, Def(Text(CheckpointId(b.checkpoint)))), CleanId(env, Def(Text(b.checkpoint.digest))),
      Triple(RootOrNull(was.roots.mailboxes), RootOrNull(was.roots.dispatches), RootOrNull(was.roots.receipts)),
      Triple(env.number(Num(was.counts.mailboxes)), env.number(Num(was.counts.dispatches)),
             env.number(Num(was.counts.receipts))),
      SortValue(env, OrObject(d.deployment)), CleanId(env, d.genesisRef), CleanId(env, d.checkpointRef))
  }

  function CreateBootstrapStatement(env: Env, b: Bundle, d: Destination): Statement {
    var s := Unsealed(env, b, d);
    s.(digest := Digest(env, StatementJson(s)))
  }

  predicate VerifyCutoverContinuity(env: Env, b: Bundle, bundleSignature: Signature, s: Statement,
                                    signature: Signature) {
    && VerifyExportBundle(env, b, bundleSignature)
    && s.schemaVersion == BOOTSTRAP_SCHEMA
    && CreateBootstrapStatement(env, b,
         Destination(Def(OrObject(Def(s.destinationDeployment))), OrNothing(s.destinationGenesisRef),
                     OrNothing(s.destinationCheckpointRef), Def(s.createdAt))).digest == s.digest
    && NormalizeTenantId(env, b.tenantId) == NormalizeTenantId(env, Def(Text(s.tenantId)))
    && TrimString(env, Def(Text(CheckpointId(b.checkpoint)))) == TrimString(env, Def(s.sourceCheckpointId))
    && TrimString(env, Def(Text(b.checkpoint.digest))) == TrimString(env, Def(s.sourceCheckpointDigest))
    && signature != Forged
  }
}
