/** Canonical form and normalisation: what is stable, what is order-free, and what is lost. */
module ScytaleLaws {
  import opened Ordering
  import opened TwoList
  import opened Permutations
  import opened ScytaleSpec

  // ----- canonical form -----

  lemma FieldOrder(env: Env)
    ensures TotalPreorder(FieldLe(env))
  {
    var spell := env.spelling;
    forall x: Field, y: Field ensures FieldLe(env)(x, y) || FieldLe(env)(y, x) {
      StrLeTotal(spell(x.key), spell(y.key));
    }
    forall x: Field, y: Field, z: Field | FieldLe(env)(x, y) && FieldLe(env)(y, z) ensures FieldLe(env)(x, z) {
      StrLeTransitive(spell(x.key), spell(y.key), spell(z.key));
    }
  }

  lemma {:induction false} SortOfSorted<T(!new)>(le: (T, T) -> bool, s: seq<T>)
    requires SortedBy(le, s)
    ensures Sort(le, s) == s
  {
    if s != [] {
      SortOfSorted(le, s[1..]);
      assert |s| > 1 ==> le(s[0], s[1]);
    }
  }

  function SortedFields(env: Env, fields: seq<Field>): (r: seq<Field>)
    ensures |r| == |fields|
    ensures forall i | 0 <= i < |fields| :: r[i].key == fields[i].key
  {
    seq(|fields|, i requires 0 <= i < |fields| => Field(fields[i].key, SortValue(env, fields[i].value)))
  }

  lemma SortValueObj(env: Env, fields: seq<Field>)
    ensures SortValue(env, Obj(fields)) == Obj(Sort(FieldLe(env), SortedFields(env, fields)))
  {
    var v := Obj(fields);
    assert SortedFields(env, fields)
        == seq(|v.fields|, i requires 0 <= i < |v.fields| => Field(v.fields[i].key, SortValue(env, v.fields[i].value)));
  }

  lemma {:induction false} SortedAgain(env: Env, each: seq<Field>)
    requires forall i | 0 <= i < |each| :: SortValue(env, each[i].value) == each[i].value
    ensures var sorted := Sort(FieldLe(env), each); SortValue(env, Obj(sorted)) == Obj(sorted)
  {
    hide Sort, SortValue, FieldLe;
    var sorted := Sort(FieldLe(env), each);
    assert Sort(FieldLe(env), sorted) == sorted by {
      FieldOrder(env);
      SortSorted(FieldLe(env), each);
      SortOfSorted(FieldLe(env), sorted);
    }
    SameElements(each, sorted);
    SortValueObj(env, sorted);
    forall i | 0 <= i < |sorted| ensures SortValue(env, sorted[i].value) == sorted[i].value {
      assert sorted[i] in each;
    }
    assert SortedFields(env, sorted) == sorted;
  }

  lemma SortValueArr(env: Env, items: seq<Json>)
    ensures SortValue(env, Arr(items)) == Arr(seq(|items|, i requires 0 <= i < |items| => SortValue(env, items[i])))
  {
    var v := Arr(items);
    assert SortValue(env, v) == Arr(seq(|v.items|, i requires 0 <= i < |v.items| => SortValue(env, v.items[i])));
    assert seq(|v.items|, i requires 0 <= i < |v.items| => SortValue(env, v.items[i]))
        == seq(|items|, i requires 0 <= i < |items| => SortValue(env, items[i]));
  }

  /** Sorting a value twice is sorting it once. */
  lemma {:induction false} SortValueIdempotent(env: Env, v: Json)
    ensures SortValue(env, SortValue(env, v)) == SortValue(env, v)
    decreases v
  {
    match v
    case Arr(items) =>
      SortValueArr(env, items);
      var once := seq(|items|, i requires 0 <= i < |items| => SortValue(env, items[i]));
      SortValueArr(env, once);
      hide SortValue;
      forall i | 0 <= i < |items| ensures SortValue(env, once[i]) == once[i] {
        SortValueIdempotent(env, items[i]);
      }
      assert seq(|once|, i requires 0 <= i < |once| => SortValue(env, once[i])) == once;
    case Obj(fields) =>
      SortValueObj(env, fields);
      hide SortValue, Sort, FieldLe;
      var each := SortedFields(env, fields);
      forall i | 0 <= i < |fields| ensures SortValue(env, each[i].value) == each[i].value {
        SortValueIdempotent(env, fields[i].value);
      }
      SortedAgain(env, each);
    case _ =>
  }

  /** The property names of an object as they are spelled; in an object no two are alike. */
  function Spellings(env: Env, fields: seq<Field>): (r: seq<Str>)
    ensures |r| == |fields|
  {
    seq(|fields|, i requires 0 <= i < |fields| => env.spelling(fields[i].key))
  }

  /** Two objects with the same fields in any order have one canonical form. */
  lemma {:induction false} KeyOrderIrrelevant(env: Env, f: seq<Field>, g: seq<Field>)
    requires multiset(f) == multiset(g) && Distinct(Spellings(env, f))
    ensures SortValue(env, Obj(f)) == SortValue(env, Obj(g))
  {
    SortValueObj(env, f);
    SortValueObj(env, g);
    SortedFieldsPermute(env, f, g);
    FieldOrder(env);
    NoFieldTies(env, SortedFields(env, f), Spellings(env, f));
    SortForgetsOrder(FieldLe(env), SortedFields(env, f), SortedFields(env, g));
    hide *;
  }

  lemma SortedFieldsPermute(env: Env, f: seq<Field>, g: seq<Field>)
    requires multiset(f) == multiset(g)
    ensures multiset(SortedFields(env, f)) == multiset(SortedFields(env, g))
  {
    hide SortValue;
    var one := (x: Field) => Field(x.key, SortValue(env, x.value));
    MapPermutes(one, f, g);
    assert SortedFields(env, f) == Mapped(one, f) && SortedFields(env, g) == Mapped(one, g);
  }

  lemma NoFieldTies(env: Env, fields: seq<Field>, spelled: seq<Str>)
    requires Distinct(spelled) && |spelled| == |fields|
    requires forall i | 0 <= i < |fields| :: env.spelling(fields[i].key) == spelled[i]
    ensures NoTies(FieldLe(env), fields)
  {
    forall x, y | x in fields && y in fields && FieldLe(env)(x, y) && FieldLe(env)(y, x) ensures x == y {
      StrLeAntisymmetric(env.spelling(x.key), env.spelling(y.key));
      var i :| 0 <= i < |fields| && fields[i] == x;
      var j :| 0 <= j < |fields| && fields[j] == y;
      assert spelled[i] == spelled[j];
    }
  }

  // ----- normalisation -----

  ghost predicate OneRuleEach(rules: seq<Rule>) {
    forall i, j | 0 <= i < j < |rules| :: rules[i].name != rules[j].name
  }

  function MailboxPosition(n: Name): int {
    match n
    case TenantId => 0
    case MailboxId => 1
    case OwnerUid => 2
    case Label => 3
    case Address => 4
    case AccountLabel => 5
    case AccountScope => 6
    case RouteHint => 7
    case MailboxScope => 8
    case AuditPolicy => 9
    case DeliveryState => 10
    case DeliveryWindow => 11
    case Excerpt => 12
    case CounterpartyRoute => 13
    case CreatedAt => 14
    case UpdatedAt => 15
    case _ => -1
  }

  function DispatchPosition(n: Name): int {
    match n
    case TenantId => 0
    case MessageId => 1
    case DispatchId => 2
    case MailboxId => 3
    case PeerMailboxId => 4
    case Direction => 5
    case Status => 6
    case RecipientAddress => 7
    case SenderAddress => 8
    case RequestedDeliveryWindow => 9
    case Timestamp => 10
    case PayloadCommitment => 11
    case AuditSurface => 12
    case ContentClass => 13
    case PayloadFormat => 14
    case AuditMode => 15
    case Sensitivity => 16
    case RecoveryMode => 17
    case ContentDisposition => 18
    case AttachmentCount => 19
    case PrivateFieldCount => 20
    case SealedPayload => 21
    case CreatedAt => 22
    case _ => -1
  }

  function ReceiptPosition(n: Name): int {
    match n
    case TenantId => 0
    case MailboxId => 1
    case MailboxAddress => 2
    case MailboxScope => 3
    case LastDispatchId => 4
    case LastPayloadCommitment => 5
    case RecoveryRef => 6
    case RecoveryMode => 7
    case SealedContent => 8
    case CreatedAt => 9
    case UpdatedAt => 10
    case _ => -1
  }

  lemma MailboxRules()
    ensures OneRuleEach(MAILBOX)
  {
    assert forall i | 0 <= i < |MAILBOX| :: MailboxPosition(MAILBOX[i].name) == i;
  }

  lemma {:induction false} DispatchRules()
    ensures OneRuleEach(DISPATCH)
  {
    assert forall i | 0 <= i < |DISPATCH| :: DispatchPosition(DISPATCH[i].name) == i;
  }

  lemma ReceiptRules()
    ensures OneRuleEach(RECEIPT)
  {
    assert forall i | 0 <= i < |RECEIPT| :: ReceiptPosition(RECEIPT[i].name) == i;
  }

  lemma {:induction false} NormalizeFirst(env: Env, rules: seq<Rule>, row: seq<Field>)
    requires rules != []
    ensures var v, rest := Normalized(env, rules[0], row), Normalize(env, rules[1..], row);
      forall key :: Get(Normalize(env, rules, row), key)
                 == if v.Def? && key == Camel(rules[0].name) then v else Get(rest, key)
  {
    var v, rest := Normalized(env, rules[0], row), Normalize(env, rules[1..], row);
    hide Normalized, Get;
    forall key ensures Get(Normalize(env, rules, row), key)
      == if v.Def? && key == Camel(rules[0].name) then v else Get(rest, key)
    {
      if v.Def? {
        GetCons(Field(Camel(rules[0].name), v.value), rest, key);
      } else {
        assert [] + rest == rest;
      }
    }
  }

  lemma GetCons(f: Field, rest: seq<Field>, key: ScytaleSpec.Key)
    ensures Get([f] + rest, key) == if f.key == key then Def(f.value) else Get(rest, key)
  {
    assert ([f] + rest)[1..] == rest;
  }

  lemma {:induction false} GetNormalized(env: Env, rules: seq<Rule>, row: seq<Field>, i: nat)
    requires OneRuleEach(rules) && i < |rules|
    ensures Get(Normalize(env, rules, row), Camel(rules[i].name)) == Normalized(env, rules[i], row)
  {
    NormalizeFirst(env, rules, row);
    if i > 0 {
      assert rules[0].name != rules[i].name;
      GetNormalized(env, rules[1..], row, i - 1);
    } else if Normalized(env, rules[0], row).Undefined? {
      GetMissing(env, rules[1..], row, Camel(rules[0].name));
    }
  }

  lemma {:induction false} GetMissing(env: Env, rules: seq<Rule>, row: seq<Field>, key: ScytaleSpec.Key)
    requires forall i | 0 <= i < |rules| :: key != Camel(rules[i].name)
    ensures Get(Normalize(env, rules, row), key) == Undefined
  {
    if rules != [] {
      NormalizeFirst(env, rules, row);
      GetMissing(env, rules[1..], row, key);
    }
  }

  /** A plain field of a row that is null under its database spelling, and null or missing
      under the other. */
  predicate StrayNull(rule: Rule, row: seq<Field>) {
    && rule.kind == Plain && rule.both
    && (Get(row, Camel(rule.name)) == Undefined || Get(row, Camel(rule.name)) == Def(Null))
    && Get(row, Snake(rule.name)) == Def(Null)
  }

  ghost predicate NoStrayNull(rules: seq<Rule>, row: seq<Field>) {
    forall i | 0 <= i < |rules| :: !StrayNull(rules[i], row)
  }

  /** Normalising one field again changes it exactly when it was a stray null: the null
      that the first pass kept under the other spelling is dropped by the second. */
  lemma FieldAgain(env: Env, rule: Rule, row: seq<Field>, once: seq<Field>)
    requires Lawful(env)
    requires Get(once, Camel(rule.name)) == Normalized(env, rule, row) && Get(once, Snake(rule.name)) == Undefined
    ensures Normalized(env, rule, once) == if StrayNull(rule, row) then Undefined else Normalized(env, rule, row)
    ensures StrayNull(rule, row) ==> Normalized(env, rule, row) == Def(Null)
    ensures !StrayNull(rule, once)
  {
    var v := Lookup(rule, row);
    match rule.kind
    case Sorted => SortValueIdempotent(env, OrElse(v, Def(Obj([]))).value);
    case Tenant => assert Normalized(env, rule, row) == Def(Text(NormalizeTenantId(env, v)));
    case Iso => assert Normalized(env, rule, row) == Def(env.iso(v));
    case _ =>
  }


  lemma {:induction false} NormalizeAlike(env: Env, rules: seq<Rule>, a: seq<Field>, b: seq<Field>)
    requires forall i | 0 <= i < |rules| :: Normalized(env, rules[i], a) == Normalized(env, rules[i], b)
    ensures Normalize(env, rules, a) == Normalize(env, rules, b)
  {
    if rules != [] {
      assert Normalized(env, rules[0], a) == Normalized(env, rules[0], b);
      NormalizeAlike(env, rules[1..], a, b);
    }
  }

  /** Dropping fields makes a row shorter. */
  lemma {:induction false} NormalizeShorter(env: Env, rules: seq<Rule>, a: seq<Field>, b: seq<Field>)
    requires forall i | 0 <= i < |rules| ::
               Normalized(env, rules[i], b) == Normalized(env, rules[i], a) || Normalized(env, rules[i], b) == Undefined
    ensures |Normalize(env, rules, b)| <= |Normalize(env, rules, a)|
    ensures (exists i :: 0 <= i < |rules| && Normalized(env, rules[i], b) != Normalized(env, rules[i], a))
              ==> |Normalize(env, rules, b)| < |Normalize(env, rules, a)|
  {
    if rules != [] {
      NormalizeShorter(env, rules[1..], a, b);
      if i :| 0 <= i < |rules| && Normalized(env, rules[i], b) != Normalized(env, rules[i], a) {
        if i > 0 {
          assert rules[1..][i - 1] == rules[i];
        }
      }
    }
  }

  lemma AgainAt(env: Env, rules: seq<Rule>, row: seq<Field>, i: nat)
    requires Lawful(env) && OneRuleEach(rules) && i < |rules|
    ensures var once := Normalize(env, rules, row);
      && Normalized(env, rules[i], once) == (if StrayNull(rules[i], row) then Undefined
        else Normalized(env, rules[i], row))
      && (StrayNull(rules[i], row) ==> Normalized(env, rules[i], row) == Def(Null))
      && !StrayNull(rules[i], once)
  {
    GetNormalized(env, rules, row, i);
    GetMissing(env, rules, row, Snake(rules[i].name));
    FieldAgain(env, rules[i], row, Normalize(env, rules, row));
  }

  /** Normalising a row twice is normalising it once exactly when the row has no stray
      null, and otherwise loses fields. */
  lemma NormalizeTwiceIff(env: Env, rules: seq<Rule>, row: seq<Field>)
    requires Lawful(env) && OneRuleEach(rules)
    ensures var once := Normalize(env, rules, row);
      && (Normalize(env, rules, once) == once <==> NoStrayNull(rules, row))
      && (|Normalize(env, rules, once)| < |once| <==> !NoStrayNull(rules, row))
      && |Normalize(env, rules, once)| <= |once|
  {
    var once := Normalize(env, rules, row);
    forall i | 0 <= i < |rules|
      ensures Normalized(env, rules[i], once) == (if StrayNull(rules[i], row) then Undefined
          else Normalized(env, rules[i], row))
      ensures StrayNull(rules[i], row) ==> Normalized(env, rules[i], row) == Def(Null)
    {
      AgainAt(env, rules, row, i);
    }
    NormalizeShorter(env, rules, row, once);
    if NoStrayNull(rules, row) {
      NormalizeAlike(env, rules, once, row);
    } else {
      var i :| 0 <= i < |rules| && StrayNull(rules[i], row);
      assert Normalized(env, rules[i], once) != Normalized(env, rules[i], row);
    }
  }

  /** From the second pass on every row is stable, whatever it held. */
  lemma ThirdPassChangesNothing(env: Env, rules: seq<Rule>, row: seq<Field>)
    requires Lawful(env) && OneRuleEach(rules)
    ensures var once := Normalize(env, rules, row);
      && NoStrayNull(rules, once)
      && Normalize(env, rules, Normalize(env, rules, once)) == Normalize(env, rules, once)
  {
    var once := Normalize(env, rules, row);
    forall i | 0 <= i < |rules| ensures !StrayNull(rules[i], once) {
      AgainAt(env, rules, row, i);
    }
    NormalizeTwiceIff(env, rules, once);
  }
}
