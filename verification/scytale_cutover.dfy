/** What a checkpoint digest determines, when an export bundle verifies, and that a
    bootstrap statement made from a verifying bundle is accepted. */
module ScytaleCutover {
  import opened Ordering
  import opened Permutations
  import opened ScytaleSpec
  import opened ScytaleLaws

  type Row = seq<Field>

  /** The canonical forms that are written out and hashed. */
  function Forms(env: Env, rows: seq<Row>): (r: seq<Json>)
    ensures |r| == |rows|
  {
    seq(|rows|, i requires 0 <= i < |rows| => SortValue(env, Obj(rows[i])))
  }

  function Hashed(env: Env): Json -> Str {
    (v: Json) => env.h(env.stringify(v))
  }

  /** No two of these values share a digest. */
  ghost predicate Binding(env: Env, written: set<Json>) {
    forall x, y | x in written && y in written && Hashed(env)(x) == Hashed(env)(y) :: x == y
  }

  ghost function RootWrites(env: Env, rows: seq<Row>): set<Json> {
    (set f | f in Forms(env, rows)) + {Texts(Sort(StrLe, RowDigests(env, rows)))}
  }

  // ----- collection roots -----

  lemma RowDigestsOfForms(env: Env, rows: seq<Row>)
    ensures RowDigests(env, rows) == Mapped(Hashed(env), Forms(env, rows))
  {
    hide SortValue;
  }

  lemma TextsInjective(a: seq<Str>, b: seq<Str>)
    requires Texts(a) == Texts(b)
    ensures a == b
  {
    var ta, tb := Texts(a).items, Texts(b).items;
    assert |ta| == |a| && |tb| == |b|;
    forall i | 0 <= i < |a| ensures a[i] == b[i] {
      assert ta[i] == Text(a[i]) && tb[i] == Text(b[i]);
    }
  }

  /** A root depends on the rows only as a multiset of canonical forms, and determines it. */
  lemma {:induction false} RootBinds(env: Env, a: seq<Row>, b: seq<Row>)
    requires Binding(env, RootWrites(env, a) + RootWrites(env, b))
    ensures CollectionRoot(env, a) == CollectionRoot(env, b) <==> multiset(Forms(env, a)) == multiset(Forms(env, b))
  {
    if multiset(Forms(env, a)) == multiset(Forms(env, b)) {
      RootForgetsOrder(env, a, b);
    }
    if CollectionRoot(env, a) == CollectionRoot(env, b) {
      RootDetermines(env, a, b);
    }
  }

  lemma {:induction false} RootForgetsOrder(env: Env, a: seq<Row>, b: seq<Row>)
    requires multiset(Forms(env, a)) == multiset(Forms(env, b))
    ensures CollectionRoot(env, a) == CollectionRoot(env, b)
  {
    hide Forms, RowDigests, Sort, StrLe;
    RowDigestsOfForms(env, a);
    RowDigestsOfForms(env, b);
    MapPermutes(Hashed(env), Forms(env, a), Forms(env, b));
    StrOrder(RowDigests(env, a));
    SortForgetsOrder(StrLe, RowDigests(env, a), RowDigests(env, b));
  }

  lemma {:induction false} RootDetermines(env: Env, a: seq<Row>, b: seq<Row>)
    requires Binding(env, RootWrites(env, a) + RootWrites(env, b))
    requires CollectionRoot(env, a) == CollectionRoot(env, b)
    ensures multiset(Forms(env, a)) == multiset(Forms(env, b))
  {
    hide Forms, RowDigests, Sort, StrLe;
    var sa, sb := Sort(StrLe, RowDigests(env, a)), Sort(StrLe, RowDigests(env, b));
    assert Texts(sa) in RootWrites(env, a) && Texts(sb) in RootWrites(env, b);
    assert Hashed(env)(Texts(sa)) == Hashed(env)(Texts(sb));
    TextsInjective(sa, sb);
    RowDigestsOfForms(env, a);
    RowDigestsOfForms(env, b);
    assert forall f | f in Forms(env, a) || f in Forms(env, b) :: f in RootWrites(env, a) + RootWrites(env, b);
    MapReflects(Hashed(env), Forms(env, a), Forms(env, b));
  }

  // ----- checkpoint digests -----

  ghost function BodyWrites(env: Env, b: Body, n: Rows): set<Json> {
    {SortValue(env, BodyJson(b))} + RootWrites(env, n.mailboxes) + RootWrites(env, n.dispatches) + RootWrites(env,
      n.receipts)
  }

  /** Objects with the same property names and one canonical form agree on every property. */
  lemma {:induction false} FieldsAgree(env: Env, f: seq<Field>, g: seq<Field>, i: nat)
    requires SortValue(env, Obj(f)) == SortValue(env, Obj(g)) && |f| == |g| && i < |f|
    requires f[i].key == g[i].key && forall j | 0 <= j < |g| && j != i :: g[j].key != g[i].key
    ensures SortValue(env, f[i].value) == SortValue(env, g[i].value)
  {
    SortValueObj(env, f);
    SortValueObj(env, g);
    hide SortValue, Sort, FieldLe;
    var mf, mg := SortedFields(env, f), SortedFields(env, g);
    assert multiset(mf) == multiset(mg);
    SameElements(mf, mg);
    assert mf[i] in mg;
    var j :| 0 <= j < |mg| && mg[j] == mf[i];
    assert j == i;
  }

  lemma {:induction false} TripletAgrees(env: Env, a: Triple<Json>, b: Triple<Json>)
    requires SortValue(env, Triplet(a.mailboxes, a.dispatches, a.receipts)) == SortValue(env,
        Triplet(b.mailboxes, b.dispatches, b.receipts))
    ensures SortValue(env, a.mailboxes) == SortValue(env, b.mailboxes)
    ensures SortValue(env, a.dispatches) == SortValue(env, b.dispatches)
    ensures SortValue(env, a.receipts) == SortValue(env, b.receipts)
  {
    hide SortValue;
    var f, g := Triplet(a.mailboxes, a.dispatches, a.receipts).fields,
      Triplet(b.mailboxes, b.dispatches, b.receipts).fields;
    FieldsAgree(env, f, g, 0);
    FieldsAgree(env, f, g, 1);
    FieldsAgree(env, f, g, 2);
  }

  lemma {:induction false} RootsRead(env: Env, a: Triple<Str>, b: Triple<Str>)
    requires SortValue(env, Triplet(Text(a.mailboxes), Text(a.dispatches), Text(a.receipts)))
          == SortValue(env, Triplet(Text(b.mailboxes), Text(b.dispatches), Text(b.receipts)))
    ensures a == b
  {
    TripletAgrees(env, Triple(Text(a.mailboxes), Text(a.dispatches), Text(a.receipts)),
                  Triple(Text(b.mailboxes), Text(b.dispatches), Text(b.receipts)));
  }

  lemma {:induction false} CountsRead(env: Env, a: Triple<nat>, b: Triple<nat>)
    requires SortValue(env, Triplet(Num(a.mailboxes), Num(a.dispatches), Num(a.receipts)))
          == SortValue(env, Triplet(Num(b.mailboxes), Num(b.dispatches), Num(b.receipts)))
    ensures a == b
  {
    TripletAgrees(env, Triple(Num(a.mailboxes), Num(a.dispatches), Num(a.receipts)),
                  Triple(Num(b.mailboxes), Num(b.dispatches), Num(b.receipts)));
  }

  function BodyPosition(key: ScytaleSpec.Key): int {
    match key
    case Camel(SchemaVersion) => 0
    case Camel(TenantId) => 1
    case Camel(CreatedAt) => 2
    case Camel(Counts) => 3
    case Camel(Roots) => 4
    case Camel(Lineage) => 5
    case Camel(SourceDeployment) => 6
    case _ => -1
  }

  lemma BodyKeys(b: Body)
    ensures |BodyJson(b).fields| == 7 && forall i | 0 <= i < 7 :: BodyPosition(BodyJson(b).fields[i].key) == i
    ensures forall i, c | 0 <= i < 7 :: BodyJson(b).fields[i].key == BodyJson(c).fields[i].key
  {
    hide Triplet, LineageJson;
  }

  lemma {:induction false} BodyFieldAgrees(env: Env, a: Body, b: Body, i: nat)
    requires SortValue(env, BodyJson(a)) == SortValue(env, BodyJson(b)) && i < 7
    ensures |BodyJson(a).fields| == |BodyJson(b).fields| == 7
    ensures SortValue(env, BodyJson(a).fields[i].value) == SortValue(env, BodyJson(b).fields[i].value)
  {
    BodyKeys(a);
    BodyKeys(b);
    assert BodyJson(a) == Obj(BodyJson(a).fields) && BodyJson(b) == Obj(BodyJson(b).fields);
    hide SortValue, BodyJson, BodyPosition;
    FieldsAgree(env, BodyJson(a).fields, BodyJson(b).fields, i);
  }

  /** The canonical body determines tenant, counts and roots. */
  lemma {:induction false} BodyRead(env: Env, a: Body, b: Body)
    requires SortValue(env, BodyJson(a)) == SortValue(env, BodyJson(b))
    ensures a.tenantId == b.tenantId && a.counts == b.counts && a.roots == b.roots
    ensures SortValue(env, a.createdAt) == SortValue(env, b.createdAt)
    ensures SortValue(env, a.sourceDeployment) == SortValue(env, b.sourceDeployment)
  {
    assert SortValue(env, Text(a.tenantId)) == Text(a.tenantId) && SortValue(env, Text(b.tenantId)) == Text(b.tenantId);
    hide SortValue, Triplet, LineageJson;
    BodyFieldAgrees(env, a, b, 1);
    BodyFieldAgrees(env, a, b, 2);
    BodyFieldAgrees(env, a, b, 3);
    BodyFieldAgrees(env, a, b, 4);
    BodyFieldAgrees(env, a, b, 6);
    CountsRead(env, a.counts, b.counts);
    RootsRead(env, a.roots, b.roots);
  }

  ghost predicate SameForms(env: Env, m: Rows, n: Rows) {
    && multiset(Forms(env, m.mailboxes)) == multiset(Forms(env, n.mailboxes))
    && multiset(Forms(env, m.dispatches)) == multiset(Forms(env, n.dispatches))
    && multiset(Forms(env, m.receipts)) == multiset(Forms(env, n.receipts))
  }

  ghost predicate RootsOf(env: Env, roots: Triple<Str>, n: Rows) {
    roots == Triple(CollectionRoot(env, n.mailboxes), CollectionRoot(env, n.dispatches),
                    CollectionRoot(env, n.receipts))
  }

  /** A matching digest forces the same tenant, the same counts and the same rows, up to
      the order of rows and of property names. */
  lemma {:induction false} CheckpointBinds(env: Env, a: Body, m: Rows, b: Body, n: Rows)
    requires RootsOf(env, a.roots, m) && RootsOf(env, b.roots, n)
    requires Binding(env, BodyWrites(env, a, m) + BodyWrites(env, b, n))
    requires Digest(env, BodyJson(a)) == Digest(env, BodyJson(b))
    ensures a.tenantId == b.tenantId && a.counts == b.counts && SameForms(env, m, n)
  {
    hide SortValue, RootWrites, BodyJson, CollectionRoot;
    var x, y := SortValue(env, BodyJson(a)), SortValue(env, BodyJson(b));
    assert Hashed(env)(x) == Hashed(env)(y) && x in BodyWrites(env, a, m) && y in BodyWrites(env, b, n);
    BodyRead(env, a, b);
    RootBinds(env, m.mailboxes, n.mailboxes);
    RootBinds(env, m.dispatches, n.dispatches);
    RootBinds(env, m.receipts, n.receipts);
  }

  // ----- sizes -----

  function Total(sizes: seq<int>): int {
    if sizes == [] then 0 else sizes[0] + Total(sizes[1..])
  }

  lemma {:induction false} TotalWithout(s: seq<int>, k: nat)
    requires k < |s|
    ensures Total(s) == s[k] + Total(s[..k] + s[k + 1..])
  {
    var rest := s[..k] + s[k + 1..];
    if k == 0 {
      assert rest == s[1..];
    } else {
      TotalWithout(s[1..], k - 1);
      assert rest[1..] == s[1..][..k - 1] + s[1..][k..];
    }
  }

  lemma {:induction false} TotalPermutes(a: seq<int>, b: seq<int>)
    requires multiset(a) == multiset(b)
    ensures Total(a) == Total(b)
    decreases |a|
  {
    assert |multiset(a)| == |a| && |multiset(b)| == |b|;
    if a != [] {
      assert a[0] in multiset(b);
      var k :| 0 <= k < |b| && b[k] == a[0];
      TakeOutBoth(a, b, k);
      TotalPermutes(a[1..], b[..k] + b[k + 1..]);
      TotalWithout(b, k);
    }
  }

  lemma {:induction false} TotalAtMost(a: seq<int>, b: seq<int>, k: nat)
    requires |a| == |b| && k < |a| && a[k] < b[k] && forall i | 0 <= i < |a| :: a[i] <= b[i]
    ensures Total(a) < Total(b)
  {
    if k > 0 {
      TotalAtMost(a[1..], b[1..], k - 1);
    } else {
      TotalLe(a[1..], b[1..]);
    }
  }

  lemma {:induction false} TotalLe(a: seq<int>, b: seq<int>)
    requires |a| == |b| && forall i | 0 <= i < |a| :: a[i] <= b[i]
    ensures Total(a) <= Total(b)
  {
    if a != [] {
      TotalLe(a[1..], b[1..]);
    }
  }

  function Size(v: Json): int {
    if v.Obj? then |v.fields| else 0
  }

  ghost function Sizes(env: Env, rows: seq<Row>): (r: seq<int>)
    ensures |r| == |rows|
  {
    Mapped(Size, Forms(env, rows))
  }

  lemma SizesAre(env: Env, rows: seq<Row>)
    ensures forall i | 0 <= i < |rows| :: Sizes(env, rows)[i] == |rows[i]|
  {
    hide SortValue;
    forall i | 0 <= i < |rows| ensures Sizes(env, rows)[i] == |rows[i]| {
      FormSize(env, rows[i]);
    }
  }

  lemma FormSize(env: Env, row: Row)
    ensures Size(SortValue(env, Obj(row))) == |row|
  {
    SortValueObj(env, row);
    hide SortValue;
  }

  // ----- normalising collections again -----

  ghost predicate AllClean(rules: seq<Rule>, rows: seq<Row>) {
    forall i | 0 <= i < |rows| :: NoStrayNull(rules, rows[i])
  }

  lemma NormalizedPermute(env: Env, rules: seq<Rule>, a: seq<Row>, b: seq<Row>)
    requires multiset(a) == multiset(b)
    ensures multiset(Forms(env, NormalizeAll(env, rules, a))) == multiset(Forms(env, NormalizeAll(env, rules, b)))
  {
    hide SortValue, Normalize;
    var form := (row: Row) => SortValue(env, Obj(Normalize(env, rules, row)));
    MapPermutes(form, a, b);
    assert Forms(env, NormalizeAll(env, rules, a)) == Mapped(form, a);
    assert Forms(env, NormalizeAll(env, rules, b)) == Mapped(form, b);
  }

  /** A collection normalised once and, in another order, twice has the same canonical
      forms exactly when no row has a stray null. */
  lemma {:induction false} AgainIff(env: Env, rules: seq<Rule>, rows: seq<Row>, exported: seq<Row>)
    requires Lawful(env) && OneRuleEach(rules) && multiset(rows) == multiset(exported)
    ensures var once, twice := NormalizeAll(env, rules, rows),
        NormalizeAll(env, rules, NormalizeAll(env, rules, exported));
      multiset(Forms(env, once)) == multiset(Forms(env, twice)) <==> AllClean(rules, rows)
  {
    var once, sent := NormalizeAll(env, rules, rows), NormalizeAll(env, rules, exported);
    var twice := NormalizeAll(env, rules, sent);
    NormalizedPermute(env, rules, rows, exported);
    CleanPermutes(rules, rows, exported);
    hide *;
    if AllClean(rules, exported) {
      AgainClean(env, rules, exported);
    } else {
      AgainStray(env, rules, exported);
    }
  }

  lemma AgainClean(env: Env, rules: seq<Rule>, rows: seq<Row>)
    requires Lawful(env) && OneRuleEach(rules) && AllClean(rules, rows)
    ensures NormalizeAll(env, rules, NormalizeAll(env, rules, rows)) == NormalizeAll(env, rules, rows)
  {
    hide Normalize, NoStrayNull, Lawful, OneRuleEach;
    var sent := NormalizeAll(env, rules, rows);
    forall i | 0 <= i < |rows| ensures Normalize(env, rules, sent[i]) == sent[i] {
      NormalizeTwiceIff(env, rules, rows[i]);
    }
  }

  lemma AgainStray(env: Env, rules: seq<Rule>, rows: seq<Row>)
    requires Lawful(env) && OneRuleEach(rules) && !AllClean(rules, rows)
    ensures var sent := NormalizeAll(env, rules, rows);
      multiset(Forms(env, NormalizeAll(env, rules, sent))) != multiset(Forms(env, sent))
  {
    hide Normalize, NoStrayNull, Lawful, OneRuleEach, Forms, Sizes;
    var sent := NormalizeAll(env, rules, rows);
    var twice := NormalizeAll(env, rules, sent);
    var k :| 0 <= k < |rows| && !NoStrayNull(rules, rows[k]);
    forall i | 0 <= i < |rows| ensures |twice[i]| <= |sent[i]| && (i == k ==> |twice[i]| < |sent[i]|) {
      NormalizeTwiceIff(env, rules, rows[i]);
    }
    SizesAre(env, sent);
    SizesAre(env, twice);
    TotalAtMost(Sizes(env, twice), Sizes(env, sent), k);
    SizesPermute(env, twice, sent);
  }

  lemma {:induction false} SizesPermute(env: Env, a: seq<Row>, b: seq<Row>)
    ensures multiset(Forms(env, a)) == multiset(Forms(env, b)) ==> Total(Sizes(env, a)) == Total(Sizes(env, b))
  {
    if multiset(Forms(env, a)) == multiset(Forms(env, b)) {
      MapPermutes(Size, Forms(env, a), Forms(env, b));
      TotalPermutes(Sizes(env, a), Sizes(env, b));
    }
  }

  lemma CleanPermutes(rules: seq<Rule>, a: seq<Row>, b: seq<Row>)
    requires multiset(a) == multiset(b)
    ensures AllClean(rules, a) <==> AllClean(rules, b)
  {
    SameElements(a, b);
    hide NoStrayNull;
    if AllClean(rules, a) {
      forall i | 0 <= i < |b| ensures NoStrayNull(rules, b[i]) {
        assert b[i] in a;
      }
    }
    if AllClean(rules, b) {
      forall i | 0 <= i < |a| ensures NoStrayNull(rules, a[i]) {
        assert a[i] in b;
      }
    }
  }
}
