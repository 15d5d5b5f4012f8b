/** Commit and reload of the tables of a state machine in one ordered key-value store.

    Every table lives under its own namespace (`asset:`, `custody_lot:`, ...), a commit
    only ever sets keys, and a reload scans each namespace and keys every record by the
    identifier inside the record. */
module Store {
  import opened Ordering
  import opened Keys

  type Table<V> = map<Str, V>

  /** What one commit writes: the tables by namespace, and single entries such as
      `height`, `app_hash` and `custody_policy_current`. */
  datatype Image<V> = Image(tables: map<Str, Table<V>>, single: map<Str, V>)

  ghost predicate Committable<V>(m: Image<V>) {
    (forall ns | ns in m.tables :: ColonFree(ns)) && (forall k | k in m.single :: ColonFree(k))
  }

  function Rows<V>(ns: Str, t: Table<V>): map<Str, V> {
    map k | k in RowKeys(ns, t.Keys) :: RowValue(ns, t, k)
  }

  function RowKeys(ns: Str, ids: set<Str>): set<Str> {
    set id | id in ids :: Key(ns, id)
  }

  function RowValue<V>(ns: Str, t: Table<V>, k: Str): V
    requires k in RowKeys(ns, t.Keys)
  {
    t[k[|ns| + 1..]]
  }

  lemma RowAt<V>(ns: Str, t: Table<V>, id: Str)
    ensures Key(ns, id) in Rows(ns, t) <==> id in t
    ensures id in t ==> Rows(ns, t)[Key(ns, id)] == t[id]
  {
    assert Key(ns, id)[|ns| + 1..] == id;
    forall x | x in t && Key(ns, x) == Key(ns, id) ensures x == id {
      assert Key(ns, x)[|ns| + 1..] == x;
    }
  }

  /** The store after one commit. */
  ghost function Committed<V>(db: map<Str, V>, m: Image<V>): map<Str, V>
    requires Committable(m)
  {
    db + AllRows(m.tables) + m.single
  }

  ghost function AllRows<V>(tables: map<Str, Table<V>>): map<Str, V>
    requires forall ns | ns in tables :: ColonFree(ns)
  {
    if tables == map[] then map[]
    else
      var ns :| ns in tables;
      AllRows(tables - {ns}) + Rows(ns, tables[ns])
  }

  ghost function CommittedAll<V>(history: seq<Image<V>>): map<Str, V>
    requires forall m | m in history :: Committable(m)
  {
    if history == [] then map[]
    else Committed(CommittedAll(history[..|history| - 1]), history[|history| - 1])
  }

  predicate InNamespace(k: Str, ns: Str) {
    HasPrefix(k, ns + [COLON])
  }

  /** What a scan of one namespace finds, by the part of the key after the prefix. */
  function Scanned<V>(db: map<Str, V>, ns: Str): Table<V> {
    assert forall k | InNamespace(k, ns) :: k == Key(ns, k[|ns| + 1..]);
    map k | k in db && InNamespace(k, ns) :: k[|ns| + 1..] := db[k]
  }

  lemma NamespacesDisjoint(ns: Str, id: Str, ns': Str)
    requires ColonFree(ns) && ColonFree(ns')
    ensures InNamespace(Key(ns, id), ns') <==> ns == ns'
  {
    var k := Key(ns, id);
    if InNamespace(k, ns') {
      KeyInjective(ns, id, ns', k[|ns'| + 1..]);
    }
  }

  lemma {:induction false} RowOf<V>(tables: map<Str, Table<V>>, ns: Str, id: Str)
    requires forall n | n in tables :: ColonFree(n)
    requires ColonFree(ns)
    ensures Key(ns, id) in AllRows(tables) <==> ns in tables && id in tables[ns]
    ensures ns in tables && id in tables[ns] ==> AllRows(tables)[Key(ns, id)] == tables[ns][id]
    decreases |tables|
  {
    if tables != map[] {
      var n :| n in tables && AllRows(tables) == AllRows(tables - {n}) + Rows(n, tables[n]);
      RowOf(tables - {n}, ns, id);
      if n == ns {
        RowAt(ns, tables[ns], id);
      } else if Key(ns, id) in Rows(n, tables[n]) {
        RowScope(n, tables[n], Key(ns, id));
        NamespacesDisjoint(ns, id, n);
      }
    }
  }

  lemma RowScope<V>(n: Str, t: Table<V>, k: Str)
    requires k in Rows(n, t)
    ensures InNamespace(k, n)
  {
  }

  lemma {:induction false} AllRowsShape<V>(tables: map<Str, Table<V>>, k: Str)
    requires forall n | n in tables :: ColonFree(n)
    requires k in AllRows(tables)
    ensures exists ns, id :: ns in tables && id in tables[ns] && k == Key(ns, id)
    decreases |tables|
  {
    var n :| n in tables && AllRows(tables) == AllRows(tables - {n}) + Rows(n, tables[n]);
    if k in Rows(n, tables[n]) {
      var id :| id in tables[n].Keys && k == Key(n, id);
    } else {
      AllRowsShape(tables - {n}, k);
    }
  }

  /** The order in which the tables are written does not matter. */
  lemma AllRowsGrow<V>(tables: map<Str, Table<V>>, ns: Str, t: Table<V>)
    requires forall n | n in tables :: ColonFree(n)
    requires ColonFree(ns) && ns !in tables
    ensures AllRows(tables[ns := t]) == AllRows(tables) + Rows(ns, t)
  {
    hide AllRows, Rows, ColonFree, Key, InNamespace;
    var more := tables[ns := t];
    var sum := AllRows(tables) + Rows(ns, t);
    forall k | k in AllRows(more) || k in sum
      ensures k in AllRows(more) && k in sum && AllRows(more)[k] == sum[k]
    {
      var n, id := RowOwner(tables, ns, t, k);
      RowOf(more, n, id);
      RowOf(tables, n, id);
      RowAt(ns, t, id);
      if n != ns && k in Rows(ns, t) {
        RowScope(ns, t, k);
        NamespacesDisjoint(n, id, ns);
      }
    }
    assert AllRows(more).Keys == sum.Keys;
  }

  lemma RowOwner<V>(tables: map<Str, Table<V>>, ns: Str, t: Table<V>, k: Str) returns (n: Str, id: Str)
    requires forall n | n in tables :: ColonFree(n)
    requires ColonFree(ns) && ns !in tables
    requires k in AllRows(tables[ns := t]) || k in AllRows(tables) || k in Rows(ns, t)
    ensures k == Key(n, id) && ((n == ns && id in t) || (n in tables && id in tables[n]))
  {
    if k in Rows(ns, t) {
      n := ns;
      id :| id in t.Keys && k == Key(ns, id);
    } else if k in AllRows(tables) {
      AllRowsShape(tables, k);
      n, id :| n in tables && id in tables[n] && k == Key(n, id);
    } else {
      AllRowsShape(tables[ns := t], k);
      n, id :| n in tables[ns := t] && id in tables[ns := t][n] && k == Key(n, id);
    }
  }

  /** The store while the tables in `todo` are still to be written. */
  ghost function WithTables<V>(db: map<Str, V>, tables: map<Str, Table<V>>, todo: set<Str>): map<Str, V>
    requires forall n | n in tables :: ColonFree(n)
  {
    db + AllRows(tables - todo)
  }

  lemma NothingWritten<V>(db: map<Str, V>, tables: map<Str, Table<V>>)
    requires forall n | n in tables :: ColonFree(n)
    ensures WithTables(db, tables, tables.Keys) == db
  {
    assert tables - tables.Keys == map[];
  }

  lemma TableWritten<V>(db: map<Str, V>, tables: map<Str, Table<V>>, todo: set<Str>, ns: Str)
    requires forall n | n in tables :: ColonFree(n)
    requires ns in todo && ns in tables
    ensures WithTables(db, tables, todo - {ns}) == WithTables(db, tables, todo) + Rows(ns, tables[ns])
  {
    OneTableLess(tables, todo, ns);
    AllRowsGrow(tables - todo, ns, tables[ns]);
    MergeAssociative(db, AllRows(tables - todo), Rows(ns, tables[ns]));
  }

  lemma OneTableLess<T>(tables: map<Str, T>, todo: set<Str>, ns: Str)
    requires ns in todo && ns in tables
    ensures tables - (todo - {ns}) == (tables - todo)[ns := tables[ns]]
  {
  }

  lemma MergeAssociative<V>(a: map<Str, V>, b: map<Str, V>, c: map<Str, V>)
    ensures a + b + c == a + (b + c)
  {
  }

  ghost predicate EverStored<V>(history: seq<Image<V>>, ns: Str, id: Str)
    requires forall m | m in history :: ns in m.tables
  {
    exists i | 0 <= i < |history| :: id in history[i].tables[ns]
  }

  lemma KeyHasColon(ns: Str, id: Str)
    ensures COLON in Key(ns, id)
  {
    assert Key(ns, id)[|ns|] == COLON;
  }

  /** One commit: a record of the image is written, any other stored record stays. */
  lemma CommittedRecord<V>(db: map<Str, V>, m: Image<V>, ns: Str, id: Str)
    requires Committable(m) && ColonFree(ns) && ns in m.tables
    ensures var k := Key(ns, id);
      && (k in Committed(db, m) <==> k in db || id in m.tables[ns])
      && (id in m.tables[ns] ==> Committed(db, m)[k] == m.tables[ns][id])
  {
    RowOf(m.tables, ns, id);
    KeyHasColon(ns, id);
  }

  /** A key of a namespace is in the store exactly when some commit had that record, and
      the last commit decides the value of every record it has. */
  lemma {:induction false} StoredRecord<V>(history: seq<Image<V>>, ns: Str, id: Str)
    requires forall m | m in history :: Committable(m) && ns in m.tables
    requires ColonFree(ns) && history != []
    ensures Key(ns, id) in CommittedAll(history) <==> EverStored(history, ns, id)
    ensures var last := history[|history| - 1].tables[ns];
      id in last ==> Key(ns, id) in CommittedAll(history) && CommittedAll(history)[Key(ns, id)] == last[id]
  {
    var n := |history| - 1;
    var before := history[..n];
    CommittedRecord(CommittedAll(before), history[n], ns, id);
    if before != [] {
      StoredRecord(before, ns, id);
    }
    assert EverStored(history, ns, id) <==> EverStored(before, ns, id) || id in history[n].tables[ns] by {
      assert forall i | 0 <= i < n :: history[i] == before[i];
    }
  }

  /** Reloading a table after any sequence of commits gives back the last committed table
      if and only if no record was ever dropped from it between commits. */
  lemma {:induction false} ReloadExact<V>(history: seq<Image<V>>, ns: Str)
    requires forall m | m in history :: Committable(m) && ns in m.tables
    requires ColonFree(ns) && history != []
    ensures var last := history[|history| - 1].tables[ns];
      Scanned(CommittedAll(history), ns) == last
      <==> forall i | 0 <= i < |history| :: history[i].tables[ns].Keys <= last.Keys
  {
    hide Committable, CommittedAll, Scanned, Key;
    var db := CommittedAll(history);
    var last := history[|history| - 1].tables[ns];
    var scan := Scanned(db, ns);
    forall id
      ensures id in scan <==> EverStored(history, ns, id)
      ensures id in last ==> id in scan && scan[id] == last[id]
    {
      StoredRecord(history, ns, id);
      ScannedRecord(db, ns, id);
    }
    assert scan == last <==> scan.Keys <= last.Keys;
    if scan.Keys <= last.Keys {
      forall i, id | 0 <= i < |history| && id in history[i].tables[ns] ensures id in last {
        assert EverStored(history, ns, id);
      }
    }
  }

  lemma ScannedRecord<V>(db: map<Str, V>, ns: Str, id: Str)
    ensures id in Scanned(db, ns) <==> Key(ns, id) in db
    ensures id in Scanned(db, ns) ==> Scanned(db, ns)[id] == db[Key(ns, id)]
  {
    assert InNamespace(Key(ns, id), ns);
    assert Key(ns, id)[|ns| + 1..] == id;
    forall k | k in db && InNamespace(k, ns) && k[|ns| + 1..] == id ensures k == Key(ns, id) {
      assert k == Key(ns, k[|ns| + 1..]);
    }
  }

  lemma NoRows<V>(ns: Str)
    ensures Rows<V>(ns, map[]) == map[]
  {
  }

  lemma RowAdded<V>(ns: Str, t: Table<V>, id: Str, v: V)
    ensures Rows(ns, t[id := v]) == Rows(ns, t)[Key(ns, id) := v]
  {
    assert Key(ns, id)[|ns| + 1..] == id;
    forall x | x in t && Key(ns, x) == Key(ns, id) ensures x == id {
      assert Key(ns, x)[|ns| + 1..] == x;
    }
    assert RowKeys(ns, t[id := v].Keys) == RowKeys(ns, t.Keys) + {Key(ns, id)};
  }

  class Database<V(==)> {
    var db: map<Str, V>

    /** One of Commit's loops: set every record of one table, in any order. */
    method SetTable(ns: Str, table: Table<V>)
      requires ColonFree(ns)
      modifies this
      ensures db == old(db) + Rows(ns, table)
    {
      hide Rows, Key;
      var rest := table.Keys;
      NoRows<V>(ns);
      assert table - rest == map[];
      while rest != {}
        invariant rest <= table.Keys && db == old(db) + Rows(ns, table - rest)
        decreases rest
      {
        var id :| id in rest;
        RowAdded(ns, table - rest, id, table[id]);
        assert table - (rest - {id}) == (table - rest)[id := table[id]];
        db := db[Key(ns, id) := table[id]];
        rest := rest - {id};
      }
      assert table - {} == table;
    }

    /** Commit: table after table, then the single entries. */
    method Commit(m: Image<V>)
      requires Committable(m)
      modifies this
      ensures db == Committed(old(db), m)
    {
      var todo := m.tables.Keys;
      ghost var base := db;
      NothingWritten(base, m.tables);
      while todo != {}
        invariant todo <= m.tables.Keys
        invariant db == WithTables(base, m.tables, todo)
        decreases todo
      {
        var ns :| ns in todo;
        TableWritten(base, m.tables, todo, ns);
        SetTable(ns, m.tables[ns]);
        todo := todo - {ns};
      }
      assert m.tables - {} == m.tables;
      db := db + m.single;
    }

    /** The scan of loadPrefix: the keys from the prefix up to its bound, each record
        entered under the identifier it carries. */
    method LoadTable(ns: Str, idOf: V -> Str) returns (table: Table<V>)
      ensures (forall k | k in db && InNamespace(k, ns) :: Key(ns, idOf(db[k])) == k)
        ==> table == Scanned(db, ns)
    {
      var start := ns + [COLON];
      var end := PrefixEnd(start);
      var rest := set k | k in db && InRange(k, start, end);
      assert forall k :: k in rest <==> k in db && InNamespace(k, ns);
      table := map[];
      ghost var keyed := forall k | k in db && InNamespace(k, ns) :: Key(ns, idOf(db[k])) == k;
      ghost var todo := rest;
      while rest != {}
        invariant rest <= todo
        invariant keyed ==> forall id :: id in table <==> Key(ns, id) in todo - rest
        invariant keyed ==> forall id | id in table :: table[id] == db[Key(ns, id)]
        decreases rest
      {
        var k :| k in rest;
        var v := db[k];
        table := table[idOf(v) := v];
        ghost var was := rest;
        rest := rest - {k};
        if keyed {
          forall id ensures id in table <==> Key(ns, id) in todo - rest {
            if Key(ns, id) == k { assert Key(ns, id)[|ns| + 1..] == id && k[|ns| + 1..] == idOf(v); }
          }
        }
      }
      if keyed {
        forall id ensures id in table <==> id in Scanned(db, ns)
                  ensures id in table ==> table[id] == Scanned(db, ns)[id] {
          ScannedRecord(db, ns, id);
          assert InNamespace(Key(ns, id), ns);
        }
      }
    }
  }
}
