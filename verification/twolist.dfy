/** What the voting machine and the generic period machine share: composite keys, the
    identifiers of one scope, checkpoints, and counting. */
module TwoList {
  import opened Ordering

  type Key = (Str, Str)

  datatype Checkpoint = Checkpoint(sequenceNumber: nat, totalSubmissions: int, l1Commitment: Str, l2Commitment: Str)

  function GetOr<V>(m: map<Str, V>, k: Str, default: V): V {
    if k in m then m[k] else default
  }

  ghost function Ids(keys: set<Key>): set<Str> {
    set k | k in keys :: k.1
  }

  predicate Distinct<T(==)>(s: seq<T>) {
    forall i, j | 0 <= i < j < |s| :: s[i] != s[j]
  }

  ghost function One(b: bool): nat {
    if b then 1 else 0
  }

  ghost function KeysOf(p: Str, ids: seq<Str>): set<Key> {
    set id | id in ids :: (p, id)
  }

  /** `k` full batches of `T` submissions; repeated addition keeps the proofs linear. */
  ghost function Batches(T: nat, k: nat): nat {
    if k == 0 then 0 else T + Batches(T, k - 1)
  }

  lemma {:induction false} BatchesAdd(T: nat, j: nat, k: nat)
    ensures Batches(T, j + k) == Batches(T, j) + Batches(T, k)
  {
    if k > 0 {
      BatchesAdd(T, j, k - 1);
    }
  }

  lemma {:induction false} BatchesProduct(T: nat, k: nat)
    ensures Batches(T, k) == T * k
  {
    if k > 0 {
      BatchesProduct(T, k - 1);
      assert T * k == T + T * (k - 1);
    }
  }

  lemma {:induction false} DistinctCount<T>(s: seq<T>)
    ensures Distinct(s) <==> |set x | x in s| == |s|
    ensures |set x | x in s| <= |s|
  {
    if s != [] {
      var n := |s| - 1;
      var init, last := s[..n], s[n];
      DistinctCount(init);
      assert s == init + [last];
      assert (set x | x in s) == (set x | x in init) + {last};
      assert Distinct(s) <==> Distinct(init) && last !in init by {
        assert forall i | 0 <= i < n :: init[i] == s[i];
      }
    }
  }

  lemma {:induction false} PairCount(p: Str, ids: set<Str>)
    ensures |set id | id in ids :: (p, id)| == |ids|
  {
    if ids != {} {
      var id :| id in ids;
      PairCount(p, ids - {id});
      assert (set x | x in ids :: (p, x)) == (set x | x in ids - {id} :: (p, x)) + {(p, id)};
    }
  }

  lemma DistinctKeyCount(p: Str, ids: seq<Str>)
    ensures Distinct(ids) <==> |KeysOf(p, ids)| == |ids|
  {
    DistinctCount(ids);
    var members := set id | id in ids;
    PairCount(p, members);
    assert KeysOf(p, ids) == set id | id in members :: (p, id);
  }

  lemma UnionCount<T>(a: set<T>, b: set<T>)
    ensures |a + b| == |a| + |b| - |b * a|
  {
    assert a * b == b * a;
  }

  lemma IdsGrow(p: Str, keys: set<Key>, k: Key)
    requires k !in keys && k.0 == p && forall x | x in keys :: x.0 == p
    ensures multiset(Ids(keys + {k})) == multiset(Ids(keys)) + multiset{k.1}
  {
    assert Ids(keys + {k}) == Ids(keys) + {k.1};
    forall x | x in keys ensures x.1 != k.1 {
      assert x == (p, x.1) && k == (p, k.1);
    }
  }

  lemma IdCount(p: Str, keys: set<Key>)
    requires forall k | k in keys :: k.0 == p
    ensures |Ids(keys)| == |keys|
  {
    PairCount(p, Ids(keys));
    assert (set id | id in Ids(keys) :: (p, id)) == keys by {
      forall k | k in keys ensures k == (p, k.1) && k.1 in Ids(keys) {}
    }
  }

  lemma NoneFound()
    ensures multiset(Ids({})) == multiset{}
  {
  }

  /** One key visited by the loop below. */
  lemma IdentityVisited(p: Str, done: set<Key>, found: set<Key>, ids: seq<Str>, k: Key)
    requires found == (set x | x in done && x.0 == p) && multiset(ids) == multiset(Ids(found)) && k !in done
    ensures k.0 != p ==> found == set x | x in done + {k} && x.0 == p
    ensures k.0 == p ==> found + {k} == set x | x in done + {k} && x.0 == p
    ensures k.0 == p ==> multiset(ids + [k.1]) == multiset(Ids(found + {k}))
  {
    hide Ids;
    if k.0 == p {
      IdsGrow(p, found, k);
    }
  }

  method CollectIdentities(keys: set<Key>, p: Str) returns (ids: seq<Str>)
    ensures multiset(ids) == multiset(Ids(set k | k in keys && k.0 == p))
  {
    hide Ids;
    NoneFound();
    ids := [];
    var rest := keys;
    ghost var done: set<Key> := {};
    ghost var found: set<Key> := {};
    while rest != {}
      invariant done + rest == keys && done !! rest
      invariant found == set k | k in done && k.0 == p
      invariant multiset(ids) == multiset(Ids(found))
      decreases rest
    {
      var k :| k in rest;
      IdentityVisited(p, done, found, ids, k);
      if k.0 == p {
        ids, found := ids + [k.1], found + {k};
      }
      rest, done := rest - {k}, done + {k};
    }
  }
}
