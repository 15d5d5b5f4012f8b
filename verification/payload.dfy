/** The canonical signing payload: two roots, the total, and the counts in key order. */
module Payload {
  import opened Ordering
  import opened Merkle
  import opened Sums

  function BigEndian(u: nat, width: nat): (r: Str)
    ensures |r| == width
  {
    if width == 0 then [] else BigEndian(u / 256, width - 1) + [(u % 256) as byte]
  }

  function FromBigEndian(s: Str): nat {
    if s == [] then 0 else FromBigEndian(s[..|s| - 1]) * 256 + s[|s| - 1] as nat
  }

  /** binary.BigEndian.PutUint64 of the int64 reinterpreted as a uint64. */
  function Enc64(n: int): (r: Str)
    ensures |r| == 8
  {
    BigEndian(n % TWO64, 8)
  }

  function Dec64(s: Str): int {
    var u := FromBigEndian(s);
    if u > MAX64 then u - TWO64 else u
  }

  function Pow256(k: nat): nat {
    if k == 0 then 1 else 256 * Pow256(k - 1)
  }

  lemma {:induction false} BigEndianRoundTrip(u: nat, width: nat)
    requires u < Pow256(width)
    ensures FromBigEndian(BigEndian(u, width)) == u
  {
    if width > 0 {
      BigEndianRoundTrip(u / 256, width - 1);
      assert BigEndian(u, width)[..width - 1] == BigEndian(u / 256, width - 1);
    }
  }

  lemma Enc64RoundTrip(n: int)
    requires Int64(n)
    ensures Dec64(Enc64(n)) == n
  {
    assert Pow256(8) == TWO64 by {
      assert Pow256(4) == 0x1_0000_0000;
    }
    BigEndianRoundTrip(n % TWO64, 8);
  }

  function Entries(keys: seq<Str>, counts: map<Str, int>): Str
    requires forall k | k in keys :: k in counts
  {
    if keys == [] then [] else keys[0] + Enc64(counts[keys[0]]) + Entries(keys[1..], counts)
  }

  lemma ListingMembers(s: set<Str>)
    ensures forall k :: k in Listing(s) <==> k in s
  {
    forall k ensures k in Listing(s) <==> k in s {
      assert k in Listing(s) <==> k in multiset(Listing(s));
    }
  }

  /** Everything that is fed to the hash, in order. */
  ghost function PreImage(l1Root: Str, l2Root: Str, total: int, counts: map<Str, int>): Str {
    ListingMembers(counts.Keys);
    l1Root + l2Root + Enc64(total) + Entries(Listing(counts.Keys), counts)
  }

  method SortedKeys(counts: map<Str, int>) returns (keys: seq<Str>)
    ensures keys == Listing(counts.Keys)
  {
    keys := [];
    var rest := counts.Keys;
    while rest != {}
      invariant multiset(keys) + multiset(rest) == multiset(counts.Keys)
      decreases rest
    {
      var k :| k in rest;
      keys := keys + [k];
      rest := rest - {k};
    }
    CollectedListing(counts.Keys, keys);
    keys := Sort(StrLe, keys);
  }

  lemma EntriesStep(keys: seq<Str>, counts: map<Str, int>, i: nat)
    requires i < |keys| && forall k | k in keys :: k in counts
    ensures Entries(keys[i..], counts) == keys[i] + Enc64(counts[keys[i]]) + Entries(keys[i + 1..], counts)
  {
    assert keys[i..][1..] == keys[i + 1..];
  }

  /** The running hash is modelled by the bytes written to it so far. */
  method WriteEntries(keys: seq<Str>, counts: map<Str, int>, head: Str) returns (written: Str)
    requires forall k | k in keys :: k in counts
    ensures written == head + Entries(keys, counts)
  {
    written := head;
    assert keys[0..] == keys;
    for i := 0 to |keys|
      invariant written + Entries(keys[i..], counts) == head + Entries(keys, counts)
    {
      EntriesStep(keys, counts, i);
      ghost var rest := Entries(keys[i + 1..], counts);
      var buf := Enc64(counts[keys[i]]);
      assert written + (keys[i] + buf + rest) == written + keys[i] + buf + rest;
      written := written + keys[i] + buf;
    }
    assert keys[|keys|..] == [] && written + [] == written;
  }

  method BuildSigningPayload(h: Hash, l1Root: Str, l2Root: Str, total: int, counts: map<Str, int>)
    returns (digest: Str)
    ensures digest == h(PreImage(l1Root, l2Root, total, counts))
  {
    var keys := SortedKeys(counts);
    ListingMembers(counts.Keys);
    var written := WriteEntries(keys, counts, l1Root + l2Root + Enc64(total));
    digest := h(written);
  }

  lemma {:induction false} EntriesBind(keys: seq<Str>, a: map<Str, int>, b: map<Str, int>)
    requires forall k | k in keys :: k in a && k in b && Int64(a[k]) && Int64(b[k])
    requires Entries(keys, a) == Entries(keys, b)
    ensures forall k | k in keys :: a[k] == b[k]
  {
    if keys != [] {
      var k := keys[0];
      var restA, restB := Entries(keys[1..], a), Entries(keys[1..], b);
      var cut := |k| + 8;
      assert Entries(keys, a)[|k|..cut] == Enc64(a[k]) && Entries(keys, a)[cut..] == restA;
      assert Entries(keys, b)[|k|..cut] == Enc64(b[k]) && Entries(keys, b)[cut..] == restB;
      Enc64RoundTrip(a[k]);
      Enc64RoundTrip(b[k]);
      EntriesBind(keys[1..], a, b);
    }
  }

  /** With the option set fixed, the signed bytes determine both roots, the total and
      every count. */
  lemma PayloadBinds(l1: Str, l2: Str, total: int, a: map<Str, int>,
                     l1': Str, l2': Str, total': int, b: map<Str, int>)
    requires |l1| == |l2| == |l1'| == |l2'| == 32
    requires a.Keys == b.Keys && Int64(total) && Int64(total')
    requires forall k | k in a.Keys :: Int64(a[k]) && Int64(b[k])
    ensures PreImage(l1, l2, total, a) == PreImage(l1', l2', total', b)
       <==> l1 == l1' && l2 == l2' && total == total' && a == b
  {
    hide Listing, Entries, Enc64, StrLe;
    ListingMembers(a.Keys);
    if PreImage(l1, l2, total, a) == PreImage(l1', l2', total', b) {
      var keys := Listing(a.Keys);
      FourParts(l1, l2, Enc64(total), Entries(keys, a), l1', l2', Enc64(total'), Entries(keys, b));
      Enc64RoundTrip(total);
      Enc64RoundTrip(total');
      EntriesBind(keys, a, b);
    }
  }

  lemma FourParts(a: Str, b: Str, c: Str, d: Str, a': Str, b': Str, c': Str, d': Str)
    requires |a| == |a'| && |b| == |b'| && |c| == |c'| && a + b + c + d == a' + b' + c' + d'
    ensures a == a' && b == b' && c == c' && d == d'
  {
    var s := a + b + c + d;
    var i, j, k := |a|, |a| + |b|, |a| + |b| + |c|;
    assert a == s[..i] == a' && b == s[i..j] == b' && c == s[j..k] == c' && d == s[k..] == d';
  }

  /** The same for the digest, as long as the two signed byte strings do not collide. */
  lemma DigestBinds(h: Hash, l1: Str, l2: Str, total: int, a: map<Str, int>,
                    l1': Str, l2': Str, total': int, b: map<Str, int>)
    requires |l1| == |l2| == |l1'| == |l2'| == 32
    requires a.Keys == b.Keys && Int64(total) && Int64(total')
    requires forall k | k in a.Keys :: Int64(a[k]) && Int64(b[k])
    requires CollisionFree(h, {PreImage(l1, l2, total, a), PreImage(l1', l2', total', b)})
    ensures h(PreImage(l1, l2, total, a)) == h(PreImage(l1', l2', total', b))
       <==> l1 == l1' && l2 == l2' && total == total' && a == b
  {
    PayloadBinds(l1, l2, total, a, l1', l2', total', b);
  }

  /** A rolling checkpoint signs no counts, so what it signs is never what the close of
      a poll with options signs. */
  lemma CheckpointIsNotClose(l1: Str, l2: Str, total: int, l1': Str, l2': Str, total': int, counts: map<Str, int>)
    requires |l1| == |l2| == |l1'| == |l2'| == 32 && counts != map[]
    ensures PreImage(l1, l2, total, map[]) != PreImage(l1', l2', total', counts)
  {
    var keys := Listing(counts.Keys);
    ListingMembers(counts.Keys);
    var k :| k in counts;
    assert keys != [];
    assert |Entries(keys, counts)| >= 8;
    var none: map<Str, int> := map[];
    assert Listing(none.Keys) == [];
  }

  lemma {:induction false} ListingIs(s: set<Str>, keys: seq<Str>)
    requires multiset(keys) == multiset(s) && SortedBy(StrLe, keys)
    ensures Listing(s) == keys
  {
    hide StrLe, Listing;
    ListingSorted(s);
    StrOrder(keys);
    SortedUnique(StrLe, keys, Listing(s));
  }

  /** Keys written out in order give the bytes that are signed. */
  lemma {:induction false} PreImageOf(l1: Str, l2: Str, total: int, counts: map<Str, int>, keys: seq<Str>)
    requires multiset(keys) == multiset(counts.Keys) && SortedBy(StrLe, keys)
    ensures forall k | k in keys :: k in counts
    ensures PreImage(l1, l2, total, counts) == l1 + l2 + Enc64(total) + Entries(keys, counts)
  {
    hide StrLe, Listing, Enc64, Entries;
    ListingIs(counts.Keys, keys);
    ListingMembers(counts.Keys);
  }

  lemma EntriesOfTwo(keys: seq<Str>, counts: map<Str, int>)
    requires |keys| == 2 && forall k | k in keys :: k in counts
    ensures Entries(keys, counts) == keys[0] + Enc64(counts[keys[0]]) + keys[1] + Enc64(counts[keys[1]])
  {
    hide Enc64;
    EntriesStep(keys, counts, 0);
    EntriesStep(keys, counts, 1);
    assert keys[0..] == keys && keys[2..] == [];
  }

  lemma EntriesOfThree(keys: seq<Str>, counts: map<Str, int>)
    requires |keys| == 3 && forall k | k in keys :: k in counts
    ensures Entries(keys, counts)
         == keys[0] + Enc64(counts[keys[0]]) + keys[1] + Enc64(counts[keys[1]]) + keys[2] + Enc64(counts[keys[2]])
  {
    hide Enc64;
    EntriesStep(keys, counts, 0);
    EntriesOfTwo(keys[1..], counts);
    assert keys[0..] == keys;
  }

  /** Nothing separates a key from the number before it, so the first two options can be
      read as one. */
  lemma {:induction false} NoSeparator(l1: Str, l2: Str, total: int, keys: seq<Str>, a: map<Str, int>, b: map<Str, int>)
    requires |keys| == 3 && multiset(keys) == multiset(a.Keys) && SortedBy(StrLe, keys)
    requires forall k | k in keys :: k in a
    requires var w := keys[0] + Enc64(a[keys[0]]) + keys[1];
      StrLe(w, keys[2]) && w != keys[2] && b == map[w := a[keys[1]], keys[2] := a[keys[2]]]
    ensures PreImage(l1, l2, total, a) == PreImage(l1, l2, total, b)
  {
    hide Listing, StrLe, Enc64, PreImage, Entries;
    var w := keys[0] + Enc64(a[keys[0]]) + keys[1];
    var merged := [w, keys[2]];
    assert b.Keys == {w, keys[2]} && multiset(merged) == multiset(b.Keys);
    PreImageOf(l1, l2, total, a, keys);
    PreImageOf(l1, l2, total, b, merged);
    EntriesOfThree(keys, a);
    EntriesOfTwo(merged, b);
  }
}
