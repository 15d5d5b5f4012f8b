/** The commitment over one list: sort the names, hash each one, then pair digests
    level by level, promoting an odd last digest unchanged. */
module Merkle {
  import opened Ordering
  import opened Permutations

  /** SHA-256, left abstract: any function from byte strings to 32-byte digests. */
  type Hash = Str -> Str

  ghost predicate Digests32(h: Hash) {
    forall x :: |h(x)| == 32
  }

  function EmptyRoot(): Str {
    seq(32, _ => 0)
  }

  function Leaves(h: Hash, items: seq<Str>): seq<Str> {
    Mapped(h, items)
  }

  /** One pass of the pairing loop. */
  function Level(h: Hash, xs: seq<Str>): (r: seq<Str>)
    ensures |r| == (|xs| + 1) / 2
  {
    if |xs| < 2 then xs else [h(xs[0] + xs[1])] + Level(h, xs[2..])
  }

  predicate IsPow2(k: nat) {
    k == 1 || (k > 1 && k % 2 == 0 && IsPow2(k / 2))
  }

  /** The largest power of two strictly below `n`. */
  function SplitPoint(n: nat): (k: nat)
    requires n >= 2
    ensures IsPow2(k) && k < n <= 2 * k
  {
    if n == 2 then 1 else 2 * SplitPoint((n + 1) / 2)
  }

  /** Reference definition: the balanced tree of section 2.1 of RFC 6962 (without its
      domain-separation prefixes), which cuts at the largest power of two below `n`. */
  function TreeHash(h: Hash, xs: seq<Str>): Str
    requires xs != []
    decreases |xs|
  {
    if |xs| == 1 then xs[0]
    else
      var k := SplitPoint(|xs|);
      h(TreeHash(h, xs[..k]) + TreeHash(h, xs[k..]))
  }

  function Root(h: Hash, items: seq<Str>): Str {
    if items == [] then EmptyRoot() else TreeHash(h, Leaves(h, Sort(StrLe, items)))
  }

  /** The commitment of a set of names, as the state machines use it. */
  ghost function SetRoot(h: Hash, s: set<Str>): Str {
    Root(h, Listing(s))
  }

  lemma {:induction false} LevelSplits(h: Hash, a: seq<Str>, b: seq<Str>)
    requires |a| % 2 == 0
    ensures Level(h, a + b) == Level(h, a) + Level(h, b)
  {
    if a == [] {
      assert a + b == b;
    } else {
      assert (a + b)[2..] == a[2..] + b;
      LevelSplits(h, a[2..], b);
    }
  }

  lemma {:induction false} SplitPointUnique(n: nat, k: nat)
    requires n >= 2 && IsPow2(k) && k < n <= 2 * k
    ensures SplitPoint(n) == k
    decreases n
  {
    if n > 2 {
      SplitPointUnique((n + 1) / 2, k / 2);
    }
  }

  /** One pass of the loop does not change the value of the tree. */
  lemma {:induction false} LevelKeepsTree(h: Hash, xs: seq<Str>)
    requires |xs| >= 2
    ensures TreeHash(h, Level(h, xs)) == TreeHash(h, xs)
    decreases |xs|
  {
    var k := SplitPoint(|xs|);
    if |xs| == 2 {
      assert xs[..1] == [xs[0]] && xs[1..] == [xs[1]];
      assert Level(h, xs) == [h(xs[0] + xs[1])] + Level(h, xs[2..]);
    } else {
      var a, b := xs[..k], xs[k..];
      assert xs == a + b;
      LevelSplits(h, a, b);
      LevelKeepsTree(h, a);
      if |b| >= 2 {
        LevelKeepsTree(h, b);
      } else {
        assert Level(h, b) == b;
      }
      var next := Level(h, xs);
      SplitPointUnique(|next|, k / 2);
      assert next[..k / 2] == Level(h, a) && next[k / 2..] == Level(h, b);
    }
  }

  /** The inner loop: pair neighbours, carry an odd last digest over. */
  method PairUp(h: Hash, leaves: seq<Str>) returns (next: seq<Str>)
    ensures next == Level(h, leaves)
  {
    next := [];
    var i := 0;
    while i < |leaves|
      invariant 0 <= i <= |leaves| + 1
      invariant i <= |leaves| ==> next + Level(h, leaves[i..]) == Level(h, leaves)
      invariant i == |leaves| + 1 ==> next == Level(h, leaves)
    {
      if i + 1 < |leaves| {
        var pair := h(leaves[i] + leaves[i + 1]);
        assert Level(h, leaves[i..]) == [pair] + Level(h, leaves[i + 2..]) by {
          assert leaves[i..][2..] == leaves[i + 2..];
        }
        next := next + [pair];
      } else {
        assert Level(h, leaves[i..]) == [leaves[i]];
        next := next + [leaves[i]];
      }
      i := i + 2;
    }
  }

  method HashLeaves(h: Hash, items: seq<Str>) returns (leaves: seq<Str>)
    ensures leaves == Leaves(h, items)
  {
    leaves := [];
    for i := 0 to |items|
      invariant |leaves| == i && forall j | 0 <= j < i :: leaves[j] == h(items[j])
    {
      leaves := leaves + [h(items[i])];
    }
  }

  /** The outer loop: level by level until one digest is left. */
  method ComputeMerkleRoot(h: Hash, items: seq<Str>) returns (root: Str)
    ensures root == Root(h, items)
  {
    if |items| == 0 {
      return EmptyRoot();
    }
    var leaves := HashLeaves(h, Sort(StrLe, items));
    ghost var tree := TreeHash(h, leaves);
    while |leaves| > 1
      invariant leaves != [] && TreeHash(h, leaves) == tree
      decreases |leaves|
    {
      LevelKeepsTree(h, leaves);
      leaves := PairUp(h, leaves);
    }
    return leaves[0];
  }

  /** The root depends only on which names are in the list, not on their order. */
  lemma {:induction false} RootForgetsOrder(h: Hash, a: seq<Str>, b: seq<Str>)
    requires multiset(a) == multiset(b)
    ensures Root(h, a) == Root(h, b)
  {
    assert |multiset(a)| == |a| && |multiset(b)| == |b|;
    assert TotalPreorder(StrLe) && NoTies(StrLe, a) by { StrOrder(a); }
    SortForgetsOrder(StrLe, a, b);
  }

  /** Collecting a set in any order and hashing it gives the set's commitment. */
  lemma {:induction false} CollectedRoot(h: Hash, s: set<Str>, items: seq<Str>)
    requires multiset(items) == multiset(s)
    ensures Root(h, items) == SetRoot(h, s)
    ensures |items| == |s|
  {
    assert |multiset(items)| == |items|;
    RootForgetsOrder(h, items, Listing(s));
  }

  ghost function PairInputs(h: Hash, xs: seq<Str>): set<Str>
    requires xs != []
    decreases |xs|
  {
    if |xs| == 1 then {}
    else
      var k := SplitPoint(|xs|);
      {TreeHash(h, xs[..k]) + TreeHash(h, xs[k..])} + PairInputs(h, xs[..k]) + PairInputs(h, xs[k..])
  }

  /** Every byte string that is hashed while computing `Root(h, items)`. */
  ghost function HashedBy(h: Hash, items: seq<Str>): set<Str> {
    (set x | x in items) +
    (if items == [] then {} else PairInputs(h, Leaves(h, Sort(StrLe, items))))
  }

  ghost predicate CollisionFree(h: Hash, inputs: set<Str>) {
    forall x, y | x in inputs && y in inputs && h(x) == h(y) :: x == y
  }

  lemma {:induction false} TreeLength(h: Hash, xs: seq<Str>)
    requires Digests32(h) && xs != [] && forall i | 0 <= i < |xs| :: |xs[i]| == 32
    ensures |TreeHash(h, xs)| == 32
  {
  }

  lemma {:induction false} TreeBinds(h: Hash, xs: seq<Str>, ys: seq<Str>)
    requires Digests32(h) && |xs| == |ys| > 0
    requires forall i | 0 <= i < |xs| :: |xs[i]| == |ys[i]| == 32
    requires CollisionFree(h, PairInputs(h, xs) + PairInputs(h, ys))
    requires TreeHash(h, xs) == TreeHash(h, ys)
    ensures xs == ys
    decreases |xs|
  {
    if |xs| > 1 {
      var k := SplitPoint(|xs|);
      var l, r, l', r' := TreeHash(h, xs[..k]), TreeHash(h, xs[k..]), TreeHash(h, ys[..k]), TreeHash(h, ys[k..]);
      TreeLength(h, xs[..k]);
      TreeLength(h, ys[..k]);
      assert l + r == l' + r';
      assert l == (l + r)[..32] == (l' + r')[..32] == l';
      assert r == (l + r)[32..] == (l' + r')[32..] == r';
      TreeBinds(h, xs[..k], ys[..k]);
      TreeBinds(h, xs[k..], ys[k..]);
      assert xs == xs[..k] + xs[k..] && ys == ys[..k] + ys[k..];
    }
  }

  lemma {:induction false} LeavesBind(h: Hash, a: seq<Str>, b: seq<Str>)
    requires |a| == |b| && Leaves(h, a) == Leaves(h, b)
    requires CollisionFree(h, (set x | x in a) + (set x | x in b))
    ensures a == b
  {
    forall i | 0 <= i < |a| ensures a[i] == b[i] {
      assert Leaves(h, a)[i] == Leaves(h, b)[i];
    }
  }

  /** A root together with the number of names determines the names: as long as no two
      byte strings hashed for the two lists collide, equal roots mean the same multiset. */
  lemma {:induction false} RootBinds(h: Hash, a: seq<Str>, b: seq<Str>)
    requires Digests32(h) && |a| == |b|
    requires CollisionFree(h, HashedBy(h, a) + HashedBy(h, b))
    ensures Root(h, a) == Root(h, b) <==> multiset(a) == multiset(b)
  {
    hide Root, HashedBy;
    if multiset(a) == multiset(b) {
      RootForgetsOrder(h, a, b);
    } else if Root(h, a) == Root(h, b) {
      RootDetermines(h, a, b);
    }
  }

  lemma RootDetermines(h: Hash, a: seq<Str>, b: seq<Str>)
    requires Digests32(h) && |a| == |b| && Root(h, a) == Root(h, b)
    requires CollisionFree(h, HashedBy(h, a) + HashedBy(h, b))
    ensures multiset(a) == multiset(b)
  {
    hide Sort, TreeHash, PairInputs;
    var sa, sb := Sort(StrLe, a), Sort(StrLe, b);
    if a != [] {
      TreeBinds(h, Leaves(h, sa), Leaves(h, sb));
      SameElements(sa, a);
      SameElements(sb, b);
      LeavesBind(h, sa, sb);
    }
  }

  lemma RootOfOne(h: Hash, z: Str)
    ensures Root(h, [z]) == h(z)
  {
    assert Sort(StrLe, [z]) == [z];
    assert Leaves(h, [z]) == [h(z)];
  }

  lemma TreeOfTwo(h: Hash, s: seq<Str>)
    requires |s| == 2
    ensures TreeHash(h, Leaves(h, s)) == h(h(s[0]) + h(s[1]))
  {
    var xs := Leaves(h, s);
    assert xs == [h(s[0]), h(s[1])] && xs[..1] == [h(s[0])] && xs[1..] == [h(s[1])];
    hide Leaves;
  }

  /** Without the count a root does not determine the list: two names and the one name
      made of their digests have the same root, whatever the hash. */
  lemma {:induction false} RootNeedsCount(h: Hash, x: Str, y: Str)
    ensures exists z :: Root(h, [x, y]) == Root(h, [z])
  {
    var s := Sort(StrLe, [x, y]);
    assert Root(h, [x, y]) == TreeHash(h, Leaves(h, s));
    hide Sort, Leaves, TreeHash, Root;
    TreeOfTwo(h, s);
    RootOfOne(h, h(s[0]) + h(s[1]));
  }
}
