/** Composite map keys `scope:id`, prefix scans over them, and the reload of tables that
    are stored under such keys. */
module Keys {
  import opened Ordering

  const COLON: byte := 58

  function Key(scope: Str, id: Str): Str {
    scope + [COLON] + id
  }

  predicate ColonFree(s: Str) {
    COLON !in s
  }

  predicate HasPrefix(k: Str, p: Str) {
    p <= k
  }

  /** A scan for the prefix of scope `q` meets a record of scope `p` exactly when the two
      scopes are the same or `p` itself continues `q` after a colon. */
  lemma ScanMeets(p: Str, id: Str, q: Str)
    requires ColonFree(id)
    ensures HasPrefix(Key(p, id), q + [COLON]) <==> p == q || HasPrefix(p, q + [COLON])
  {
    var k := Key(p, id);
    assert |p| < |q| < |k| ==> k[|q|] == id[|q| - |p| - 1];
    if HasPrefix(k, q + [COLON]) {
      assert k[|q|] == COLON && k[..|q|] == q;
      if |q| < |p| {
        assert p == k[..|p|];
      } else if |q| == |p| {
        assert k[..|p|] == p;
      }
    }
  }

  ghost predicate NoScopeExtendsAnother(scopes: set<Str>) {
    forall p, q | p in scopes && q in scopes :: !HasPrefix(p, q + [COLON])
  }

  /** Per-scope scans are exact for a set of scopes if and only if no scope in the set
      continues another one after a colon. */
  lemma ScansAreExact(scopes: set<Str>)
    ensures NoScopeExtendsAnother(scopes)
      <==> forall p, q, id | p in scopes && q in scopes && ColonFree(id)
             :: HasPrefix(Key(p, id), q + [COLON]) <==> p == q
  {
    forall p, q, id | p in scopes && q in scopes && ColonFree(id)
      ensures HasPrefix(Key(p, id), q + [COLON]) <==> p == q || HasPrefix(p, q + [COLON])
    {
      ScanMeets(p, id, q);
    }
    if !NoScopeExtendsAnother(scopes) {
      var p, q :| p in scopes && q in scopes && HasPrefix(p, q + [COLON]);
      assert ColonFree([]) && |p| > |q|;
      assert HasPrefix(Key(p, []), q + [COLON]);
    }
  }

  lemma KeySplits(p: Str, x: Str, q: Str, y: Str)
    requires Key(p, x) == Key(q, y) && |p| <= |q|
    ensures (p == q && x == y) || (|p| < |q| && COLON in q && COLON in x)
  {
    var k := Key(p, x);
    assert k[..|p|] == p && k[|p| + 1..] == x;
    assert Key(q, y)[..|q|] == q && Key(q, y)[|q| + 1..] == y;
    if |p| < |q| {
      assert q == k[..|q|] && q[|p|] == COLON;
      assert k[|q|] == COLON && x[|q| - |p| - 1] == k[|q|];
    }
  }

  /** Composite keys are as good as pairs when either all scopes or all ids are colon-free. */
  lemma KeyInjective(p: Str, x: Str, q: Str, y: Str)
    requires (ColonFree(p) && ColonFree(q)) || (ColonFree(x) && ColonFree(y))
    ensures Key(p, x) == Key(q, y) <==> p == q && x == y
  {
    if Key(p, x) == Key(q, y) {
      if |p| <= |q| {
        KeySplits(p, x, q, y);
      } else {
        KeySplits(q, y, p, x);
      }
    }
  }

  // ----- the upper end of a prefix scan -----

  datatype Bound = Unbounded | Below(key: Str)

  predicate InRange(k: Str, p: Str, end: Bound) {
    StrLe(p, k) && (end.Below? ==> StrLe(k, end.key) && k != end.key)
  }

  /** Drop trailing 0xFF bytes, then add one to the last byte left. */
  function PrefixBound(p: Str): Bound {
    if p == [] then Unbounded
    else
      match PrefixBound(p[1..])
      case Below(e) => Below([p[0]] + e)
      case Unbounded => if p[0] == 255 then Unbounded else Below([p[0] + 1])
  }

  /** The half-open range from `p` to its bound holds the keys with prefix `p`, all of
      them and nothing else: also for the empty prefix and for one of 0xFF bytes only. */
  lemma {:induction false} RangeIsPrefix(k: Str, p: Str)
    ensures InRange(k, p, PrefixBound(p)) <==> HasPrefix(k, p)
    decreases |p|
  {
    if p != [] && k != [] {
      assert p == [p[0]] + p[1..] && k == [k[0]] + k[1..];
      if k[0] == p[0] {
        RangeIsPrefix(k[1..], p[1..]);
        assert HasPrefix(k, p) <==> HasPrefix(k[1..], p[1..]);
        match PrefixBound(p[1..])
        case Below(e) =>
          assert ([p[0]] + e)[1..] == e;
        case Unbounded =>
      } else {
        match PrefixBound(p[1..])
        case Below(e) =>
          assert ([p[0]] + e)[1..] == e;
        case Unbounded =>
          if p[0] < 255 && k[0] == p[0] + 1 {
            assert [p[0] + 1][1..] == [];
            assert StrLe(k, [p[0] + 1]) ==> k[1..] == [];
          }
      }
    }
  }

  lemma {:induction false} BoundAfterCarry(p: Str, i: nat)
    requires i <= |p| && forall j | i <= j < |p| :: p[j] == 255
    ensures i == 0 ==> PrefixBound(p) == Unbounded
    ensures i > 0 && p[i - 1] != 255 ==> PrefixBound(p) == Below(p[..i - 1] + [p[i - 1] + 1])
    decreases |p|
  {
    if p != [] {
      BoundAfterCarry(p[1..], if i == 0 then 0 else i - 1);
      if i > 1 && p[i - 1] != 255 {
        assert p[1..][..i - 2] == p[1..i - 1];
        assert p[..i - 1] == [p[0]] + p[1..i - 1];
      } else if i == 1 {
        assert p[..0] == [];
      }
    }
  }

  lemma BoundIsExact(prefix: Str)
    ensures forall k :: InRange(k, prefix, PrefixBound(prefix)) <==> HasPrefix(k, prefix)
  {
    forall k ensures InRange(k, prefix, PrefixBound(prefix)) <==> HasPrefix(k, prefix) {
      RangeIsPrefix(k, prefix);
    }
  }

  /** The loop that increments the last byte of a copy and carries leftwards on overflow. */
  method PrefixEnd(prefix: Str) returns (end: Bound)
    ensures forall k :: InRange(k, prefix, end) <==> HasPrefix(k, prefix)
  {
    BoundIsExact(prefix);
    hide InRange, HasPrefix, PrefixBound;
    var buf := new byte[|prefix|](i requires 0 <= i < |prefix| => prefix[i]);
    var i := buf.Length;
    while i > 0
      invariant 0 <= i <= buf.Length == |prefix|
      invariant forall j | 0 <= j < i :: buf[j] == prefix[j]
      invariant forall j | i <= j < |prefix| :: prefix[j] == 255
    {
      i := i - 1;
      buf[i] := if buf[i] == 255 then 0 else buf[i] + 1;
      if buf[i] != 0 {
        BoundAfterCarry(prefix, i + 1);
        assert buf[..i + 1] == prefix[..i] + [prefix[i] + 1];
        return Below(buf[..i + 1]);
      }
    }
    BoundAfterCarry(prefix, 0);
    return Unbounded;
  }
}
