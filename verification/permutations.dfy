/** Sequences as multisets: what taking out one element or mapping every element does. */
module Permutations {

  lemma SameElements<T>(a: seq<T>, b: seq<T>)
    requires multiset(a) == multiset(b)
    ensures forall x :: x in a <==> x in b
  {
    assert forall x :: x in a <==> x in multiset(a);
    assert forall x :: x in b <==> x in multiset(b);
  }

  lemma TakeFirst<T>(s: seq<T>)
    requires s != []
    ensures multiset(s) == multiset(s[1..]) + multiset{s[0]}
  {
    assert s == [s[0]] + s[1..];
  }

  function Mapped<A, B>(f: A -> B, s: seq<A>): (r: seq<B>)
    ensures |r| == |s|
  {
    seq(|s|, i requires 0 <= i < |s| => f(s[i]))
  }

  lemma TakeOut<T>(s: seq<T>, k: nat)
    requires k < |s|
    ensures multiset(s) == multiset(s[..k] + s[k + 1..]) + multiset{s[k]}
  {
    assert s == s[..k] + [s[k]] + s[k + 1..];
  }

  /** The same element taken out of both, wherever it stood. */
  lemma TakeOutBoth<T>(a: seq<T>, b: seq<T>, k: nat)
    requires a != [] && k < |b| && b[k] == a[0] && multiset(a) == multiset(b)
    ensures multiset(a[1..]) == multiset(b[..k] + b[k + 1..])
  {
    TakeFirst(a);
    TakeOut(b, k);
    SameRest(multiset(a[1..]), multiset(b[..k] + b[k + 1..]), a[0]);
  }

  lemma SameRest<T>(a: multiset<T>, b: multiset<T>, x: T)
    requires a + multiset{x} == b + multiset{x}
    ensures a == b
  {
    assert a == a + multiset{x} - multiset{x};
    assert b == b + multiset{x} - multiset{x};
  }

  lemma MappedWithout<A, B>(f: A -> B, s: seq<A>, k: nat)
    requires k < |s|
    ensures Mapped(f, s[..k] + s[k + 1..]) == Mapped(f, s)[..k] + Mapped(f, s)[k + 1..]
  {
  }

  lemma {:induction false} MapPermutes<A, B>(f: A -> B, a: seq<A>, b: seq<A>)
    requires multiset(a) == multiset(b)
    ensures multiset(Mapped(f, a)) == multiset(Mapped(f, b))
    decreases |a|
  {
    hide Mapped;
    if a == [] {
      NothingMapped(f, a, b);
    } else {
      SameElements(a, b);
      assert a[0] in b;
      var k :| 0 <= k < |b| && b[k] == a[0];
      TakeOutBoth(a, b, k);
      MapPermutes(f, a[1..], b[..k] + b[k + 1..]);
      MappedOut(f, a, 0);
      MappedOut(f, b, k);
      assert a[..0] + a[1..] == a[1..];
    }
  }

  lemma NothingMapped<A, B>(f: A -> B, a: seq<A>, b: seq<A>)
    requires a == [] && multiset(a) == multiset(b)
    ensures Mapped(f, a) == Mapped(f, b)
  {
    assert |multiset(b)| == |b|;
  }

  /** One element of the image less, one element of the sequence less. */
  lemma MappedOut<A, B>(f: A -> B, s: seq<A>, k: nat)
    requires k < |s|
    ensures multiset(Mapped(f, s)) == multiset(Mapped(f, s[..k] + s[k + 1..])) + multiset{f(s[k])}
  {
    MappedWithout(f, s, k);
    TakeOut(Mapped(f, s), k);
  }

  /** And back, when no two of the elements share an image. */
  lemma {:induction false} MapReflects<A, B>(f: A -> B, a: seq<A>, b: seq<A>)
    requires multiset(Mapped(f, a)) == multiset(Mapped(f, b))
    requires forall x, y | (x in a || x in b) && (y in a || y in b) && f(x) == f(y) :: x == y
    ensures multiset(a) == multiset(b)
    decreases |a|
  {
    var ma, mb := Mapped(f, a), Mapped(f, b);
    assert |multiset(ma)| == |a| && |multiset(mb)| == |b|;
    if a != [] {
      assert ma[0] in multiset(ma) && ma[0] in multiset(mb);
      var k :| 0 <= k < |mb| && mb[k] == ma[0];
      assert b[k] in b && a[0] in a && b[k] == a[0];
      hide Mapped;
      MappedOut(f, a, 0);
      MappedOut(f, b, k);
      assert a[..0] + a[1..] == a[1..];
      SameRest(multiset(Mapped(f, a[1..])), multiset(Mapped(f, b[..k] + b[k + 1..])), f(a[0]));
      MapReflects(f, a[1..], b[..k] + b[k + 1..]);
      TakeFirst(a);
      TakeOut(b, k);
    }
  }
}
