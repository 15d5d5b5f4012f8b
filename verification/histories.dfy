/** What is last said about one record: a run seen as a row of marks, one for each
    transaction, of which the last one that is not silent counts. */
module Histories {

  datatype Mark<+T> = Sets(value: T) | Clears | Keeps

  function Latest<T>(marks: seq<Mark<T>>): Mark<T> {
    if marks == [] then Clears
    else if !marks[|marks| - 1].Keeps? then marks[|marks| - 1]
    else Latest(marks[..|marks| - 1])
  }

  /** The mark at `i` is the last that is not silent. */
  ghost predicate IsLast<T(!new)>(marks: seq<Mark<T>>, i: int) {
    0 <= i < |marks| && !marks[i].Keeps? && forall j | i < j < |marks| :: marks[j].Keeps?
  }

  lemma {:induction false} LatestIs<T(!new)>(marks: seq<Mark<T>>)
    ensures !Latest(marks).Keeps?
    ensures forall i :: IsLast(marks, i) ==> Latest(marks) == marks[i]
    ensures Latest(marks).Sets? ==> exists i :: IsLast(marks, i) && marks[i] == Latest(marks)
  {
    if marks != [] {
      var n := |marks| - 1;
      LatestIs(marks[..n]);
      if marks[n].Keeps? {
        forall i | IsLast(marks, i) ensures Latest(marks) == marks[i] {
          assert i < n && IsLast(marks[..n], i);
        }
        if Latest(marks).Sets? {
          var i :| IsLast(marks[..n], i) && marks[..n][i] == Latest(marks[..n]);
          assert IsLast(marks, i) && marks[i] == Latest(marks);
        }
      } else {
        assert IsLast(marks, n);
        forall i | IsLast(marks, i) ensures i == n {
        }
      }
    }
  }

  lemma LatestMore<T>(marks: seq<Mark<T>>, m: Mark<T>)
    ensures Latest(marks + [m]) == if m.Keeps? then Latest(marks) else m
  {
    assert (marks + [m])[..|marks|] == marks;
  }

  // ----- the marks of a run -----

  /** One mark for each transaction, made in the state that the transaction meets. */
  ghost function Marks<S, X, K, T>(run: seq<X> -> S, txs: seq<X>, k: K, mark: (S, X, K) -> Mark<T>): (r: seq<Mark<T>>)
    ensures |r| == |txs|
  {
    seq(|txs|, i requires 0 <= i < |txs| => mark(run(txs[..i]), txs[i], k))
  }

  ghost function Told<S, X, K, T>(run: seq<X> -> S, txs: seq<X>, k: K, mark: (S, X, K) -> Mark<T>): Mark<T> {
    Latest(Marks(run, txs, k, mark))
  }

  function After<T>(was: Mark<T>, now: Mark<T>): Mark<T> {
    if now.Keeps? then was else now
  }

  lemma ToldMore<S, X, K, T>(run: seq<X> -> S, txs: seq<X>, k: K, mark: (S, X, K) -> Mark<T>)
    requires txs != []
    ensures var before, tx := txs[..|txs| - 1], txs[|txs| - 1];
      Told(run, txs, k, mark) == After(Told(run, before, k, mark), mark(run(before), tx, k))
  {
    hide Latest;
    var before, tx := txs[..|txs| - 1], txs[|txs| - 1];
    var m := mark(run(before), tx, k);
    forall i | 0 <= i < |before| ensures Marks(run, txs, k, mark)[i] == Marks(run, before, k, mark)[i] {
      assert before[..i] == txs[..i];
    }
    assert Marks(run, txs, k, mark) == Marks(run, before, k, mark) + [m];
    LatestMore(Marks(run, before, k, mark), m);
  }

  lemma ToldNothing<S, X, K, T>(run: seq<X> -> S, k: K, mark: (S, X, K) -> Mark<T>)
    ensures Told(run, [], k, mark) == Clears
  {
  }

  /** The transaction that has the last word, if it is one that sets. */
  ghost predicate SetBy<S, X, K, T>(run: seq<X> -> S, txs: seq<X>, i: int, k: K, mark: (S, X, K) -> Mark<T>) {
    && 0 <= i < |txs| && mark(run(txs[..i]), txs[i], k).Sets?
    && forall j | i < j < |txs| :: mark(run(txs[..j]), txs[j], k).Keeps?
  }

  lemma ToldBy<S, X, K, T(!new)>(run: seq<X> -> S, txs: seq<X>, k: K, mark: (S, X, K) -> Mark<T>)
    ensures Told(run, txs, k, mark).Sets? ==>
      exists i :: SetBy(run, txs, i, k, mark) && Told(run, txs, k, mark) == mark(run(txs[..i]), txs[i], k)
    ensures forall i :: SetBy(run, txs, i, k, mark) ==> Told(run, txs, k, mark) == mark(run(txs[..i]), txs[i], k)
  {
    hide Latest;
    var marks := Marks(run, txs, k, mark);
    LatestIs(marks);
    forall i | SetBy(run, txs, i, k, mark) ensures Told(run, txs, k, mark) == mark(run(txs[..i]), txs[i], k) {
      assert forall j | i < j < |txs| :: marks[j] == mark(run(txs[..j]), txs[j], k);
      assert IsLast(marks, i);
    }
    if Told(run, txs, k, mark).Sets? {
      var i :| IsLast(marks, i) && marks[i] == Latest(marks);
      assert forall j | i < j < |txs| :: marks[j] == mark(run(txs[..j]), txs[j], k);
      assert SetBy(run, txs, i, k, mark);
    }
  }
}
