/** The stable sort that models LINQ's `OrderBy` / `OrderByDescending`:
    insertion sort driven by a "sorts before or equal" function. */
module Sorting {

  ghost predicate TotalRelation<T(!new)>(leq: (T, T) -> bool) {
    forall x, y :: leq(x, y) || leq(y, x)
  }

  ghost predicate Transitive<T(!new)>(leq: (T, T) -> bool) {
    forall x, y, z :: leq(x, y) && leq(y, z) ==> leq(x, z)
  }

  ghost predicate TotalPreorder<T(!new)>(leq: (T, T) -> bool) {
    TotalRelation(leq) && Transitive(leq)
  }

  ghost predicate SortedBy<T>(xs: seq<T>, leq: (T, T) -> bool) {
    forall i, j :: 0 <= i < j < |xs| ==> leq(xs[i], xs[j])
  }

  /** Inserts `x` before the first element it sorts before or equal to */
  function Insert<T>(x: T, xs: seq<T>, leq: (T, T) -> bool): (r: seq<T>)
    ensures |r| == |xs| + 1
    ensures multiset(r) == multiset(xs) + multiset{x}
  {
    if |xs| == 0 then [x]
    else if leq(x, xs[0]) then [x] + xs
    else
      assert xs == [xs[0]] + xs[1..];
      [xs[0]] + Insert(x, xs[1..], leq)
  }

  /** Sorts `xs`; elements that compare equal keep their input order */
  function Sort<T>(xs: seq<T>, leq: (T, T) -> bool): (r: seq<T>)
    ensures |r| == |xs|
    ensures multiset(r) == multiset(xs)
  {
    if |xs| == 0 then []
    else
      assert xs == [xs[0]] + xs[1..];
      Insert(xs[0], Sort(xs[1..], leq), leq)
  }

  lemma {:induction false} InsertSorted<T(!new)>(x: T, xs: seq<T>, leq: (T, T) -> bool)
    requires TotalPreorder(leq)
    requires SortedBy(xs, leq)
    ensures SortedBy(Insert(x, xs, leq), leq)
    decreases |xs|
  {
    if |xs| > 0 && !leq(x, xs[0]) {
      InsertSorted(x, xs[1..], leq);
      var r := Insert(x, xs, leq);
      var tail := Insert(x, xs[1..], leq);
      assert r == [xs[0]] + tail;
      assert leq(xs[0], x);
      forall k | 0 <= k < |tail|
        ensures leq(xs[0], tail[k])
      {
        assert tail[k] in multiset(tail);
        assert tail[k] == x || tail[k] in multiset(xs[1..]);
        if tail[k] != x {
          assert tail[k] in xs[1..];
          var m :| 0 <= m < |xs[1..]| && xs[1..][m] == tail[k];
          assert leq(xs[0], xs[m + 1]);
        }
      }
    }
  }

  /** The sort orders its output whenever `leq` is a total preorder */
  lemma {:induction false} SortSorted<T(!new)>(xs: seq<T>, leq: (T, T) -> bool)
    requires TotalPreorder(leq)
    ensures SortedBy(Sort(xs, leq), leq)
    decreases |xs|
  {
    if |xs| > 0 {
      SortSorted(xs[1..], leq);
      InsertSorted(xs[0], Sort(xs[1..], leq), leq);
    }
  }

  // ---------------------------------------------------------------------
  // Stability

  /** `a` and `b` compare equal: each sorts before or equal to the other */
  predicate Tied<T>(leq: (T, T) -> bool, a: T, b: T) {
    leq(a, b) && leq(b, a)
  }

  /** The elements of `xs` that tie with `y`, in the order of `xs` */
  function TiesOf<T>(xs: seq<T>, y: T, leq: (T, T) -> bool): seq<T> {
    if |xs| == 0 then []
    else (if Tied(leq, xs[0], y) then [xs[0]] else []) + TiesOf(xs[1..], y, leq)
  }

  lemma TiesOfCons<T>(x: T, xs: seq<T>, y: T, leq: (T, T) -> bool)
    ensures TiesOf([x] + xs, y, leq) == TiesOf([x], y, leq) + TiesOf(xs, y, leq)
  {
    assert ([x] + xs)[1..] == xs;
    assert [x][1..] == [];
  }

  /** Inserting puts `x` after every element it ties with */
  lemma {:induction false} InsertStable<T(!new)>(x: T, xs: seq<T>, y: T, leq: (T, T) -> bool)
    requires TotalPreorder(leq)
    ensures TiesOf(Insert(x, xs, leq), y, leq) == TiesOf([x], y, leq) + TiesOf(xs, y, leq)
    decreases |xs|
  {
    if |xs| == 0 {
      assert TiesOf(xs, y, leq) == [];
    } else if leq(x, xs[0]) {
      TiesOfCons(x, xs, y, leq);
    } else {
      var head := xs[0];
      InsertStable(x, xs[1..], y, leq);
      TiesOfCons(head, Insert(x, xs[1..], leq), y, leq);
      TiesOfCons(head, xs[1..], y, leq);
      assert xs == [head] + xs[1..];
      // a tie of both with `y` would give leq(x, head) by transitivity
      assert Tied(leq, x, y) ==> !Tied(leq, head, y);
    }
  }

  /** The sort is stable: the elements that tie with any `y` come out in
      their input order */
  lemma {:induction false} SortStable<T(!new)>(xs: seq<T>, y: T, leq: (T, T) -> bool)
    requires TotalPreorder(leq)
    ensures TiesOf(Sort(xs, leq), y, leq) == TiesOf(xs, y, leq)
    decreases |xs|
  {
    if |xs| > 0 {
      SortStable(xs[1..], y, leq);
      InsertStable(xs[0], Sort(xs[1..], leq), y, leq);
      TiesOfCons(xs[0], xs[1..], y, leq);
      assert xs == [xs[0]] + xs[1..];
    }
  }

  // ---------------------------------------------------------------------
  // Column sums over a sequence (`Sum(e => ...)`)

  function SumOf<T>(xs: seq<T>, f: T -> int): int {
    if |xs| == 0 then 0 else f(xs[0]) + SumOf(xs[1..], f)
  }

  lemma {:induction false} SumOfAppend<T>(a: seq<T>, b: seq<T>, f: T -> int)
    ensures SumOf(a + b, f) == SumOf(a, f) + SumOf(b, f)
    decreases |a|
  {
    if |a| > 0 {
      assert (a + b)[1..] == a[1..] + b;
      SumOfAppend(a[1..], b, f);
    } else {
      assert a + b == b;
    }
  }

  /** A sum does not depend on the order of its terms */
  lemma {:induction false} SumOfPermutation<T>(xs: seq<T>, ys: seq<T>, f: T -> int)
    requires multiset(xs) == multiset(ys)
    ensures SumOf(xs, f) == SumOf(ys, f)
    decreases |xs|
  {
    if |xs| == 0 {
      assert |ys| == |multiset(ys)| == 0;
    } else {
      var x := xs[0];
      assert x in multiset(ys);
      var k :| 0 <= k < |ys| && ys[k] == x;
      var pre, post := ys[..k], ys[k + 1..];
      assert ys == pre + [x] + post;
      assert xs == [x] + xs[1..];
      MultisetSplit(xs[1..], pre, post, x);
      SumOfPermutation(xs[1..], pre + post, f);
      SumOfAppend(pre, post, f);
      SumOfAppend(pre + [x], post, f);
      SumOfAppend(pre, [x], f);
    }
  }

  lemma MultisetSplit<T>(tail: seq<T>, pre: seq<T>, post: seq<T>, x: T)
    requires multiset([x] + tail) == multiset(pre + [x] + post)
    ensures multiset(tail) == multiset(pre + post)
  {
    assert multiset([x] + tail) == multiset{x} + multiset(tail);
    assert multiset(pre + [x] + post) == multiset(pre) + multiset{x} + multiset(post);
    assert multiset(pre + post) == multiset(pre) + multiset(post);
    assert multiset(tail) == multiset([x] + tail) - multiset{x};
    assert multiset(pre + post) == multiset(pre + [x] + post) - multiset{x};
  }

  /** Sorting never changes a column sum */
  lemma SortKeepsSum<T>(xs: seq<T>, leq: (T, T) -> bool, f: T -> int)
    ensures SumOf(Sort(xs, leq), f) == SumOf(xs, f)
  {
    SumOfPermutation(Sort(xs, leq), xs, f);
  }
}
