/** Array.prototype.filter and sums over lists, with the facts the core's
    list updates rely on. */
module Seqs {

  /** xs.filter(keep) */
  function Filter<T(!new)>(xs: seq<T>, keep: T -> bool): (r: seq<T>)
    ensures |r| <= |xs|
    ensures forall i :: 0 <= i < |r| ==> keep(r[i])
    ensures forall x :: x in r <==> x in xs && keep(x)
  {
    if xs == [] then []
    else if keep(xs[0]) then [xs[0]] + Filter(xs[1..], keep)
    else Filter(xs[1..], keep)
  }

  /** Filtering works piecewise, so the kept elements stay in their order. */
  lemma {:induction false} FilterAppend<T(!new)>(a: seq<T>, b: seq<T>, keep: T -> bool)
    ensures Filter(a + b, keep) == Filter(a, keep) + Filter(b, keep)
  {
    if a == [] {
      assert a + b == b;
    } else {
      assert (a + b)[1..] == a[1..] + b;
      FilterAppend(a[1..], b, keep);
    }
  }

  /** A filter that keeps everything changes nothing. */
  lemma {:induction false} FilterAllKept<T(!new)>(xs: seq<T>, keep: T -> bool)
    requires forall i :: 0 <= i < |xs| ==> keep(xs[i])
    ensures Filter(xs, keep) == xs
  {
    if xs != [] {
      FilterAllKept(xs[1..], keep);
    }
  }

  /** A filter that keeps everything but one element drops just that one. */
  lemma FilterDropsOne<T(!new)>(a: seq<T>, x: T, b: seq<T>, keep: T -> bool)
    requires forall i :: 0 <= i < |a| ==> keep(a[i])
    requires forall i :: 0 <= i < |b| ==> keep(b[i])
    requires !keep(x)
    ensures Filter(a + [x] + b, keep) == a + b
  {
    FilterAllKept(a, keep);
    FilterAllKept(b, keep);
    FilterAppend(a + [x], b, keep);
    FilterAppend(a, [x], keep);
    calc {
      Filter(a + [x] + b, keep);
      Filter(a, keep) + Filter([x], keep) + Filter(b, keep);
      { assert [x][1..] == []; }
      a + [] + b;
      { assert a + [] == a; }
      a + b;
    }
  }

  /** The number of elements a filter drops is the number that fail it. */
  function CountIf<T(!new)>(xs: seq<T>, p: T -> bool): (n: nat)
    ensures n <= |xs|
  {
    if xs == [] then 0 else (if p(xs[0]) then 1 else 0) + CountIf(xs[1..], p)
  }

  lemma {:induction false} FilterLength<T(!new)>(xs: seq<T>, keep: T -> bool)
    ensures |Filter(xs, keep)| == CountIf(xs, keep)
  {
    if xs != [] {
      FilterLength(xs[1..], keep);
    }
  }

  /** xs.findIndex(p): the first index whose element satisfies p, or -1. */
  function FindIndex<T>(xs: seq<T>, p: T -> bool): (r: int)
    ensures -1 <= r < |xs|
    ensures r >= 0 ==> p(xs[r]) && forall j :: 0 <= j < r ==> !p(xs[j])
    ensures r == -1 ==> forall j :: 0 <= j < |xs| ==> !p(xs[j])
  {
    if xs == [] then -1
    else if p(xs[0]) then 0
    else var t := FindIndex(xs[1..], p); if t == -1 then -1 else t + 1
  }

  /** The last index whose element satisfies p, or -1: where a loop that
      stores every matching element in the same slot leaves the last one. */
  function FindLastIndex<T>(xs: seq<T>, p: T -> bool): (r: int)
    ensures -1 <= r < |xs|
    ensures r >= 0 ==> p(xs[r]) && forall j :: r < j < |xs| ==> !p(xs[j])
    ensures r == -1 ==> forall j :: 0 <= j < |xs| ==> !p(xs[j])
    decreases |xs|
  {
    if xs == [] then -1
    else if p(xs[|xs| - 1]) then |xs| - 1
    else FindLastIndex(xs[..|xs| - 1], p)
  }

  /** The first index where p holds is the one FindIndex returns. */
  lemma FindIndexIs<T>(xs: seq<T>, p: T -> bool, i: nat)
    requires i < |xs| && p(xs[i])
    requires forall j :: 0 <= j < i ==> !p(xs[j])
    ensures FindIndex(xs, p) == i
  {
  }

  /** Concatenation regrouped, for proofs whose terms are too large for
      the solver to regroup unaided. */
  lemma AppendAssoc<T>(a: seq<T>, b: seq<T>, c: seq<T>)
    ensures (a + b) + c == a + (b + c)
  {
  }

  /** ys and xs have the same length and rel holds of their elements at
      each position. */
  ghost predicate Pointwise<A, B>(ys: seq<B>, xs: seq<A>, rel: (B, A) -> bool) {
    |ys| == |xs| && forall k :: 0 <= k < |xs| ==> rel(ys[k], xs[k])
  }

  lemma PointwiseAppend<A, B>(ys1: seq<B>, xs1: seq<A>, ys2: seq<B>, xs2: seq<A>, rel: (B, A) -> bool)
    requires Pointwise(ys1, xs1, rel) && Pointwise(ys2, xs2, rel)
    ensures Pointwise(ys1 + ys2, xs1 + xs2, rel)
  {
    forall k | 0 <= k < |xs1 + xs2|
      ensures rel((ys1 + ys2)[k], (xs1 + xs2)[k])
    {
      if k < |xs1| {
        assert (xs1 + xs2)[k] == xs1[k] && (ys1 + ys2)[k] == ys1[k];
      } else {
        assert (xs1 + xs2)[k] == xs2[k - |xs1|] && (ys1 + ys2)[k] == ys2[k - |ys1|];
      }
    }
  }

  /** before orders any two elements one way or the other and chains. */
  ghost predicate TotalPreorder<T(!new)>(before: (T, T) -> bool) {
    && (forall a, b :: before(a, b) || before(b, a))
    && (forall a, b, c :: before(a, b) && before(b, c) ==> before(a, c))
  }

  /** Every element comes before every later one. */
  ghost predicate SortedBy<T>(xs: seq<T>, before: (T, T) -> bool) {
    forall i, j :: 0 <= i < j < |xs| ==> before(xs[i], xs[j])
  }

  /** x placed in front of the first element that does not come before
      it, so that x follows every element it ties with. */
  function InsertBy<T>(x: T, xs: seq<T>, before: (T, T) -> bool): (r: seq<T>)
    ensures multiset(r) == multiset(xs) + multiset{x}
    ensures |r| == |xs| + 1
  {
    if xs == [] then [x]
    else if !before(xs[0], x) then [x] + xs
    else
      assert xs == [xs[0]] + xs[1..];
      [xs[0]] + InsertBy(x, xs[1..], before)
  }

  /** Insertion sort under before, taking the elements in their order: a
      rearrangement of xs. */
  function SortBy<T>(xs: seq<T>, before: (T, T) -> bool): (r: seq<T>)
    ensures multiset(r) == multiset(xs)
    ensures |r| == |xs|
    decreases |xs|
  {
    if xs == [] then []
    else
      assert xs == xs[..|xs| - 1] + [xs[|xs| - 1]];
      InsertBy(xs[|xs| - 1], SortBy(xs[..|xs| - 1], before), before)
  }

  /** An element before all of a sorted list can head it. */
  lemma ConsSorted<T>(h: T, rest: seq<T>, before: (T, T) -> bool)
    requires SortedBy(rest, before)
    requires forall y :: y in rest ==> before(h, y)
    ensures SortedBy([h] + rest, before)
  {
    var r := [h] + rest;
    forall i, j | 0 <= i < j < |r| ensures before(r[i], r[j]) {
      assert r[j] == rest[j - 1];
      if i > 0 {
        assert r[i] == rest[i - 1];
      }
    }
  }

  /** The tail of a sorted list is sorted. */
  lemma SortedTail<T>(xs: seq<T>, before: (T, T) -> bool)
    requires xs != [] && SortedBy(xs, before)
    ensures SortedBy(xs[1..], before)
  {
    var tail := xs[1..];
    forall i, j | 0 <= i < j < |tail| ensures before(tail[i], tail[j]) {
      assert tail[i] == xs[i + 1] && tail[j] == xs[j + 1];
    }
  }

  /** The head of a sorted list comes before each of its elements. */
  lemma SortedHead<T(!new)>(xs: seq<T>, before: (T, T) -> bool, y: T)
    requires TotalPreorder(before) && xs != [] && SortedBy(xs, before) && y in xs
    ensures before(xs[0], y)
  {
    var k :| 0 <= k < |xs| && xs[k] == y;
    if k > 0 {
      assert before(xs[0], xs[k]);
    }
  }

  lemma {:induction false} InsertBySorted<T(!new)>(x: T, xs: seq<T>, before: (T, T) -> bool)
    requires TotalPreorder(before) && SortedBy(xs, before)
    ensures SortedBy(InsertBy(x, xs, before), before)
    decreases |xs|
  {
    if xs == [] {
    } else if !before(xs[0], x) {
      assert before(x, xs[0]);
      forall y | y in xs ensures before(x, y) {
        SortedHead(xs, before, y);
      }
      ConsSorted(x, xs, before);
    } else {
      var tail := xs[1..];
      SortedTail(xs, before);
      InsertBySorted(x, tail, before);
      var rest := InsertBy(x, tail, before);
      forall y | y in rest ensures before(xs[0], y) {
        assert y in multiset(rest);
        if y != x {
          assert y in multiset(tail);
          var k :| 0 <= k < |tail| && tail[k] == y;
          assert xs[k + 1] == y;
        }
      }
      ConsSorted(xs[0], rest, before);
    }
  }

  /** Sorting a list leaves every element before every later one. */
  lemma {:induction false} SortBySorted<T(!new)>(xs: seq<T>, before: (T, T) -> bool)
    requires TotalPreorder(before)
    ensures SortedBy(SortBy(xs, before), before)
    decreases |xs|
  {
    if xs != [] {
      SortBySorted(xs[..|xs| - 1], before);
      InsertBySorted(xs[|xs| - 1], SortBy(xs[..|xs| - 1], before), before);
    }
  }

  /** The elements that tie with a: each comes before a and a before it. */
  function TiesWith<T>(before: (T, T) -> bool, a: T): T -> bool {
    (y: T) => Tied(before, a, y)
  }

  predicate Tied<T>(before: (T, T) -> bool, a: T, y: T) {
    before(a, y) && before(y, a)
  }

  /** Whatever comes before an element tied with x comes before x. */
  lemma NotTied<T(!new)>(before: (T, T) -> bool, a: T, x: T, y: T, z: T)
    requires TotalPreorder(before) && Tied(before, a, x) && before(z, y) && !before(z, x)
    ensures !Tied(before, a, y)
  {
  }

  /** Inserting x into a sorted list puts it after every element it ties
      with: the elements tied with any a keep their order, x last among
      them. */
  lemma {:induction false} InsertByTies<T(!new)>(x: T, xs: seq<T>, before: (T, T) -> bool, a: T)
    requires TotalPreorder(before) && SortedBy(xs, before)
    ensures Filter(InsertBy(x, xs, before), TiesWith(before, a))
            == Filter(xs, TiesWith(before, a)) + (if Tied(before, a, x) then [x] else [])
    decreases |xs|
  {
    var p := TiesWith(before, a);
    if xs == [] {
      assert Filter([x], p) == (if p(x) then [x] else []) + Filter([x][1..], p);
    } else if !before(xs[0], x) {
      var r := [x] + xs;
      assert r[1..] == xs;
      if p(x) {
        forall i | 0 <= i < |xs| ensures !p(xs[i]) {
          SortedHead(xs, before, xs[i]);
          NotTied(before, a, x, xs[i], xs[0]);
        }
        FilterNoneKept(xs, p);
      }
    } else {
      var tail := xs[1..];
      SortedTail(xs, before);
      InsertByTies(x, tail, before, a);
      var r := [xs[0]] + InsertBy(x, tail, before);
      assert r[1..] == InsertBy(x, tail, before);
      AppendAssoc(if p(xs[0]) then [xs[0]] else [], Filter(tail, p), if Tied(before, a, x) then [x] else []);
    }
  }

  /** The sort is stable: for every a, the elements tied with a come out
      in the order they went in. */
  lemma {:induction false} SortByStable<T(!new)>(xs: seq<T>, before: (T, T) -> bool, a: T)
    requires TotalPreorder(before)
    ensures Filter(SortBy(xs, before), TiesWith(before, a)) == Filter(xs, TiesWith(before, a))
    decreases |xs|
  {
    if xs != [] {
      var init, last := xs[..|xs| - 1], xs[|xs| - 1];
      SortByStable(init, before, a);
      SortBySorted(init, before);
      InsertByTies(last, SortBy(init, before), before, a);
      FilterSnoc(init, last, TiesWith(before, a));
      SnocIsWhole(xs);
    }
  }

  /** A filter keeps a pairwise relation between earlier and later
      elements: it only drops elements. */
  lemma {:induction false} FilterKeepsSorted<T(!new)>(xs: seq<T>, keep: T -> bool, rel: (T, T) -> bool)
    requires SortedBy(xs, rel)
    ensures SortedBy(Filter(xs, keep), rel)
  {
    if xs != [] {
      var tail := xs[1..];
      assert SortedBy(tail, rel) by {
        forall i, j | 0 <= i < j < |tail| ensures rel(tail[i], tail[j]) {
          assert tail[i] == xs[i + 1] && tail[j] == xs[j + 1];
        }
      }
      FilterKeepsSorted(tail, keep, rel);
      if keep(xs[0]) {
        forall y | y in Filter(tail, keep) ensures rel(xs[0], y) {
          var k :| 0 <= k < |tail| && tail[k] == y;
          assert xs[k + 1] == y;
        }
        ConsSorted(xs[0], Filter(tail, keep), rel);
      }
    }
  }

  /** The sum of f over a list, element after element. */
  function SumOf<T>(xs: seq<T>, f: T -> real): real
    decreases |xs|
  {
    if xs == [] then 0.0 else SumOf(xs[..|xs| - 1], f) + f(xs[|xs| - 1])
  }

  lemma SumOfSnoc<T>(xs: seq<T>, x: T, f: T -> real)
    ensures SumOf(xs + [x], f) == SumOf(xs, f) + f(x)
  {
    assert (xs + [x])[..|xs|] == xs;
  }

  /** Replacing one element changes the sum by the difference. */
  lemma {:induction false} SumOfUpdate<T>(xs: seq<T>, i: nat, x: T, f: T -> real)
    requires i < |xs|
    ensures SumOf(xs[i := x], f) == SumOf(xs, f) - f(xs[i]) + f(x)
    decreases |xs|
  {
    var n := |xs| - 1;
    assert xs[i := x][..n] == if i == n then xs[..n] else xs[..n][i := x];
    if i < n {
      SumOfUpdate(xs[..n], i, x, f);
    }
  }

  /** Filtering a list with one more element. */
  lemma FilterSnoc<T(!new)>(xs: seq<T>, x: T, keep: T -> bool)
    ensures Filter(xs + [x], keep) == Filter(xs, keep) + (if keep(x) then [x] else [])
  {
    FilterAppend(xs, [x], keep);
    assert [x][1..] == [];
  }

  /** A filter that keeps nothing gives the empty list. */
  lemma FilterNoneKept<T(!new)>(xs: seq<T>, keep: T -> bool)
    requires forall i :: 0 <= i < |xs| ==> !keep(xs[i])
    ensures Filter(xs, keep) == []
  {
  }

  /** The left fold: f applied to the accumulator and each element in
      turn. */
  function FoldLeft<A, B>(acc: B, xs: seq<A>, f: (B, A) -> B): B
    decreases |xs|
  {
    if xs == [] then acc else FoldLeft(f(acc, xs[0]), xs[1..], f)
  }

  /** One step of a loop computing a left fold over xs[j..]. */
  lemma FoldLeftStep<A, B>(acc: B, xs: seq<A>, j: nat, f: (B, A) -> B, next: B)
    requires j < |xs| && next == f(acc, xs[j])
    ensures FoldLeft(next, xs[j + 1..], f) == FoldLeft(acc, xs[j..], f)
  {
    assert xs[j..][1..] == xs[j + 1..];
  }

  /** When g is computed element by element with f, folding more elements
      into g(done) gives g of the longer list. */
  lemma {:induction false} FoldLeftAfter<A, B>(g: seq<A> -> B, f: (B, A) -> B, done: seq<A>, xs: seq<A>)
    requires forall ys: seq<A>, x: A :: g(ys + [x]) == f(g(ys), x)
    ensures FoldLeft(g(done), xs, f) == g(done + xs)
    decreases |xs|
  {
    if xs != [] {
      assert g(done + [xs[0]]) == f(g(done), xs[0]);
      FoldLeftAfter(g, f, done + [xs[0]], xs[1..]);
      HeadMoved(done, xs);
    } else {
      assert done + xs == done;
    }
  }

  /** Moving the first element of a non-empty tail onto the head. */
  lemma HeadMoved<T>(head: seq<T>, xs: seq<T>)
    requires xs != []
    ensures (head + [xs[0]]) + xs[1..] == head + xs
  {
    assert xs == [xs[0]] + xs[1..];
  }

  /** A non-empty list is its front followed by its last element. */
  lemma SnocIsWhole<T>(xs: seq<T>)
    requires xs != []
    ensures xs[..|xs| - 1] + [xs[|xs| - 1]] == xs
  {
  }

  /** A sum over a concatenation is the sum of the sums. */
  lemma {:induction false} SumOfAppend<T>(a: seq<T>, b: seq<T>, f: T -> real)
    ensures SumOf(a + b, f) == SumOf(a, f) + SumOf(b, f)
    decreases |b|
  {
    if b != [] {
      var b' := b[..|b| - 1];
      assert (a + b)[..|a + b| - 1] == a + b';
      SumOfAppend(a, b', f);
    } else {
      assert a + b == a;
    }
  }

  /** A list is its part before j, its element at j and its part after. */
  lemma SplitAround<T>(xs: seq<T>, j: nat)
    requires j < |xs|
    ensures xs == (xs[..j] + [xs[j]]) + xs[j + 1..]
  {
    assert xs[..j + 1] == xs[..j] + [xs[j]];
    assert xs == xs[..j + 1] + xs[j + 1..];
  }

  /** A sum with one element taken out. */
  lemma SumOfRemove<T>(xs: seq<T>, j: nat, f: T -> real)
    requires j < |xs|
    ensures SumOf(xs, f) == SumOf(xs[..j] + xs[j + 1..], f) + f(xs[j])
  {
    var pre, x, post := xs[..j], xs[j], xs[j + 1..];
    SplitAround(xs, j);
    SumOfAppend(pre + [x], post, f);
    SumOfSnoc(pre, x, f);
    SumOfAppend(pre, post, f);
  }

  /** Rearranging a list does not change its sum. */
  lemma {:induction false} SumOfPermutation<T>(a: seq<T>, b: seq<T>, f: T -> real)
    requires multiset(a) == multiset(b)
    ensures SumOf(a, f) == SumOf(b, f)
    decreases |a|
  {
    if a == [] {
      assert |b| == |multiset(b)| == 0;
    } else {
      var n := |a| - 1;
      var x := a[n];
      assert a == a[..n] + [x];
      assert x in multiset(b);
      var j :| 0 <= j < |b| && b[j] == x;
      var b' := b[..j] + b[j + 1..];
      assert b == b[..j] + [x] + b[j + 1..];
      assert multiset(a) == multiset(a[..n]) + multiset{x};
      assert multiset(b) == multiset(b[..j]) + multiset{x} + multiset(b[j + 1..]);
      assert multiset(b') == multiset(b[..j]) + multiset(b[j + 1..]);
      assert multiset(a[..n]) == multiset(a) - multiset{x};
      assert multiset(b') == multiset(b) - multiset{x};
      SumOfPermutation(a[..n], b', f);
      SumOfRemove(b, j, f);
    }
  }

  /** A filter keeps a list whose elements it all keeps, so filtering twice
      is filtering once. */
  lemma FilterIdempotent<T(!new)>(xs: seq<T>, keep: T -> bool)
    ensures Filter(Filter(xs, keep), keep) == Filter(xs, keep)
  {
    FilterAllKept(Filter(xs, keep), keep);
  }

  /** f where keep holds, 0 elsewhere. */
  function Where<T>(keep: T -> bool, f: T -> real): T -> real {
    (x: T) => if keep(x) then f(x) else 0.0
  }

  /** xs.filter(keep).reduce((s, x) => s + f(x), 0) adds f over the kept
      elements, which is the sum of f where keep holds. */
  lemma {:induction false} SumOfFilter<T(!new)>(xs: seq<T>, keep: T -> bool, f: T -> real)
    ensures SumOf(Filter(xs, keep), f) == SumOf(xs, Where(keep, f))
    decreases |xs|
  {
    if xs != [] {
      var init := xs[..|xs| - 1];
      var x := xs[|xs| - 1];
      assert xs == init + [x];
      SumOfFilter(init, keep, f);
      FilterSnoc(init, x, keep);
      if keep(x) {
        SumOfSnoc(Filter(init, keep), x, f);
      } else {
        assert Filter(xs, keep) == Filter(init, keep);
      }
    }
  }

  /** The set of f's values over a list. */
  function Image<T, U>(xs: seq<T>, f: T -> U): (r: set<U>)
    decreases |xs|
  {
    if xs == [] then {} else Image(xs[..|xs| - 1], f) + {f(xs[|xs| - 1])}
  }

  lemma {:induction false} ImageMembers<T, U>(xs: seq<T>, f: T -> U)
    ensures forall y :: y in Image(xs, f) <==> exists k :: 0 <= k < |xs| && f(xs[k]) == y
    decreases |xs|
  {
    if xs != [] {
      var init := xs[..|xs| - 1];
      ImageMembers(init, f);
      forall y ensures y in Image(xs, f) <==> exists k :: 0 <= k < |xs| && f(xs[k]) == y {
        if y in Image(init, f) {
          var k :| 0 <= k < |init| && f(init[k]) == y;
          assert xs[k] == init[k];
        }
        if exists k :: 0 <= k < |xs| && f(xs[k]) == y {
          var k :| 0 <= k < |xs| && f(xs[k]) == y;
          if k < |init| {
            assert init[k] == xs[k];
          }
        }
      }
    }
  }
}
