/** Sequence helpers shared by the classifier, the graph builder and the risk table:
    duplicate-freedom, position lookup and an order-preserving filter. */
module Seqs {

  /** No element occurs twice. */
  predicate NoDup<T(==)>(xs: seq<T>) {
    forall i, j :: 0 <= i < j < |xs| ==> xs[i] != xs[j]
  }

  /** Position of the first occurrence of `x` in `xs`. */
  function IndexOf<T(==)>(xs: seq<T>, x: T): (k: nat)
    requires x in xs
    ensures k < |xs| && xs[k] == x
    ensures forall j :: 0 <= j < k ==> xs[j] != x
  {
    if xs[0] == x then 0 else 1 + IndexOf(xs[1..], x)
  }

  /** In a duplicate-free list the first occurrence of `xs[i]` is at `i`. */
  lemma IndexOfAt<T>(xs: seq<T>, i: nat)
    requires NoDup(xs) && i < |xs|
    ensures IndexOf(xs, xs[i]) == i
  {
  }

  /** The elements of a duplicate-free list at strictly increasing positions
      are duplicate-free and in its order. */
  lemma PickedInOrder<T>(xs: seq<T>, ys: seq<T>, idx: seq<nat>)
    requires NoDup(xs) && |ys| == |idx|
    requires forall n :: 0 <= n < |idx| ==> idx[n] < |xs| && ys[n] == xs[idx[n]]
    requires forall n, m :: 0 <= n < m < |idx| ==> idx[n] < idx[m]
    ensures NoDup(ys) && InOrderOf(ys, xs)
  {
    forall n | 0 <= n < |idx| ensures IndexOf(xs, ys[n]) == idx[n] {
      IndexOfAt(xs, idx[n]);
    }
  }

  lemma NoDupAppend<T>(xs: seq<T>, x: T)
    requires NoDup(xs) && x !in xs
    ensures NoDup(xs + [x])
  {
  }

  /** Elements of `ys` occur in `xs`, and in the same relative order as in `xs`. */
  predicate InOrderOf<T(==)>(ys: seq<T>, xs: seq<T>) {
    && (forall y :: y in ys ==> y in xs)
    && (forall i, j :: 0 <= i < j < |ys| ==> IndexOf(xs, ys[i]) < IndexOf(xs, ys[j]))
  }

  lemma IndexOfTail<T>(xs: seq<T>, y: T)
    requires |xs| > 0 && y in xs[1..] && y != xs[0]
    ensures IndexOf(xs, y) == 1 + IndexOf(xs[1..], y)
  {
  }

  /** The elements of `xs` satisfying `p`, in their original order; Python's
      `[x for x in xs if p(x)]`. */
  function Filter<T(==,!new)>(xs: seq<T>, p: T -> bool): (r: seq<T>)
    ensures |r| <= |xs|
    ensures forall x :: x in r <==> x in xs && p(x)
  {
    if xs == [] then []
    else
      var rest := Filter(xs[1..], p);
      if p(xs[0]) then [xs[0]] + rest else rest
  }

  /** The filter keeps every passing element as often as it occurs, and drops
      every failing one. */
  lemma {:induction false} FilterCount<T(!new)>(xs: seq<T>, p: T -> bool)
    ensures forall x :: multiset(Filter(xs, p))[x] == if p(x) then multiset(xs)[x] else 0
  {
    if xs != [] {
      FilterCount(xs[1..], p);
      FilterCountStep(xs, Filter(xs[1..], p), Filter(xs, p), p);
    }
  }

  /** Filtering a duplicate-free list keeps it duplicate-free and in order. */
  lemma {:induction false} FilterOrdered<T(!new)>(xs: seq<T>, p: T -> bool)
    requires NoDup(xs)
    ensures NoDup(Filter(xs, p)) && InOrderOf(Filter(xs, p), xs)
  {
    if xs != [] {
      NoDupTail(xs, xs[0]);
      FilterOrdered(xs[1..], p);
      SelectionFromTail(xs, Filter(xs[1..], p), Filter(xs, p));
    }
  }

  /** Keeping or dropping the head in front of the kept tail keeps the count of
      every passing element and drops every failing one. */
  lemma FilterCountStep<T>(xs: seq<T>, rest: seq<T>, r: seq<T>, p: T -> bool)
    requires xs != []
    requires forall x :: multiset(rest)[x] == if p(x) then multiset(xs[1..])[x] else 0
    requires r == if p(xs[0]) then [xs[0]] + rest else rest
    ensures forall x :: multiset(r)[x] == if p(x) then multiset(xs)[x] else 0
  {
    assert multiset(xs) == multiset{xs[0]} + multiset(xs[1..]) by {
      assert xs == [xs[0]] + xs[1..];
    }
    if p(xs[0]) {
      assert multiset(r) == multiset{xs[0]} + multiset(rest);
    }
  }

  /** Filtering distributes over concatenation, so every kept element, repeats
      included, keeps its place relative to the others. */
  lemma {:induction false} FilterAppend<T(!new)>(xs: seq<T>, ys: seq<T>, p: T -> bool)
    ensures Filter(xs + ys, p) == Filter(xs, p) + Filter(ys, p)
  {
    if xs != [] {
      assert (xs + ys)[0] == xs[0] && (xs + ys)[1..] == xs[1..] + ys;
      FilterCons(xs + ys, p);
      FilterCons(xs, p);
      FilterAppend(xs[1..], ys, p);
      ConsAppend(if p(xs[0]) then [xs[0]] else [], Filter(xs[1..], p), Filter(ys, p));
    } else {
      assert xs + ys == ys;
    }
  }

  lemma ConsAppend<T>(h: seq<T>, a: seq<T>, b: seq<T>)
    ensures h + (a + b) == (h + a) + b
  {
  }

  /** One step of the filter: the head, when it passes, in front of the
      filtered tail. */
  lemma FilterCons<T(!new)>(xs: seq<T>, p: T -> bool)
    requires xs != []
    ensures Filter(xs, p) == (if p(xs[0]) then [xs[0]] else []) + Filter(xs[1..], p)
  {
  }

  /** A one-element list is kept exactly when its element passes. */
  lemma FilterSingle<T(!new)>(x: T, p: T -> bool)
    ensures Filter([x], p) == if p(x) then [x] else []
  {
    assert [x][1..] == [];
  }

  /** Keeping or dropping the head in front of an ordered duplicate-free
      selection from the tail keeps it ordered and duplicate-free. */
  lemma SelectionFromTail<T>(xs: seq<T>, rest: seq<T>, r: seq<T>)
    requires NoDup(xs) && xs != []
    requires forall y :: y in rest ==> y in xs[1..]
    requires NoDup(rest) && InOrderOf(rest, xs[1..])
    requires r == rest || r == [xs[0]] + rest
    ensures NoDup(r) && InOrderOf(r, xs)
  {
    forall y | y in rest ensures y != xs[0] && IndexOf(xs, y) == 1 + IndexOf(xs[1..], y) {
      NoDupTail(xs, y);
      IndexOfTail(xs, y);
    }
  }

  lemma SameMembersBothEmpty<T>(xs: seq<T>, ys: seq<T>)
    requires forall y :: y in xs <==> y in ys
    ensures xs == [] <==> ys == []
  {
    if xs != [] {
      assert xs[0] in ys;
    }
    if ys != [] {
      assert ys[0] in xs;
    }
  }

  /** In a duplicate-free list the tail holds every element but the head. */
  lemma NoDupTail<T>(xs: seq<T>, y: T)
    requires NoDup(xs) && xs != []
    ensures NoDup(xs[1..])
    ensures y in xs[1..] <==> y in xs && y != xs[0]
  {
    if y in xs && y != xs[0] {
      var k :| 0 <= k < |xs| && xs[k] == y;
      assert xs[1..][k - 1] == y;
    }
    if y in xs[1..] {
      var k :| 0 <= k < |xs[1..]| && xs[1..][k] == y;
      assert xs[k + 1] == y;
    }
  }

  /** A duplicate-free list kept in the order of `xs` is determined by its
      members. */
  lemma {:induction false} InOrderUnique<T>(xs: seq<T>, r: seq<T>, c: seq<T>)
    requires NoDup(r) && NoDup(c) && InOrderOf(r, xs) && InOrderOf(c, xs)
    requires forall y :: y in r <==> y in c
    ensures r == c
  {
    SameMembersBothEmpty(r, c);
    if r != [] {
      assert c[0] in r && r[0] in c;
      assert r[0] == c[0];
      forall y ensures y in r[1..] <==> y in c[1..] {
        NoDupTail(r, y);
        NoDupTail(c, y);
      }
      assert InOrderOf(r[1..], xs) by {
        forall i, j | 0 <= i < j < |r[1..]| ensures IndexOf(xs, r[1..][i]) < IndexOf(xs, r[1..][j]) {
          assert r[1..][i] == r[i + 1] && r[1..][j] == r[j + 1];
        }
      }
      assert InOrderOf(c[1..], xs) by {
        forall i, j | 0 <= i < j < |c[1..]| ensures IndexOf(xs, c[1..][i]) < IndexOf(xs, c[1..][j]) {
          assert c[1..][i] == c[i + 1] && c[1..][j] == c[j + 1];
        }
      }
      InOrderUnique(xs, r[1..], c[1..]);
      assert r == [r[0]] + r[1..] && c == [c[0]] + c[1..];
    }
  }
}
