/** The JavaScript array operations the core relies on: `filter`, `findIndex` and `find`. */
module Sequences {
  import opened Wrappers

  /** `xs.filter(keep)`: the elements that satisfy `keep`, in their original order. */
  function Filter<T(!new)>(xs: seq<T>, keep: T -> bool): (r: seq<T>)
    ensures |r| <= |xs|
    ensures forall x :: x in r <==> x in xs && keep(x)
    ensures |r| == |xs| ==> forall i :: 0 <= i < |xs| ==> keep(xs[i])
  {
    if xs == [] then []
    else (if keep(xs[0]) then [xs[0]] else []) + Filter(xs[1..], keep)
  }

  /** Filtering a concatenation filters each part: the survivors keep their relative order. */
  lemma {:induction false} FilterAppend<T(!new)>(a: seq<T>, b: seq<T>, keep: T -> bool)
    ensures Filter(a + b, keep) == Filter(a, keep) + Filter(b, keep)
  {
    if a == [] {
      assert a + b == b;
    } else {
      assert (a + b)[1..] == a[1..] + b;
      FilterAppend(a[1..], b, keep);
    }
  }

  /** A filter that every element passes is the identity. */
  lemma {:induction false} FilterKeepsAll<T(!new)>(xs: seq<T>, keep: T -> bool)
    requires forall i :: 0 <= i < |xs| ==> keep(xs[i])
    ensures Filter(xs, keep) == xs
  {
    if xs != [] {
      FilterKeepsAll(xs[1..], keep);
    }
  }

  /** Replacing one element changes the number of survivors by the difference of the two verdicts. */
  lemma {:induction false} FilterLengthAfterUpdate<T(!new)>(xs: seq<T>, i: nat, x: T, keep: T -> bool)
    requires i < |xs|
    ensures |Filter(xs[i := x], keep)| + (if keep(xs[i]) then 1 else 0)
         == |Filter(xs, keep)| + (if keep(x) then 1 else 0)
  {
    if i == 0 {
      assert xs[i := x][1..] == xs[1..];
    } else {
      assert xs[i := x][1..] == xs[1..][i - 1 := x];
      FilterLengthAfterUpdate(xs[1..], i - 1, x, keep);
    }
  }

  /** `xs.findIndex(p)`, with `None` for JavaScript's -1: the first index whose element satisfies `p`. */
  function FindIndex<T>(xs: seq<T>, p: T -> bool): (r: Option<nat>)
    ensures r.Some? ==> r.value < |xs| && p(xs[r.value])
    ensures r.Some? ==> forall j :: 0 <= j < r.value ==> !p(xs[j])
    ensures r.None? <==> forall j :: 0 <= j < |xs| ==> !p(xs[j])
  {
    if xs == [] then None
    else if p(xs[0]) then Some(0)
    else match FindIndex(xs[1..], p)
      case None => None
      case Some(i) => Some(i + 1)
  }

  /** `xs.find(p)`: the first element that satisfies `p`, if any. */
  function Find<T>(xs: seq<T>, p: T -> bool): (r: Option<T>)
    ensures r.Some? ==> p(r.value) && r.value in xs
  {
    if xs == [] then None
    else if p(xs[0]) then Some(xs[0])
    else Find(xs[1..], p)
  }

  /** `find` returns the element at the index `findIndex` reports, and nothing exactly when that index is -1. */
  lemma {:induction false} FindAtFindIndex<T>(xs: seq<T>, p: T -> bool)
    ensures FindIndex(xs, p).None? <==> Find(xs, p).None?
    ensures FindIndex(xs, p).Some? ==> Find(xs, p) == Some(xs[FindIndex(xs, p).value])
  {
    if xs != [] && !p(xs[0]) {
      FindAtFindIndex(xs[1..], p);
    }
  }
}
