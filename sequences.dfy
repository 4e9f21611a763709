/** Boolean-mask selection on sequences: the operation behind `df[mask]`, `dropna`
    and a regular-expression deletion of single characters. */
module Sequences {

  /** The elements of `xs` that satisfy `p`, in their original order. */
  function Keep<T>(xs: seq<T>, p: T -> bool): (ys: seq<T>)
    ensures |ys| <= |xs|
    ensures forall i :: 0 <= i < |ys| ==> ys[i] in xs && p(ys[i])
    ensures forall i :: 0 <= i < |xs| && p(xs[i]) ==> xs[i] in ys
  {
    if xs == [] then []
    else
      assert xs == [xs[0]] + xs[1..];
      (if p(xs[0]) then [xs[0]] else []) + Keep(xs[1..], p)
  }

  /** The elements of `xs` at the positions where `mask` is true. */
  function Select<T>(xs: seq<T>, mask: seq<bool>): seq<T>
    requires |mask| == |xs|
  {
    if xs == [] then [] else (if mask[0] then [xs[0]] else []) + Select(xs[1..], mask[1..])
  }

  /** The mask that `Keep(xs, p)` applies. */
  function MaskOf<T>(xs: seq<T>, p: T -> bool): (mask: seq<bool>)
    ensures |mask| == |xs|
  {
    seq(|xs|, i requires 0 <= i < |xs| => p(xs[i]))
  }

  /** `ys` is obtained from `xs` by deleting elements: what is left keeps its order. */
  ghost predicate IsSubsequence<T>(ys: seq<T>, xs: seq<T>) {
    exists mask: seq<bool> :: |mask| == |xs| && ys == Select(xs, mask)
  }

  /** No element occurs twice. */
  predicate Distinct<T(==)>(s: seq<T>) {
    forall i, j :: 0 <= i < j < |s| ==> s[i] != s[j]
  }

  lemma {:induction false} KeepIsSelect<T>(xs: seq<T>, p: T -> bool)
    ensures Keep(xs, p) == Select(xs, MaskOf(xs, p))
  {
    if xs != [] {
      KeepIsSelect(xs[1..], p);
      assert MaskOf(xs, p)[1..] == MaskOf(xs[1..], p);
    }
  }

  /** Keeping elements never reorders them. */
  lemma KeepIsSubsequence<T>(xs: seq<T>, p: T -> bool)
    ensures IsSubsequence(Keep(xs, p), xs)
  {
    KeepIsSelect(xs, p);
    var mask := MaskOf(xs, p);
    assert |mask| == |xs| && Keep(xs, p) == Select(xs, mask);
  }

  /** A predicate that holds of every element keeps the whole sequence. */
  lemma {:induction false} KeepAll<T>(xs: seq<T>, p: T -> bool)
    requires forall x :: x in xs ==> p(x)
    ensures Keep(xs, p) == xs
  {
    if xs != [] {
      assert xs[0] in xs;
      assert forall x :: x in xs[1..] ==> x in xs;
      KeepAll(xs[1..], p);
      assert xs == [xs[0]] + xs[1..];
    }
  }

  /** A predicate that holds of no element keeps nothing. */
  lemma {:induction false} KeepNone<T>(xs: seq<T>, p: T -> bool)
    requires forall i :: 0 <= i < |xs| ==> !p(xs[i])
    ensures Keep(xs, p) == []
  {
    if xs != [] {
      assert !p(xs[0]);
      KeepNone(xs[1..], p);
    }
  }

  /** Keeping by a narrower predicate after a wider one is keeping by the narrower one. */
  lemma {:induction false} KeepNested<T>(xs: seq<T>, p: T -> bool, q: T -> bool)
    requires forall x :: q(x) ==> p(x)
    ensures Keep(Keep(xs, p), q) == Keep(xs, q)
  {
    if xs != [] {
      KeepNested(xs[1..], p, q);
      KeepAppend((if p(xs[0]) then [xs[0]] else []), Keep(xs[1..], p), q);
      var head := if p(xs[0]) then [xs[0]] else [];
      if p(xs[0]) {
        assert Keep(head, q) == (if q(head[0]) then [head[0]] else []) + Keep(head[1..], q);
      } else {
        assert head == [];
      }
    }
  }

  lemma {:induction false} KeepAppend<T>(a: seq<T>, b: seq<T>, p: T -> bool)
    ensures Keep(a + b, p) == Keep(a, p) + Keep(b, p)
  {
    if a != [] {
      KeepAppend(a[1..], b, p);
      assert (a + b)[0] == a[0];
      assert (a + b)[1..] == a[1..] + b;
    } else {
      assert a + b == b;
    }
  }

  /** A narrower predicate keeps a subsequence of what a wider one keeps. */
  lemma KeepNarrowerIsSubsequence<T>(xs: seq<T>, p: T -> bool, q: T -> bool)
    requires forall x :: q(x) ==> p(x)
    ensures IsSubsequence(Keep(xs, q), Keep(xs, p))
  {
    KeepNested(xs, p, q);
    KeepIsSubsequence(Keep(xs, p), q);
  }

  /** Keeping by `p` keeps every occurrence of an element that satisfies `p` and none of the others. */
  lemma {:induction false} KeepCount<T>(xs: seq<T>, p: T -> bool, x: T)
    ensures multiset(Keep(xs, p))[x] == if p(x) then multiset(xs)[x] else 0
  {
    if xs != [] {
      KeepCount(xs[1..], p, x);
      assert xs == [xs[0]] + xs[1..];
      assert multiset(xs) == multiset{xs[0]} + multiset(xs[1..]);
    }
  }

  lemma KeepCounts<T>(xs: seq<T>, p: T -> bool)
    ensures forall x :: multiset(Keep(xs, p))[x] == if p(x) then multiset(xs)[x] else 0
  {
    forall x ensures multiset(Keep(xs, p))[x] == if p(x) then multiset(xs)[x] else 0 {
      KeepCount(xs, p, x);
    }
  }
}
