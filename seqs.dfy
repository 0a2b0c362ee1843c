/**
  The array operations of the JavaScript runtime the application builds on:
  `find`, `filter`, `indexOf`, `includes` and a one-element `splice`, together
  with the facts about them the other modules use.
*/
module Seqs {
  import opened Wrappers

  /** The index of the first element satisfying `p` (`findIndex`, with `None` for -1). */
  function FirstIndex<T>(xs: seq<T>, p: T -> bool): (r: Option<nat>)
    ensures r.Some? ==> r.value < |xs| && p(xs[r.value])
    ensures r.Some? ==> forall k | 0 <= k < r.value :: !p(xs[k])
    ensures r.None? <==> forall k | 0 <= k < |xs| :: !p(xs[k])
    decreases |xs|
  {
    if xs == [] then None
    else if p(xs[0]) then Some(0)
    else
      match FirstIndex(xs[1..], p)
      case None => None
      case Some(k) => Some(k + 1)
  }

  /** The index of the last element satisfying `p`. */
  function LastIndex<T>(xs: seq<T>, p: T -> bool): (r: Option<nat>)
    ensures r.Some? ==> r.value < |xs|
    decreases |xs|
  {
    if xs == [] then None
    else if p(xs[|xs| - 1]) then Some(|xs| - 1)
    else LastIndex(xs[..|xs| - 1], p)
  }

  /** `LastIndex` finds an element satisfying `p` with none after it, and finds none exactly when none does. */
  lemma {:induction false} LastIndexSpec<T>(xs: seq<T>, p: T -> bool)
    ensures LastIndex(xs, p).Some? ==>
      p(xs[LastIndex(xs, p).value]) && forall j | LastIndex(xs, p).value < j < |xs| :: !p(xs[j])
    ensures LastIndex(xs, p).None? <==> forall j | 0 <= j < |xs| :: !p(xs[j])
    decreases |xs|
  {
    if xs != [] {
      var n := |xs| - 1;
      LastIndexSpec(xs[..n], p);
      assert forall j | 0 <= j < n :: xs[..n][j] == xs[j];
    }
  }

  /** Extending by one element: it is the last match if it matches, otherwise the last match is unchanged. */
  lemma LastIndexSnoc<T>(xs: seq<T>, x: T, p: T -> bool)
    ensures LastIndex(xs + [x], p) == if p(x) then Some(|xs|) else LastIndex(xs, p)
  {
    assert (xs + [x])[..|xs|] == xs;
  }

  /** `xs.find(p)`: the first element satisfying `p`. */
  function Find<T>(xs: seq<T>, p: T -> bool): (r: Option<T>)
    ensures r.None? <==> forall k | 0 <= k < |xs| :: !p(xs[k])
    ensures r.Some? ==> exists k | 0 <= k < |xs| :: xs[k] == r.value && p(r.value)
  {
    match FirstIndex(xs, p)
    case None => None
    case Some(k) => Some(xs[k])
  }

  /** A position satisfying `p` with none before it is what `FirstIndex` returns. */
  lemma FirstIndexAt<T>(xs: seq<T>, p: T -> bool, i: nat)
    requires i < |xs| && p(xs[i])
    requires forall k | 0 <= k < i :: !p(xs[k])
    ensures FirstIndex(xs, p) == Some(i)
  {
    var r := FirstIndex(xs, p);
    assert r.Some?;
  }

  /** Any element satisfying `p` after one that does not change what `find` returns. */
  lemma FindFirst<T>(xs: seq<T>, p: T -> bool, i: nat)
    requires i < |xs| && p(xs[i])
    requires forall k | 0 <= k < i :: !p(xs[k])
    ensures Find(xs, p) == Some(xs[i])
  {
    var r := FirstIndex(xs, p);
    assert r.Some?;
    assert r.value == i;
  }

  /** `xs.filter(p)`. */
  function Filter<T>(xs: seq<T>, p: T -> bool): (r: seq<T>)
    ensures |r| <= |xs|
    ensures forall k | 0 <= k < |r| :: p(r[k])
    decreases |xs|
  {
    if xs == [] then []
    else if p(xs[0]) then [xs[0]] + Filter(xs[1..], p)
    else Filter(xs[1..], p)
  }

  /** `xs` is `ys` with some elements left out, the others in their original order. */
  predicate IsSubsequence<T(==)>(xs: seq<T>, ys: seq<T>)
    decreases |ys|
  {
    if xs == [] then true
    else if ys == [] then false
    else if xs[0] == ys[0] then IsSubsequence(xs[1..], ys[1..])
    else IsSubsequence(xs, ys[1..])
  }

  lemma {:induction false} FilterIsSubsequence<T>(xs: seq<T>, p: T -> bool)
    ensures IsSubsequence(Filter(xs, p), xs)
    decreases |xs|
  {
    if xs != [] {
      FilterIsSubsequence(xs[1..], p);
      if p(xs[0]) {
        assert Filter(xs, p)[1..] == Filter(xs[1..], p);
      }
    }
  }

  /** An element survives `filter` exactly when it is in the input and satisfies the predicate. */
  lemma {:induction false} FilterMembership<T>(xs: seq<T>, p: T -> bool, x: T)
    ensures x in Filter(xs, p) <==> x in xs && p(x)
    decreases |xs|
  {
    if xs != [] {
      FilterMembership(xs[1..], p, x);
      assert xs == [xs[0]] + xs[1..];
    }
  }

  /** A predicate every element satisfies keeps the whole sequence. */
  lemma {:induction false} FilterAll<T>(xs: seq<T>, p: T -> bool)
    requires forall k | 0 <= k < |xs| :: p(xs[k])
    ensures Filter(xs, p) == xs
    decreases |xs|
  {
    if xs != [] {
      FilterAll(xs[1..], p);
    }
  }

  /** Filtering a concatenation filters each part. */
  lemma {:induction false} FilterConcat<T>(xs: seq<T>, ys: seq<T>, p: T -> bool)
    ensures Filter(xs + ys, p) == Filter(xs, p) + Filter(ys, p)
    decreases |xs|
  {
    if xs == [] {
      assert xs + ys == ys;
    } else {
      assert (xs + ys)[0] == xs[0] && (xs + ys)[1..] == xs[1..] + ys;
      FilterConcat(xs[1..], ys, p);
    }
  }

  /** A predicate no element satisfies keeps nothing. */
  lemma {:induction false} FilterNone<T>(xs: seq<T>, p: T -> bool)
    requires forall k | 0 <= k < |xs| :: !p(xs[k])
    ensures Filter(xs, p) == []
    decreases |xs|
  {
    if xs != [] {
      FilterNone(xs[1..], p);
    }
  }

  /** Filtering twice, where the second predicate implies the first, is filtering once by the second. */
  lemma {:induction false} FilterFilter<T>(xs: seq<T>, p: T -> bool, q: T -> bool)
    requires forall k | 0 <= k < |xs| :: q(xs[k]) ==> p(xs[k])
    ensures Filter(Filter(xs, p), q) == Filter(xs, q)
    decreases |xs|
  {
    if xs != [] {
      FilterFilter(xs[1..], p, q);
      if p(xs[0]) {
        assert Filter(xs, p) == [xs[0]] + Filter(xs[1..], p);
        assert Filter(xs, p)[0] == xs[0] && Filter(xs, p)[1..] == Filter(xs[1..], p);
      }
    }
  }

  /** Both predicates. */
  function And<T>(p: T -> bool, q: T -> bool): T -> bool
  {
    x => p(x) && q(x)
  }

  /** Filtering by one predicate and then another is filtering once by both. */
  lemma {:induction false} FilterCompose<T>(xs: seq<T>, p: T -> bool, q: T -> bool)
    ensures Filter(Filter(xs, p), q) == Filter(xs, And(p, q))
    decreases |xs|
  {
    if xs != [] {
      FilterCompose(xs[1..], p, q);
      if p(xs[0]) {
        assert Filter(xs, p)[0] == xs[0] && Filter(xs, p)[1..] == Filter(xs[1..], p);
      }
    }
  }

  /** `xs.indexOf(x)`: the first position of `x`, or -1. */
  function IndexOf<T(==)>(xs: seq<T>, x: T): (i: int)
    ensures -1 <= i < |xs|
    ensures i < 0 <==> x !in xs
    ensures 0 <= i ==> xs[i] == x && x !in xs[..i]
    decreases |xs|
  {
    if xs == [] then -1
    else if xs[0] == x then 0
    else
      var k := IndexOf(xs[1..], x);
      if k < 0 then -1 else k + 1
  }

  /** `xs.splice(i, 1)`: `xs` without its element at `i`. */
  function RemoveAt<T>(xs: seq<T>, i: nat): (r: seq<T>)
    requires i < |xs|
    ensures |r| == |xs| - 1
  {
    xs[..i] + xs[i + 1..]
  }

  predicate NoDuplicates<T(==)>(xs: seq<T>)
  {
    forall i, j | 0 <= i < j < |xs| :: xs[i] != xs[j]
  }

  /** `xs` with every occurrence of `x` left out, the rest in order. */
  function Without<T(==)>(xs: seq<T>, x: T): (r: seq<T>)
    ensures x !in r
    decreases |xs|
  {
    if xs == [] then [] else (if xs[0] == x then [] else [xs[0]]) + Without(xs[1..], x)
  }

  lemma {:induction false} WithoutConcat<T>(a: seq<T>, b: seq<T>, x: T)
    ensures Without(a + b, x) == Without(a, x) + Without(b, x)
    decreases |a|
  {
    if a == [] {
      assert a + b == b;
    } else {
      var ab := a + b;
      var head := if a[0] == x then [] else [a[0]];
      assert ab != [] && ab[0] == a[0] && ab[1..] == a[1..] + b;
      WithoutConcat(a[1..], b, x);
      calc {
        Without(ab, x);
        head + Without(a[1..] + b, x);
        head + (Without(a[1..], x) + Without(b, x));
        { assert head + (Without(a[1..], x) + Without(b, x)) == (head + Without(a[1..], x)) + Without(b, x); }
        Without(a, x) + Without(b, x);
      }
    }
  }

  lemma {:induction false} WithoutAbsent<T>(xs: seq<T>, x: T)
    requires x !in xs
    ensures Without(xs, x) == xs
    decreases |xs|
  {
    if xs != [] {
      WithoutAbsent(xs[1..], x);
    }
  }

  /** A position holding `x` with no `x` before it is what `indexOf` returns. */
  lemma {:induction false} IndexOfAt<T>(xs: seq<T>, x: T, k: nat)
    requires k < |xs| && xs[k] == x && x !in xs[..k]
    ensures IndexOf(xs, x) == k
    decreases k
  {
    if k > 0 {
      assert xs[0] == xs[..k][0];
      assert xs[1..][..k - 1] == xs[1..k];
      IndexOfAt(xs[1..], x, k - 1);
    }
  }

  /**
    What clicking a checkbox does to the selected values: an absent value is
    appended, a present one has its first occurrence removed.
  */
  function Toggle<T(==)>(xs: seq<T>, x: T): (r: seq<T>)
  {
    var i := IndexOf(xs, x);
    if i < 0 then xs + [x] else RemoveAt(xs, i)
  }

  /** Every other value keeps its occurrences and their relative order. */
  lemma ToggleKeepsOthers<T>(xs: seq<T>, x: T)
    ensures Without(Toggle(xs, x), x) == Without(xs, x)
  {
    var i := IndexOf(xs, x);
    assert Without([x], x) == [] by {
      assert [x][1..] == [];
    }
    if i < 0 {
      WithoutConcat(xs, [x], x);
    } else {
      var pre, post := xs[..i], xs[i + 1..];
      assert Toggle(xs, x) == pre + post;
      assert xs == (pre + [x]) + post;
      WithoutConcat(pre + [x], post, x);
      WithoutConcat(pre, [x], x);
      WithoutConcat(pre, post, x);
    }
  }

  /** Removing one element of a duplicate-free list removes exactly that value and keeps it duplicate-free. */
  lemma RemoveAtNoDuplicates<T>(xs: seq<T>, i: nat)
    requires NoDuplicates(xs) && i < |xs|
    ensures NoDuplicates(RemoveAt(xs, i))
    ensures forall y :: y in RemoveAt(xs, i) <==> y in xs && y != xs[i]
  {
    var r := RemoveAt(xs, i);
    assert forall a | 0 <= a < |r| :: r[a] == xs[if a < i then a else a + 1];
    forall y
      ensures y in r <==> y in xs && y != xs[i]
    {
      if y in xs && y != xs[i] {
        var j :| 0 <= j < |xs| && xs[j] == y;
        if j < i {
          assert r[j] == y;
        } else {
          assert r[j - 1] == y;
        }
      }
    }
  }

  /** Appending an absent value keeps a list duplicate-free. */
  lemma AppendNoDuplicates<T>(xs: seq<T>, x: T)
    requires NoDuplicates(xs) && x !in xs
    ensures NoDuplicates(xs + [x])
  {
    var r := xs + [x];
    forall a, b | 0 <= a < b < |r|
      ensures r[a] != r[b]
    {
      assert r[a] == xs[a];
    }
  }

  /** On a duplicate-free list a toggle flips the value's membership and keeps the list duplicate-free. */
  lemma ToggleFlips<T>(xs: seq<T>, x: T)
    requires NoDuplicates(xs)
    ensures x in Toggle(xs, x) <==> x !in xs
    ensures NoDuplicates(Toggle(xs, x))
    ensures forall y | y != x :: y in Toggle(xs, x) <==> y in xs
  {
    var i := IndexOf(xs, x);
    if i >= 0 {
      RemoveAtNoDuplicates(xs, i);
    } else {
      AppendNoDuplicates(xs, x);
    }
  }

  /** Toggling an absent value twice restores the original list exactly. */
  lemma ToggleTwice<T>(xs: seq<T>, x: T)
    requires x !in xs
    ensures Toggle(Toggle(xs, x), x) == xs
  {
    var ys := xs + [x];
    assert ys[..|xs|] == xs;
    IndexOfAt(ys, x, |xs|);
  }
}
