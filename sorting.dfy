/**
  `Array.prototype.sort` with a comparator `(a, b) => key(a) - key(b)`, which the
  application uses to order recruiting criteria by `display_order`: the array is
  reordered in place, ascending by the key.
*/
module Sorting {

  /** Ascending by `key`. */
  predicate SortedBy<T>(s: seq<T>, key: T -> int)
  {
    forall i, j | 0 <= i < j < |s| :: key(s[i]) <= key(s[j])
  }

  /**
    Sorts `a` in place by exchanging out-of-order neighbours: the result is ascending
    by `key` and holds the same elements.
  */
  method SortBy<T>(a: array<T>, key: T -> int)
    modifies a
    ensures SortedBy(a[..], key)
    ensures multiset(a[..]) == multiset(old(a[..]))
  {
    var i := 0;
    while i < a.Length
      invariant 0 <= i <= a.Length
      invariant forall p, q | 0 <= p < q < i :: key(a[p]) <= key(a[q])
      invariant multiset(a[..]) == multiset(old(a[..]))
    {
      Insert(a, i, key);
      i := i + 1;
    }
  }

  /**
    Part way through inserting the element now at `j`: the first `i + 1` elements
    other than it are ascending, and it is smaller than everything after it.
  */
  predicate Inserting<T>(s: seq<T>, j: nat, i: nat, key: T -> int)
  {
    j <= i < |s|
    && (forall p, q | 0 <= p < q <= i && p != j && q != j :: key(s[p]) <= key(s[q]))
    && (forall q | j < q <= i :: key(s[j]) < key(s[q]))
  }

  /** Exchanging the element being inserted with a larger left neighbour moves it one step left. */
  lemma InsertStep<T>(s: seq<T>, j: nat, i: nat, key: T -> int)
    requires Inserting(s, j, i, key) && 0 < j && key(s[j - 1]) > key(s[j])
    ensures Inserting(s[j - 1 := s[j]][j := s[j - 1]], j - 1, i, key)
    ensures multiset(s[j - 1 := s[j]][j := s[j - 1]]) == multiset(s)
  {
  }

  /** Once its left neighbour is no larger, or it is first, the prefix is ascending. */
  lemma InsertDone<T>(s: seq<T>, j: nat, i: nat, key: T -> int)
    requires Inserting(s, j, i, key) && (j == 0 || key(s[j - 1]) <= key(s[j]))
    ensures forall p, q | 0 <= p < q <= i :: key(s[p]) <= key(s[q])
  {
  }

  /** Moves `a[i]` left past every larger element before it, so that `a[..i + 1]` is ascending. */
  method Insert<T>(a: array<T>, i: nat, key: T -> int)
    requires i < a.Length
    requires forall p, q | 0 <= p < q < i :: key(a[p]) <= key(a[q])
    modifies a
    ensures forall p, q | 0 <= p < q <= i :: key(a[p]) <= key(a[q])
    ensures multiset(a[..]) == multiset(old(a[..]))
  {
    var j: nat := i;
    while j > 0 && key(a[j - 1]) > key(a[j])
      invariant Inserting(a[..], j, i, key)
      invariant multiset(a[..]) == multiset(old(a[..]))
    {
      InsertStep(a[..], j, i, key);
      a[j - 1], a[j] := a[j], a[j - 1];
      j := j - 1;
    }
    InsertDone(a[..], j, i, key);
  }
}
