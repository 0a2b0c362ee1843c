/**
  A JavaScript array as a mutable object: components that `push` into or
  `splice` an array they were handed change the caller's array, which every
  other holder of the same reference then sees.
*/
module JsArrays {
  import Seqs

  class JsArray<T(==)> {
    var items: seq<T>

    constructor(xs: seq<T>)
      ensures items == xs
    {
      items := xs;
    }

    /** `a.push(x)`. */
    method Push(x: T)
      modifies this
      ensures items == old(items) + [x]
    {
      items := items + [x];
    }

    /** `a.splice(i, 1)`: removes the element at `i`. */
    method SpliceOne(i: nat)
      requires i < |items|
      modifies this
      ensures items == Seqs.RemoveAt(old(items), i)
    {
      items := items[..i] + items[i + 1..];
    }
  }
}
