/**
  The part of `URLSearchParams` the pages use: a query as an ordered list of
  name/value pairs, `get` and `set`. Percent-encoding is not modelled here.
*/
module Url {
  import opened Wrappers

  type Query = seq<(string, string)>

  /** `params.get(name)`: the value of the first pair with that name, or `null`. */
  function QueryGet(q: Query, name: string): (r: Option<string>)
    ensures r.None? <==> forall i | 0 <= i < |q| :: q[i].0 != name
    ensures r.Some? ==> exists i | 0 <= i < |q| :: q[i] == (name, r.value)
    decreases |q|
  {
    if q == [] then None
    else if q[0].0 == name then Some(q[0].1)
    else QueryGet(q[1..], name)
  }

  /** `q` without any pair named `name`. */
  function RemoveName(q: Query, name: string): (r: Query)
    ensures forall i | 0 <= i < |r| :: r[i].0 != name
    decreases |q|
  {
    if q == [] then []
    else if q[0].0 == name then RemoveName(q[1..], name)
    else [q[0]] + RemoveName(q[1..], name)
  }

  /**
    `params.set(name, value)`: the first pair with that name takes the value and
    any later ones go; without such a pair, the pair is appended.
  */
  function QuerySet(q: Query, name: string, value: string): (r: Query)
    decreases |q|
  {
    if q == [] then [(name, value)]
    else if q[0].0 == name then [(name, value)] + RemoveName(q[1..], name)
    else [q[0]] + QuerySet(q[1..], name, value)
  }

  lemma {:induction false} QueryGetRemoveName(q: Query, name: string, other: string)
    requires other != name
    ensures QueryGet(RemoveName(q, name), other) == QueryGet(q, other)
    decreases |q|
  {
    if q != [] {
      QueryGetRemoveName(q[1..], name, other);
    }
  }

  /** After `set`, `get` of that name gives the new value and every other name is unaffected. */
  lemma {:induction false} QuerySetGet(q: Query, name: string, value: string, other: string)
    ensures QueryGet(QuerySet(q, name, value), name) == Some(value)
    ensures other != name ==> QueryGet(QuerySet(q, name, value), other) == QueryGet(q, other)
    decreases |q|
  {
    if q != [] {
      QuerySetGet(q[1..], name, value, other);
      if q[0].0 == name && other != name {
        QueryGetRemoveName(q[1..], name, other);
      }
    }
  }
}
