/** Ordered lists of named string values. The query of a URL, the headers of an
    HTTP response and the members of a JSON object all take this shape. */
module Pairs {
  import opened Wrappers

  type Pair = (string, string)

  /** The names that occur in `ps`. */
  function Keys(ps: seq<Pair>): set<string>
    decreases |ps|
  {
    if ps == [] then {} else {ps[0].0} + Keys(ps[1..])
  }

  /** No name occurs twice in `ps`. */
  predicate DistinctKeys(ps: seq<Pair>)
  {
    forall i, j :: 0 <= i < j < |ps| ==> ps[i].0 != ps[j].0
  }

  /** The value of the first pair named `key`; None exactly when no pair has that name. */
  function Lookup(ps: seq<Pair>, key: string): (r: Option<string>)
    ensures r.Some? <==> key in Keys(ps)
    ensures r.Some? ==> (key, r.value) in ps
    decreases |ps|
  {
    if ps == [] then None
    else if ps[0].0 == key then Some(ps[0].1)
    else Lookup(ps[1..], key)
  }

  /** A present optional value contributes one pair; an absent one contributes none at all. */
  function Optional(key: string, o: Option<string>): (ps: seq<Pair>)
  {
    match o
    case None => []
    case Some(v) => [(key, v)]
  }

  /** The names of a concatenation are the names of its parts. */
  lemma {:induction false} KeysConcat(ps: seq<Pair>, qs: seq<Pair>)
    ensures Keys(ps + qs) == Keys(ps) + Keys(qs)
    decreases |ps|
  {
    if ps == [] {
      assert ps + qs == qs;
    } else {
      assert (ps + qs)[1..] == ps[1..] + qs;
      KeysConcat(ps[1..], qs);
    }
  }

  /** Looking a name up in a concatenation finds it in the first part when it is there. */
  lemma {:induction false} LookupConcat(ps: seq<Pair>, qs: seq<Pair>, key: string)
    ensures Lookup(ps + qs, key) == if key in Keys(ps) then Lookup(ps, key) else Lookup(qs, key)
    decreases |ps|
  {
    if ps == [] {
      assert ps + qs == qs;
    } else {
      assert (ps + qs)[1..] == ps[1..] + qs;
      LookupConcat(ps[1..], qs, key);
    }
  }
}
