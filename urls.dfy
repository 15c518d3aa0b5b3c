/** An abstract view of the absolute URLs the `url` crate parses and extends.
    A URL is whatever precedes its query (scheme, authority, path), the query as
    decoded name/value pairs, and an optional fragment. Parsing itself and the
    `application/x-www-form-urlencoded` byte serializer are foreign code: the
    first is a parameter of the dispatcher, the second the `Encoder` here. */
module Urls {
  import opened Wrappers
  import opened Pairs

  datatype Url = Url(base: string, query: seq<Pair>, fragment: Option<string>)
  {
    /** `query_pairs_mut().append_pair(key, value)`: the pair goes to the end of the query. */
    function AppendPair(key: string, value: string): Url
    {
      this.(query := query + [(key, value)])
    }
  }

  /** Parsing a string into an absolute URL; None where the string is not one. */
  type Parser = string -> Option<Url>

  /** Percent-encoding of one name or value of the query. */
  type Encoder = string -> string

  function PairText(p: Pair, enc: Encoder): string
  {
    enc(p.0) + "=" + enc(p.1)
  }

  /** The pairs of a query, encoded and joined by `&`. */
  function QueryText(q: seq<Pair>, enc: Encoder): string
    decreases |q|
  {
    if |q| == 0 then ""
    else if |q| == 1 then PairText(q[0], enc)
    else PairText(q[0], enc) + "&" + QueryText(q[1..], enc)
  }

  function FragmentText(f: Option<string>): string
  {
    match f
    case None => ""
    case Some(s) => "#" + s
  }

  /** `Url::as_str`: the serialized URL. A query appears, after `?`, only when it has pairs. */
  function Serialize(u: Url, enc: Encoder): string
  {
    u.base + (if u.query == [] then "" else "?" + QueryText(u.query, enc)) + FragmentText(u.fragment)
  }

  /** Appending a pair extends the query text by one `&`-separated pair and changes nothing before it. */
  lemma {:induction false} QueryTextAppend(q: seq<Pair>, p: Pair, enc: Encoder)
    ensures QueryText(q + [p], enc)
         == if q == [] then PairText(p, enc) else QueryText(q, enc) + "&" + PairText(p, enc)
    decreases |q|
  {
    if |q| == 0 {
      assert q + [p] == [p];
    } else if |q| == 1 {
      assert q + [p] == [q[0], p];
      assert (q + [p])[1..] == [p];
    } else {
      assert (q + [p])[1..] == q[1..] + [p];
      QueryTextAppend(q[1..], p, enc);
    }
  }

  /** Appending a pair to a URL keeps its base and fragment and puts the encoded
      pair at the end of the query: after `?` when the query was empty, after `&` otherwise. */
  lemma AppendPairSerialize(u: Url, key: string, value: string, enc: Encoder)
    ensures var v := u.AppendPair(key, value);
            v.base == u.base && v.fragment == u.fragment
            && Serialize(v, enc)
               == u.base + "?" + (if u.query == [] then "" else QueryText(u.query, enc) + "&")
                  + PairText((key, value), enc) + FragmentText(u.fragment)
  {
    QueryTextAppend(u.query, (key, value), enc);
  }

  /** The text of a concatenated query is the two texts joined by one `&`. */
  lemma {:induction false} QueryTextConcat(q: seq<Pair>, r: seq<Pair>, enc: Encoder)
    requires q != [] && r != []
    ensures QueryText(q + r, enc) == QueryText(q, enc) + "&" + QueryText(r, enc)
    decreases |q|
  {
    if |q| == 1 {
      assert (q + r)[1..] == r;
    } else {
      assert (q + r)[1..] == q[1..] + r;
      QueryTextConcat(q[1..], r, enc);
    }
  }
}
