/**
 A URI as urlparse splits it, and the query component as the dictionary that
 views.py builds from it with dict(parse_qsl(...)). Textual parsing, percent-encoding
 and urlencode are not part of this model: a query is already a list of
 (name, value) pairs.
 */
module Uri {
  import opened Wrappers

  /** (name, value) pairs in the order they appear; also a Python dict kept in insertion order. */
  type Query = seq<(string, string)>

  /** The six components of urlparse's ParseResult. */
  datatype UriParts = UriParts(scheme: string, netloc: string, path: string,
                               params: string, query: Query, fragment: string)

  /** d.get(k): the value of the first pair named k. */
  function Get(d: Query, k: string): Option<string>
  {
    if d == [] then None
    else if d[0].0 == k then Some(d[0].1)
    else Get(d[1..], k)
  }

  /** No name occurs twice, as in a Python dict. */
  ghost predicate UniqueKeys(d: Query)
  {
    d == [] || (Get(d[1..], d[0].0).None? && UniqueKeys(d[1..]))
  }

  /**
   d[k] = v on a Python dict: an existing key keeps its position and takes the new
   value, a new key is appended; every other key keeps its value.
   */
  function Put(d: Query, k: string, v: string): (r: Query)
    ensures Get(r, k) == Some(v)
    ensures forall k' :: k' != k ==> Get(r, k') == Get(d, k')
    ensures Get(d, k).Some? ==> |r| == |d| && forall i :: 0 <= i < |d| ==> r[i].0 == d[i].0
    ensures Get(d, k).None? ==> r == d + [(k, v)]
    ensures UniqueKeys(d) ==> UniqueKeys(r)
  {
    if d == [] then [(k, v)]
    else if d[0].0 == k then [(k, v)] + d[1..]
    else [d[0]] + Put(d[1..], k, v)
  }

  /** The value parse_qsl reports last for name k, ignoring blank values. */
  function LastValue(q: Query, k: string): Option<string>
  {
    if q == [] then None
    else if q[|q| - 1].0 == k && q[|q| - 1].1 != "" then Some(q[|q| - 1].1)
    else LastValue(q[..|q| - 1], k)
  }

  /**
   dict(parse_qsl(query)): pairs with a blank value are dropped (keep_blank_values is
   false) and the pairs are stored one after the other, so the last one wins.
   */
  function QueryDict(q: Query): (d: Query)
    ensures UniqueKeys(d)
    ensures forall k :: Get(d, k) == LastValue(q, k)
  {
    if q == [] then []
    else
      var rest := QueryDict(q[..|q| - 1]);
      var (k, v) := q[|q| - 1];
      if v == "" then rest else Put(rest, k, v)
  }
}
