/**
 * A URL's query, already parsed into its ordered (name, value) pairs, and
 * the two operations the plugin applies to it: `URLSearchParams.get`, which
 * answers the value of the first pair with the given name, and
 * `convertSearchParams`, which lower-cases every name.
 */
module SearchParams {
  import opened Wrappers
  import opened Strings

  /** The pairs of a query string, in the order they occur in the URL. */
  type Query = seq<(string, string)>

  /** `params.get(name)`: the value of the first pair named `name`, if any. */
  function Get(q: Query, name: string): (r: Option<string>)
    ensures r.None? <==> forall i :: 0 <= i < |q| ==> q[i].0 != name
    ensures r.Some? ==>
      exists i :: (&& 0 <= i < |q| && q[i].0 == name && q[i].1 == r.value
                   && forall j :: 0 <= j < i ==> q[j].0 != name)
  {
    if q == [] then None
    else if q[0].0 == name then Some(q[0].1)
    else
      var r := Get(q[1..], name);
      assert r.Some? ==> q[1..][0].0 == name || exists i :: 1 <= i < |q[1..]| && q[1..][i].0 == name;
      r
  }

  /**
   * `convertSearchParams(params)`: the same pairs in the same order, each
   * name lower-cased and each value kept.
   */
  function ConvertSearchParams(q: Query): (r: Query)
    ensures |r| == |q|
    ensures forall i :: 0 <= i < |q| ==> r[i].0 == Lower(q[i].0) && r[i].1 == q[i].1
  {
    if q == [] then [] else [(Lower(q[0].0), q[0].1)] + ConvertSearchParams(q[1..])
  }

  /**
   * Looking a key up in the lower-cased query finds the first pair whose
   * name lower-cases to that key, and finds nothing exactly when no name
   * does.
   */
  lemma GetConverted(q: Query, key: string)
    ensures Get(ConvertSearchParams(q), key).None? <==>
      forall i :: 0 <= i < |q| ==> Lower(q[i].0) != key
    ensures Get(ConvertSearchParams(q), key).Some? ==>
      exists i :: (&& 0 <= i < |q| && Lower(q[i].0) == key
                   && q[i].1 == Get(ConvertSearchParams(q), key).value
                   && forall j :: 0 <= j < i ==> Lower(q[j].0) != key)
  {
  }

  /** Lower-casing the names of a query whose names are already lower case changes nothing. */
  lemma ConvertLowerQuery(q: Query)
    requires forall i :: 0 <= i < |q| ==> Lower(q[i].0) == q[i].0
    ensures ConvertSearchParams(q) == q
  {
  }
}
