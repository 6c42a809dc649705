/** The filter values the search form's request filter produces, and the search add-on's
    repository helpers (applyUserConstraint, applyRangeConstraint, applyDateRangeConstraint)
    that the filter compilers call. Their bodies are not part of this model: each is a
    function from what it reads to what it adds to the query and the URL set it returns. */
module SearchImprovements {
  import opened Common
  import opened Constraints

  /** One coerced request value: 'str', 'uint', '?uint', 'array-str', 'bool', '?bool',
      'datetime', '?datetime'. */
  datatype FilterValue =
    | FStr(s: string)
    | FNat(n: nat)
    | FOptNat(o: Option<nat>)
    | FStrs(ss: seq<string>)
    | FBool(b: bool)
    | FOptBool(ob: Option<bool>)
    | FDate(t: int)
    | FOptDate(ot: Option<int>)

  /** The `$constraints` array the helpers are handed: filter key to value. */
  type FilterInput = map<string, FilterValue>

  /** The repository's helpers. A user helper is given the array, the URL set, the filter
      key and the metadata field; a range helper the array, the URL set, the lower and
      upper filter keys and the metadata field. The SQL table references they also
      receive are left out. */
  datatype Repo = Repo(
    userConstraint: (FilterInput, UrlConstraints, string, string) -> HelperEffect,
    rangeConstraint: (FilterInput, UrlConstraints, string, string, string) -> HelperEffect,
    dateRangeConstraint: (FilterInput, UrlConstraints, string, string, string) -> HelperEffect)

  /** One helper's effect followed by another's, the second given the first's URL set. */
  function Then(first: HelperEffect, second: HelperEffect): HelperEffect
  {
    HelperEffect(first.added + second.added, first.errors + second.errors, second.url)
  }
}
