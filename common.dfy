/** Values shared by every part of the search model: optional values, PHP truthiness,
    metadata values and their kinds, PHP array helpers and the URL constraint set. */
module Common {

  datatype Option<+T> = None | Some(value: T)

  /** A scalar stored in a search index record's metadata or in a report's content_info. */
  datatype Value = Int(i: int) | Str(s: string) | Bool(b: bool)

  /** The field kinds a metadata structure declares (INT, KEYWORD, BOOL). */
  datatype Kind = Integer | Keyword | Boolean

  function KindOf(v: Value): Kind
  {
    match v
    case Int(_) => Integer
    case Str(_) => Keyword
    case Bool(_) => Boolean
  }

  /** Field name to value. A PHP null is modelled as an absent key. */
  type Metadata = map<string, Value>

  /** Every key of `md` is declared by `schema`, with the kind of its value. */
  ghost predicate Conforms(md: Metadata, schema: map<string, Kind>)
  {
    forall k :: k in md ==> k in schema && schema[k] == KindOf(md[k])
  }

  /** PHP truthiness of a string: "" and "0" are false. */
  predicate TruthyString(s: string)
  {
    s != "" && s != "0"
  }

  /** PHP truthiness of a nullable string. */
  predicate Truthy(s: Option<string>)
  {
    s.Some? && TruthyString(s.value)
  }

  /** PHP's `$left += $right` on arrays: a key already on the left is never overwritten. */
  function AddMissing(left: Metadata, right: Metadata): (r: Metadata)
    ensures r.Keys == left.Keys + right.Keys
    ensures forall k :: k in left ==> r[k] == left[k]
    ensures forall k :: k in right && k !in left ==> r[k] == right[k]
  {
    right + left
  }

  /** Sequence with no element twice. */
  ghost predicate Distinct<T>(s: seq<T>)
  {
    forall i, j :: 0 <= i < j < |s| ==> s[i] != s[j]
  }

  /** PHP's array_unique: the first occurrence of every element, in order. */
  function Dedup<T(==)>(s: seq<T>): seq<T>
  {
    if s == [] then []
    else
      var p := Dedup(s[..|s| - 1]);
      if s[|s| - 1] in s[..|s| - 1] then p else p + [s[|s| - 1]]
  }

  lemma {:induction false} DedupProperties<T>(s: seq<T>)
    ensures Distinct(Dedup(s))
    ensures forall x :: x in Dedup(s) <==> x in s
    ensures |Dedup(s)| <= |s|
  {
    if s != [] {
      var init := s[..|s| - 1];
      DedupProperties(init);
      assert forall x :: x in s <==> x in init || x == s[|s| - 1];
    }
  }

  lemma DedupOfPrefix<T>(s: seq<T>, n: nat)
    requires n < |s|
    ensures Dedup(s[..n + 1]) ==
      if s[n] in s[..n] then Dedup(s[..n]) else Dedup(s[..n]) + [s[n]]
  {
    assert s[..n + 1][..n] == s[..n];
  }

  /** The URL constraint set: filter key to the values written into the shareable query string. */
  type UrlConstraints = map<string, seq<string>>

  /** Arr::setUrlConstraint, by the contract its name implies. */
  function SetUrlConstraint(url: UrlConstraints, key: string, values: seq<string>): UrlConstraints
  {
    url[key := values]
  }

  /** Arr::unsetUrlConstraint, by the contract its name implies. */
  function UnsetUrlConstraint(url: UrlConstraints, key: string): UrlConstraints
  {
    url - {key}
  }

  function Ints(s: seq<int>): (r: seq<Value>)
    ensures |r| == |s| && forall i :: 0 <= i < |s| ==> r[i] == Int(s[i])
  {
    seq(|s|, i requires 0 <= i < |s| => Int(s[i]))
  }

  function Strs(s: seq<string>): (r: seq<Value>)
    ensures |r| == |s| && forall i :: 0 <= i < |s| ==> r[i] == Str(s[i])
  {
    seq(|s|, i requires 0 <= i < |s| => Str(s[i]))
  }
}
