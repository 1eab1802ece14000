/** A URL query string as the ordered list of key/value pairs that
    `URLSearchParams` holds. Percent-encoding is lossless and is not modelled. */
module QueryParams {
  import opened Wrappers

  /** The seven parameter names the property search uses. */
  const SearchNames: set<string> := {"location", "propertyType", "minPrice", "maxPrice", "guests", "page", "limit"}

  /** Any parameter name that is not one of the seven. */
  type ForeignName = name: string | name !in SearchNames witness ""

  /** A parameter name: one of the seven search names, or `Other(name)` for any
      other name, so that every name has exactly one key. */
  datatype Key = Location | PropertyType | MinPrice | MaxPrice | Guests | Page | Limit | Other(name: ForeignName)

  /** The name a key has in the query string. */
  function Name(k: Key): string {
    match k
    case Location => "location"
    case PropertyType => "propertyType"
    case MinPrice => "minPrice"
    case MaxPrice => "maxPrice"
    case Guests => "guests"
    case Page => "page"
    case Limit => "limit"
    case Other(name) => name
  }

  /** The key a query-string name denotes. */
  function KeyNamed(name: string): (k: Key)
    ensures Name(k) == name
    ensures k.Other? <==> name !in SearchNames
  {
    if name == "location" then Location
    else if name == "propertyType" then PropertyType
    else if name == "minPrice" then MinPrice
    else if name == "maxPrice" then MaxPrice
    else if name == "guests" then Guests
    else if name == "page" then Page
    else if name == "limit" then Limit
    else Other(name)
  }

  /** Every key is the key of its own name. */
  lemma {:induction false} KeyNamedName(k: Key)
    ensures KeyNamed(Name(k)) == k
  {
    match k
    case Other(name) =>
      assert name !in SearchNames;
    case _ =>
  }

  /** Distinct keys have distinct names, so reading by key is reading by name. */
  lemma NamesDistinct(a: Key, b: Key)
    requires a != b
    ensures Name(a) != Name(b)
  {
    KeyNamedName(a);
    KeyNamedName(b);
  }

  datatype Param = Param(key: Key, value: string)

  /** `searchParams.get(key)`: the value of the first pair with that key, or `null`. */
  function Get(ps: seq<Param>, key: Key): (r: Option<string>)
  {
    if ps == [] then None
    else if ps[0].key == key then Some(ps[0].value)
    else Get(ps[1..], key)
  }

  /** `Get` returns `null` exactly when no pair has the key, and otherwise the
      value of the first pair that has it. */
  lemma GetSound(ps: seq<Param>, key: Key)
    ensures Get(ps, key).None? <==> forall i :: 0 <= i < |ps| ==> ps[i].key != key
    ensures Get(ps, key).Some? ==> Param(key, Get(ps, key).value) in ps
    ensures Get(ps, key).Some? ==>
              exists i :: 0 <= i < |ps| && ps[i] == Param(key, Get(ps, key).value)
                          && forall j :: 0 <= j < i ==> ps[j].key != key
  {
    if ps != [] {
      if ps[0].key == key {
        assert ps[0] == Param(key, Get(ps, key).value);
      } else {
        GetSound(ps[1..], key);
        if Get(ps, key).Some? {
          var i :| 0 <= i < |ps[1..]| && ps[1..][i] == Param(key, Get(ps, key).value)
                   && forall j :: 0 <= j < i ==> ps[1..][j].key != key;
          assert ps[i + 1] == Param(key, Get(ps, key).value);
          assert forall j :: 0 <= j < i + 1 ==> ps[j].key != key by {
            forall j | 0 <= j < i + 1
              ensures ps[j].key != key
            {
              if j > 0 {
                assert ps[j] == ps[1..][j - 1];
              }
            }
          }
        }
      }
    }
  }

  /** Appending one optional pair in front of `rest`. */
  function Prepend(head: Option<Param>, rest: seq<Param>): (r: seq<Param>)
    ensures |r| == |rest| + (if head.Some? then 1 else 0)
  {
    match head
    case Some(p) => [p] + rest
    case None => rest
  }

  /** `Get` on a list with an optional pair in front reads that pair first. */
  lemma GetPrepend(head: Option<Param>, rest: seq<Param>, key: Key)
    ensures Get(Prepend(head, rest), key)
            == if head.Some? && head.value.key == key then Some(head.value.value) else Get(rest, key)
  {
    if head.Some? {
      assert Prepend(head, rest)[1..] == rest;
    }
  }
}
