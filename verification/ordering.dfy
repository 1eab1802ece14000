/** The fixed `orderBy: { createdAt: "desc" }` of the property listing:
    newest first. Ties in `createdAt` keep their store order (the database
    leaves them unspecified; this is one admissible choice). */
module Ordering {
  import opened Types

  /** No property is followed by a strictly newer one. */
  predicate NewestFirst(s: seq<Property>) {
    forall i, j :: 0 <= i < j < |s| ==> s[i].createdAt >= s[j].createdAt
  }

  /** Places `p` before the first property that is not newer than it. */
  function Insert(p: Property, s: seq<Property>): (r: seq<Property>)
    requires NewestFirst(s)
    ensures NewestFirst(r)
    ensures multiset(r) == multiset(s) + multiset{p}
    ensures |r| == |s| + 1
    ensures r != [] && (r[0] == p || (s != [] && r[0] == s[0]))
  {
    if s == [] || p.createdAt >= s[0].createdAt then
      [p] + s
    else
      var rest := Insert(p, s[1..]);
      assert s == [s[0]] + s[1..];
      [s[0]] + rest
  }

  /** `s` ordered newest first: a permutation of `s` with non-increasing `createdAt`. */
  function SortNewestFirst(s: seq<Property>): (r: seq<Property>)
    ensures NewestFirst(r)
    ensures multiset(r) == multiset(s)
    ensures |r| == |s|
  {
    if s == [] then []
    else
      assert s == [s[0]] + s[1..];
      Insert(s[0], SortNewestFirst(s[1..]))
  }
}
