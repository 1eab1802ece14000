/** `GET /api/properties` (src/app/api/properties/route.ts): reads the search
    parameters, builds the where clause and pagination, queries the store and
    shapes the response. The store query is given a denotation over an
    in-memory sequence of properties (with their host, images and reviews
    already attached). */
module PropertiesRoute {
  import opened Wrappers
  import opened Types
  import opened Text
  import opened Numerals
  import opened QueryParams
  import opened Ordering

  /** One field constraint of the where clause. */
  datatype Constraint =
    | LocationContains(text: string)                  // location: { contains, mode: "insensitive" }
    | TypeEquals(propertyType: string)                // propertyType: value
    | PriceBetween(gte: Option<int>, lte: Option<int>) // pricePerNight: { gte?, lte? }
    | GuestsAtLeast(guests: int)                      // maxGuests: { gte }

  /** The where clause: a conjunction of constraints, in the order the route adds them. */
  type Where = seq<Constraint>

  datatype FindManyArgs = FindManyArgs(where: Where, take: int, skip: int)

  /** What a property must satisfy for one constraint. The location test is
      case-insensitive substring containment. */
  predicate Holds(p: Property, c: Constraint) {
    match c
    case LocationContains(text) => Contains(Lower(p.location), Lower(text))
    case TypeEquals(t) => p.propertyType == t
    case PriceBetween(gte, lte) =>
      (gte.Some? ==> p.pricePerNight >= gte.value) && (lte.Some? ==> p.pricePerNight <= lte.value)
    case GuestsAtLeast(n) => p.maxGuests >= n
  }

  /** A property matches a where clause when it satisfies every constraint. */
  predicate Satisfies(p: Property, w: Where) {
    forall i :: 0 <= i < |w| ==> Holds(p, w[i])
  }

  /** JavaScript truthiness of `searchParams.get(...)`: present and not empty. */
  predicate Truthy(v: Option<string>) {
    v.Some? && v.value != ""
  }

  /** A numeric parameter, when truthy, must be a numeral: the route parses it
      without checking and the caller is expected to send well-formed numbers. */
  predicate NumeralOrFalsy(v: Option<string>) {
    Truthy(v) ==> IsNumeral(v.value)
  }

  predicate NumeralsWellFormed(ps: seq<Param>) {
    && NumeralOrFalsy(Get(ps, MinPrice))
    && NumeralOrFalsy(Get(ps, MaxPrice))
    && NumeralOrFalsy(Get(ps, Guests))
    && NumeralOrFalsy(Get(ps, Limit))
    && NumeralOrFalsy(Get(ps, Page))
  }

  /** The number a truthy numeric parameter denotes. */
  function NumberOf(v: Option<string>): int
    requires Truthy(v) && IsNumeral(v.value)
  {
    ParseInt(v.value).value
  }

  /** The where clause the route builds from the request's parameters. */
  function BuildWhere(ps: seq<Param>): (w: Where)
    requires NumeralsWellFormed(ps)
    ensures |w| <= 4
    // each criterion that is present adds its own constraint ...
    ensures Truthy(Get(ps, Location)) ==> LocationContains(Get(ps, Location).value) in w
    ensures Truthy(Get(ps, PropertyType)) ==> TypeEquals(Get(ps, PropertyType).value) in w
    ensures Truthy(Get(ps, Guests)) ==> GuestsAtLeast(NumberOf(Get(ps, Guests))) in w
    ensures Truthy(Get(ps, MinPrice)) || Truthy(Get(ps, MaxPrice)) ==>
              PriceBetween(if Truthy(Get(ps, MinPrice)) then Some(NumberOf(Get(ps, MinPrice))) else None,
                           if Truthy(Get(ps, MaxPrice)) then Some(NumberOf(Get(ps, MaxPrice))) else None) in w
    // ... and nothing else: an absent or empty criterion adds no constraint
    ensures forall c :: c in w && c.LocationContains? ==> Truthy(Get(ps, Location)) && c.text == Get(ps, Location).value
    ensures forall c :: c in w && c.TypeEquals? ==>
              Truthy(Get(ps, PropertyType)) && c.propertyType == Get(ps, PropertyType).value
    ensures forall c :: c in w && c.GuestsAtLeast? ==> Truthy(Get(ps, Guests)) && c.guests == NumberOf(Get(ps, Guests))
    ensures forall c :: c in w && c.PriceBetween? ==>
              && (Truthy(Get(ps, MinPrice)) || Truthy(Get(ps, MaxPrice)))
              && (c.gte.Some? <==> Truthy(Get(ps, MinPrice)))
              && (c.lte.Some? <==> Truthy(Get(ps, MaxPrice)))
  {
    var location := Get(ps, Location);
    var propertyType := Get(ps, PropertyType);
    var minPrice := Get(ps, MinPrice);
    var maxPrice := Get(ps, MaxPrice);
    var guests := Get(ps, Guests);
    var w := LocationPart(location) + TypePart(propertyType) + PricePart(minPrice, maxPrice) + GuestsPart(guests);
    assert forall c :: c in w <==>
      c in LocationPart(location) || c in TypePart(propertyType) || c in PricePart(minPrice, maxPrice) || c in GuestsPart(guests);
    w
  }

  /** The location constraint, when the parameter is truthy. */
  function LocationPart(v: Option<string>): (w: Where)
    ensures |w| <= 1
    ensures forall c :: c in w <==> Truthy(v) && c == LocationContains(v.value)
  {
    if Truthy(v) then [LocationContains(v.value)] else []
  }

  /** The property-type constraint, when the parameter is truthy. */
  function TypePart(v: Option<string>): (w: Where)
    ensures |w| <= 1
    ensures forall c :: c in w <==> Truthy(v) && c == TypeEquals(v.value)
  {
    if Truthy(v) then [TypeEquals(v.value)] else []
  }

  /** The price constraint, when either bound is truthy; each bound is present
      exactly when its parameter is truthy. */
  function PricePart(minPrice: Option<string>, maxPrice: Option<string>): (w: Where)
    requires NumeralOrFalsy(minPrice) && NumeralOrFalsy(maxPrice)
    ensures |w| <= 1
    ensures forall c :: c in w <==>
              && (Truthy(minPrice) || Truthy(maxPrice))
              && c == PriceBetween(if Truthy(minPrice) then Some(NumberOf(minPrice)) else None,
                                   if Truthy(maxPrice) then Some(NumberOf(maxPrice)) else None)
  {
    if Truthy(minPrice) || Truthy(maxPrice) then
      [PriceBetween(if Truthy(minPrice) then Some(NumberOf(minPrice)) else None,
                    if Truthy(maxPrice) then Some(NumberOf(maxPrice)) else None)]
    else []
  }

  /** The guest-capacity constraint, when the parameter is truthy. */
  function GuestsPart(v: Option<string>): (w: Where)
    requires NumeralOrFalsy(v)
    ensures |w| <= 1
    ensures forall c :: c in w <==> Truthy(v) && c == GuestsAtLeast(NumberOf(v))
  {
    if Truthy(v) then [GuestsAtLeast(NumberOf(v))] else []
  }

  /** `searchParams.get(key) || fallback`, parsed. */
  function NumberOr(v: Option<string>, fallback: int): int
    requires NumeralOrFalsy(v)
  {
    if Truthy(v) then NumberOf(v) else fallback
  }

  const DefaultLimit := 20
  const DefaultPage := 1

  /** The arguments of the store query: where clause, `take = limit` and
      `skip = (page - 1) * limit`, with limit 20 and page 1 by default. */
  function BuildArgs(ps: seq<Param>): (args: FindManyArgs)
    requires NumeralsWellFormed(ps)
    ensures args.where == BuildWhere(ps)
    ensures !Truthy(Get(ps, Limit)) ==> args.take == DefaultLimit
    ensures Truthy(Get(ps, Limit)) ==> args.take == NumberOf(Get(ps, Limit))
    ensures !Truthy(Get(ps, Page)) ==> args.skip == 0
    ensures Truthy(Get(ps, Page)) ==> args.skip == (NumberOf(Get(ps, Page)) - 1) * args.take
  {
    var limit := NumberOr(Get(ps, Limit), DefaultLimit);
    var page := NumberOr(Get(ps, Page), DefaultPage);
    FindManyArgs(BuildWhere(ps), limit, (page - 1) * limit)
  }

  /** The properties of `rows` that match `w`, in store order. */
  function Filter(rows: seq<Property>, w: Where): (r: seq<Property>)
    ensures |r| <= |rows|
    ensures forall p :: p in r <==> p in rows && Satisfies(p, w)
    ensures multiset(r) <= multiset(rows)
    ensures forall p :: multiset(r)[p] == if Satisfies(p, w) then multiset(rows)[p] else 0
  {
    if rows == [] then []
    else
      assert rows == [rows[0]] + rows[1..];
      var rest := Filter(rows[1..], w);
      if Satisfies(rows[0], w) then [rows[0]] + rest else rest
  }

  /** `skip` then `take` over an ordered sequence. */
  function Window(s: seq<Property>, skip: nat, take: nat): (r: seq<Property>)
    ensures |r| <= take
    ensures skip <= |s| ==> skip + |r| <= |s| && r == s[skip..skip + |r|]
    ensures forall p :: p in r ==> p in s
    ensures skip + take <= |s| ==> |r| == take
    ensures skip <= |s| ==> |r| == if |s| - skip < take then |s| - skip else take
    ensures skip >= |s| ==> r == []
  {
    var lo := if skip < |s| then skip else |s|;
    var hi := if skip + take < |s| then skip + take else |s|;
    s[lo..hi]
  }

  /** A window of a newest-first sequence is newest first. */
  lemma WindowNewestFirst(s: seq<Property>, skip: nat, take: nat)
    requires NewestFirst(s)
    ensures NewestFirst(Window(s, skip, take))
  {
  }

  /** A negative `take` counts from the end: the last `count` elements before
      the `skip` last ones, still in the sequence's order. */
  function WindowFromEnd(s: seq<Property>, skip: nat, count: nat): (r: seq<Property>)
    ensures |r| <= count
    ensures skip <= |s| ==> |r| <= |s| - skip && r == s[|s| - skip - |r|..|s| - skip]
    ensures forall p :: p in r ==> p in s
    ensures skip + count <= |s| ==> |r| == count
    ensures skip <= |s| ==> |r| == if |s| - skip < count then |s| - skip else count
    ensures skip >= |s| ==> r == []
  {
    var hi := if skip < |s| then |s| - skip else 0;
    var lo := if hi < count then 0 else hi - count;
    var r := s[lo..hi];
    assert |r| == hi - lo;
    assert forall p :: p in r ==> p in s by {
      forall p | p in r
        ensures p in s
      {
        var k :| 0 <= k < |r| && r[k] == p;
        assert s[lo + k] == p;
      }
    }
    r
  }

  /** The sequence in reverse order. */
  function Reverse(s: seq<Property>): (r: seq<Property>)
    ensures |r| == |s|
    ensures forall i :: 0 <= i < |s| ==> r[i] == s[|s| - 1 - i]
  {
    seq(|s|, i requires 0 <= i < |s| => s[|s| - 1 - i])
  }

  /** Counting from the end is reversing the order, skipping and taking as
      usual, and reversing the page back. */
  lemma FromEndIsReversedWindow(s: seq<Property>, skip: nat, count: nat)
    ensures WindowFromEnd(s, skip, count) == Reverse(Window(Reverse(s), skip, count))
  {
    var a := WindowFromEnd(s, skip, count);
    var b := Reverse(Window(Reverse(s), skip, count));
    FromEndSameLength(s, skip, count);
    forall i | 0 <= i < |a|
      ensures a[i] == b[i]
    {
      FromEndAt(s, skip, count, i);
    }
  }

  /** Both ways of counting from the end select the same number of elements. */
  lemma FromEndSameLength(s: seq<Property>, skip: nat, count: nat)
    ensures |Window(Reverse(s), skip, count)| == |WindowFromEnd(s, skip, count)|
  {
    if skip < |s| {
      assert |WindowFromEnd(s, skip, count)| == if |s| - skip < count then |s| - skip else count;
    }
  }

  /** Elementwise half of `FromEndIsReversedWindow`. */
  lemma FromEndAt(s: seq<Property>, skip: nat, count: nat, i: nat)
    requires i < |WindowFromEnd(s, skip, count)|
    ensures i < |Reverse(Window(Reverse(s), skip, count))|
    ensures Reverse(Window(Reverse(s), skip, count))[i] == WindowFromEnd(s, skip, count)[i]
  {
    FromEndSameLength(s, skip, count);
    FromEndElement(s, skip, count, i);
    ReversedWindowElement(s, skip, count, i);
  }

  /** An element of a window counted from the end, read from the original list. */
  lemma FromEndElement(s: seq<Property>, skip: nat, count: nat, i: nat)
    requires i < |WindowFromEnd(s, skip, count)|
    ensures skip + |WindowFromEnd(s, skip, count)| <= |s|
    ensures WindowFromEnd(s, skip, count)[i] == s[|s| - skip - |WindowFromEnd(s, skip, count)| + i]
  {
    var hi := |s| - skip;
    var lo := if hi < count then 0 else hi - count;
    assert WindowFromEnd(s, skip, count) == s[lo..hi];
  }

  /** An element of the reversed window of the reversed list, read from the
      original list. */
  lemma ReversedWindowElement(s: seq<Property>, skip: nat, count: nat, i: nat)
    requires i < |Window(Reverse(s), skip, count)|
    ensures skip + |Window(Reverse(s), skip, count)| <= |s|
    ensures Reverse(Window(Reverse(s), skip, count))[i] == s[|s| - skip - |Window(Reverse(s), skip, count)| + i]
  {
    var rs := Reverse(s);
    var w := Window(rs, skip, count);
    var j := |w| - 1 - i;
    assert Reverse(w)[i] == w[j];
    assert w[j] == rs[skip + j];
  }

  /** A window counted from the end of a newest-first sequence is newest first. */
  lemma WindowFromEndNewestFirst(s: seq<Property>, skip: nat, count: nat)
    requires NewestFirst(s)
    ensures NewestFirst(WindowFromEnd(s, skip, count))
  {
  }

  /** The size of a page asked for with `take`, whichever end it counts from. */
  function PageSize(take: int): nat {
    if take < 0 then -take else take
  }

  /** Where the store is: reachable with its current rows, or failing. */
  datatype Store = Reachable(rows: seq<Property>) | Unreachable

  datatype QueryError = StoreFailed | NegativeSkip

  /** The matches of `w` in `rows`, newest first: the sequence pagination slices. */
  function Matches(rows: seq<Property>, w: Where): (r: seq<Property>)
    ensures NewestFirst(r)
    ensures forall p :: p in r <==> p in rows && Satisfies(p, w)
    ensures forall p :: multiset(r)[p] == if Satisfies(p, w) then multiset(rows)[p] else 0
  {
    var matching := Filter(rows, w);
    var sorted := SortNewestFirst(matching);
    assert forall p :: p in sorted <==> p in multiset(sorted);
    assert forall p :: p in matching <==> p in multiset(matching);
    sorted
  }

  /** `prisma.property.findMany({ where, take, skip, orderBy: { createdAt: "desc" } })`.
      A negative `take` counts from the end of the ordered matches; a negative
      `skip` is rejected, like a store failure. */
  function FindMany(store: Store, args: FindManyArgs): (r: Result<seq<Property>, QueryError>)
    ensures store.Unreachable? ==> r.Failure?
    ensures store.Reachable? ==> (r.Success? <==> args.skip >= 0)
    ensures r.Success? ==>
              && |r.value| <= PageSize(args.take)
              && NewestFirst(r.value)
              && (forall p :: p in r.value ==> p in store.rows && Satisfies(p, args.where))
  {
    if store.Unreachable? then Failure(StoreFailed)
    else if args.skip < 0 then Failure(NegativeSkip)
    else
      var matches := Matches(store.rows, args.where);
      if args.take >= 0 then
        WindowNewestFirst(matches, args.skip, args.take);
        Success(Window(matches, args.skip, args.take))
      else
        WindowFromEndNewestFirst(matches, args.skip, -args.take);
        Success(WindowFromEnd(matches, args.skip, -args.take))
  }

  const FetchFailedMessage := "Failed to fetch properties"

  datatype Body = PropertyList(properties: seq<Property>) | ErrorBody(error: string)

  datatype Response = Response(status: int, body: Body)

  /** The `GET` handler: 200 with the page of properties, or 500 with the fixed
      error body whenever the query fails. */
  function HandleGet(ps: seq<Param>, store: Store): (r: Response)
    requires NumeralsWellFormed(ps)
    ensures r.status == 200 || r.status == 500
    ensures r.status == 200 <==> r.body.PropertyList?
    ensures r.status == 500 ==> r.body == ErrorBody(FetchFailedMessage)
    ensures store.Unreachable? ==> r == Response(500, ErrorBody(FetchFailedMessage))
    ensures store.Reachable? ==> (r.status == 200 <==> BuildArgs(ps).skip >= 0)
    ensures r.status == 200 ==> r.body.properties == FindMany(store, BuildArgs(ps)).value
    ensures r.status == 200 ==>
              && store.Reachable?
              && |r.body.properties| <= PageSize(BuildArgs(ps).take)
              && NewestFirst(r.body.properties)
              && forall p :: p in r.body.properties ==> p in store.rows && Satisfies(p, BuildWhere(ps))
  {
    match FindMany(store, BuildArgs(ps))
    case Success(properties) => Response(200, PropertyList(properties))
    case Failure(_) => Response(500, ErrorBody(FetchFailedMessage))
  }

  /** A conjunction of two where clauses holds when both hold. */
  lemma SatisfiesAppend(p: Property, a: Where, b: Where)
    ensures Satisfies(p, a + b) <==> Satisfies(p, a) && Satisfies(p, b)
  {
    if Satisfies(p, a) && Satisfies(p, b) {
      forall i | 0 <= i < |a + b|
        ensures Holds(p, (a + b)[i])
      {
        if i >= |a| {
          assert (a + b)[i] == b[i - |a|];
        }
      }
    }
    if Satisfies(p, a + b) {
      forall i | 0 <= i < |a|
        ensures Holds(p, a[i])
      {
        assert (a + b)[i] == a[i];
      }
      forall i | 0 <= i < |b|
        ensures Holds(p, b[i])
      {
        assert (a + b)[|a| + i] == b[i];
      }
    }
  }

  /** What matching the route's where clause means, stated directly on the
      request's parameters: each truthy criterion constrains its own field, and
      nothing else is constrained. */
  lemma {:induction false} WhereDenotation(ps: seq<Param>, p: Property)
    requires NumeralsWellFormed(ps)
    ensures Satisfies(p, BuildWhere(ps)) <==>
              && (Truthy(Get(ps, Location)) ==> Contains(Lower(p.location), Lower(Get(ps, Location).value)))
              && (Truthy(Get(ps, PropertyType)) ==> p.propertyType == Get(ps, PropertyType).value)
              && (Truthy(Get(ps, MinPrice)) ==> p.pricePerNight >= NumberOf(Get(ps, MinPrice)))
              && (Truthy(Get(ps, MaxPrice)) ==> p.pricePerNight <= NumberOf(Get(ps, MaxPrice)))
              && (Truthy(Get(ps, Guests)) ==> p.maxGuests >= NumberOf(Get(ps, Guests)))
  {
    var location := Get(ps, Location);
    var propertyType := Get(ps, PropertyType);
    var minPrice := Get(ps, MinPrice);
    var maxPrice := Get(ps, MaxPrice);
    var guests := Get(ps, Guests);
    var l := LocationPart(location);
    var t := TypePart(propertyType);
    var pr := PricePart(minPrice, maxPrice);
    var g := GuestsPart(guests);
    assert BuildWhere(ps) == l + t + pr + g;
    SatisfiesAppend(p, l + t + pr, g);
    SatisfiesAppend(p, l + t, pr);
    SatisfiesAppend(p, l, t);
    SatisfiesPart(p, l);
    SatisfiesPart(p, t);
    SatisfiesPart(p, pr);
    SatisfiesPart(p, g);
  }

  /** A where clause of at most one constraint holds when that constraint does. */
  lemma SatisfiesPart(p: Property, w: Where)
    requires |w| <= 1
    ensures Satisfies(p, w) <==> (w != [] ==> Holds(p, w[0]))
  {
  }

  /** With no parameters the where clause is empty, so every property matches,
      and the first page of 20 is requested. */
  lemma NoParamsMatchEverything(p: Property)
    ensures NumeralsWellFormed([])
    ensures BuildArgs([]) == FindManyArgs([], 20, 0)
    ensures Satisfies(p, BuildWhere([]))
  {
  }

  /** `page=3&limit=10` asks for 10 properties after skipping 20. */
  lemma PaginationExample()
    ensures NumeralsWellFormed([Param(Page, "3"), Param(Limit, "10")])
    ensures BuildArgs([Param(Page, "3"), Param(Limit, "10")]).take == 10
    ensures BuildArgs([Param(Page, "3"), Param(Limit, "10")]).skip == 20
  {
    assert Get([Param(Page, "3"), Param(Limit, "10")], Limit) == Some("10");
    assert DigitsValue("10") == 10 by {
      assert "10"[..1] == "1";
    }
  }

  /** The page number is not checked: `page=0` gives a negative skip, which the
      store rejects, so the response is the 500 error. */
  lemma PageZeroFails(rows: seq<Property>)
    ensures NumeralsWellFormed([Param(Page, "0")])
    ensures BuildArgs([Param(Page, "0")]).skip == -20
    ensures HandleGet([Param(Page, "0")], Reachable(rows)) == Response(500, ErrorBody(FetchFailedMessage))
  {
    assert Get([Param(Page, "0")], Page) == Some("0");
  }

  /** A property in "New York, NY" matches the search text "new york". */
  lemma LocationMatchIgnoresCase()
    ensures Contains(Lower("New York, NY"), Lower("new york"))
  {
    assert OccursAt(Lower("New York, NY"), Lower("new york"), 0);
  }

  /** `items` is the page that `skip` and `take` select from `all`: the slice
      starting at `skip` when `take` is non-negative, the slice ending `skip`
      before the end when it is negative, and nothing past the end. The page
      holds `|take|` elements, or all that remain when fewer do. */
  predicate PageOf(items: seq<Property>, all: seq<Property>, skip: int, take: int) {
    && 0 <= skip
    && (skip >= |all| ==> items == [])
    && (skip <= |all| ==> |items| == if |all| - skip < PageSize(take) then |all| - skip else PageSize(take))
    && (take >= 0 && skip <= |all| ==>
          skip + |items| <= |all| && items == all[skip..skip + |items|])
    && (take < 0 && skip <= |all| ==>
          skip + |items| <= |all| && items == all[|all| - skip - |items|..|all| - skip])
  }

  /** A successful response holds a contiguous slice of the newest-first
      matches: pagination applies to the filtered order, not to the whole store. */
  lemma PageIsSliceOfMatches(ps: seq<Param>, rows: seq<Property>)
    requires NumeralsWellFormed(ps)
    requires HandleGet(ps, Reachable(rows)).status == 200
    ensures PageOf(HandleGet(ps, Reachable(rows)).body.properties,
                   Matches(rows, BuildWhere(ps)), BuildArgs(ps).skip, BuildArgs(ps).take)
  {
    var args := BuildArgs(ps);
    var found := FindMany(Reachable(rows), args);
    assert HandleGet(ps, Reachable(rows)) == Response(200, PropertyList(found.value));
    FoundPageIsSlice(rows, args);
  }

  /** The store-level half of `PageIsSliceOfMatches`. */
  lemma FoundPageIsSlice(rows: seq<Property>, args: FindManyArgs)
    requires FindMany(Reachable(rows), args).Success?
    ensures PageOf(FindMany(Reachable(rows), args).value, Matches(rows, args.where), args.skip, args.take)
  {
    FindManyValue(rows, args);
    if args.take >= 0 {
      WindowIsSlice(Matches(rows, args.where), args.skip, args.take);
    } else {
      WindowFromEndIsSlice(Matches(rows, args.where), args.skip, -args.take);
    }
  }

  /** On a reachable store with a non-negative skip, the query answers the page
      of the newest-first matches. */
  lemma FindManyValue(rows: seq<Property>, args: FindManyArgs)
    requires args.skip >= 0
    ensures FindMany(Reachable(rows), args)
            == Success(if args.take >= 0 then Window(Matches(rows, args.where), args.skip, args.take)
                       else WindowFromEnd(Matches(rows, args.where), args.skip, -args.take))
  {
  }

  /** `Window` selects the page `PageOf` describes for a non-negative `take`. */
  lemma WindowIsSlice(all: seq<Property>, skip: nat, take: nat)
    ensures PageOf(Window(all, skip, take), all, skip, take)
  {
  }

  /** `WindowFromEnd` selects the page `PageOf` describes for a negative `take`. */
  lemma WindowFromEndIsSlice(all: seq<Property>, skip: nat, count: nat)
    ensures PageOf(WindowFromEnd(all, skip, count), all, skip, -(count as int))
  {
  }

  /** `limit=-5` is not rejected: the store counts from the end and answers with
      the five oldest matches. */
  lemma NegativeLimitCountsFromEnd(rows: seq<Property>)
    ensures NumeralsWellFormed([Param(Limit, "-5")])
    ensures BuildArgs([Param(Limit, "-5")]).take == -5 && BuildArgs([Param(Limit, "-5")]).skip == 0
    ensures HandleGet([Param(Limit, "-5")], Reachable(rows))
            == Response(200, PropertyList(WindowFromEnd(Matches(rows, []), 0, 5)))
  {
    var ps := [Param(Limit, "-5")];
    assert Get(ps, Limit) == Some("-5");
    assert "-5"[1..] == "5";
    assert BuildWhere(ps) == [];
    var args := BuildArgs(ps);
    assert args == FindManyArgs([], -5, 0);
    FindManyValue(rows, args);
  }

  /** Two consecutive pages of size `take` make up the window of size `2 * take`. */
  lemma {:induction false} ConsecutiveWindows(s: seq<Property>, skip: nat, take: nat)
    ensures Window(s, skip, take) + Window(s, skip + take, take) == Window(s, skip, 2 * take)
  {
    if skip + take <= |s| {
      assert s[skip..skip + take] + Window(s, skip + take, take) == s[skip..|Window(s, skip, 2 * take)| + skip];
    }
  }

  /** When every match fits on the first page, the page returns all of them. */
  lemma FirstPageHoldsEveryMatch(ps: seq<Param>, rows: seq<Property>, p: Property)
    requires NumeralsWellFormed(ps)
    requires BuildArgs(ps).skip == 0
    requires |Matches(rows, BuildWhere(ps))| <= BuildArgs(ps).take
    requires p in rows && Satisfies(p, BuildWhere(ps))
    ensures HandleGet(ps, Reachable(rows)).status == 200
    ensures p in HandleGet(ps, Reachable(rows)).body.properties
  {
    var args := BuildArgs(ps);
    FirstPageIsAllMatches(rows, args);
    assert p in Matches(rows, args.where);
  }

  /** The store-level half of `FirstPageHoldsEveryMatch`: a first page at least
      as long as the matches returns all of them. */
  lemma FirstPageIsAllMatches(rows: seq<Property>, args: FindManyArgs)
    requires args.skip == 0 && |Matches(rows, args.where)| <= args.take
    ensures FindMany(Reachable(rows), args) == Success(Matches(rows, args.where))
  {
    var all := Matches(rows, args.where);
    FindManyValue(rows, args);
    assert Window(all, 0, args.take) == all;
  }
}
