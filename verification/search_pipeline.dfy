/** The search pipeline end to end: the parameters `PropertyService.getProperties`
    sends (src/lib/services/propertyService.ts) read back by the `GET` route
    (src/app/api/properties/route.ts), and the list the home page then shows
    (src/components/FeaturedProperties.tsx). */
module SearchPipeline {
  import opened Wrappers
  import opened Types
  import opened Text
  import opened Numerals
  import opened QueryParams
  import opened PropertyService
  import opened PropertiesRoute
  import opened FeaturedProperties

  /** What the client's filter record asks of a property, stated on the record
      itself: each truthy field constrains its own property field. */
  predicate MeetsFilters(p: Property, f: SearchFilters) {
    && (TruthyText(f.location) ==> Contains(Lower(p.location), Lower(f.location.value)))
    && (TruthyText(f.propertyType) ==> p.propertyType == f.propertyType.value)
    && (TruthyNumber(f.priceMin) ==> p.pricePerNight >= f.priceMin.value)
    && (TruthyNumber(f.priceMax) ==> p.pricePerNight <= f.priceMax.value)
    && (TruthyNumber(f.guests) ==> p.maxGuests >= f.guests.value)
  }

  /** A text field the service sends is read back by the route as the same text. */
  lemma TextReadBack(v: Option<string>, s: Slot<string>)
    requires v == (if TruthyText(s) then Some(s.value) else None)
    ensures Truthy(v) <==> TruthyText(s)
    ensures Truthy(v) ==> v.value == s.value
  {
  }

  /** A number the service sends is read back by the route as the same number. */
  lemma NumberReadBack(v: Option<string>, n: Slot<int>)
    requires v == (if TruthyNumber(n) then Some(ShowInt(n.value)) else None)
    ensures NumeralOrFalsy(v)
    ensures Truthy(v) <==> TruthyNumber(n)
    ensures Truthy(v) ==> NumberOf(v) == n.value
  {
    if TruthyNumber(n) {
      ParseShowInt(n.value);
    }
  }

  /** Page and limit are always sent, and read back as the numbers given. */
  lemma AlwaysSentReadBack(v: Option<string>, n: int)
    requires v == Some(ShowInt(n))
    ensures Truthy(v) && IsNumeral(v.value) && NumberOf(v) == n
  {
    ParseShowInt(n);
  }

  /** Every number the service writes is one the route can read. */
  lemma SentParamsWellFormed(filters: Option<SearchFilters>, page: int, limit: int)
    ensures NumeralsWellFormed(SearchParams(filters, page, limit))
  {
    var ps := SearchParams(filters, page, limit);
    ParseShowInt(page);
    ParseShowInt(limit);
    if filters.Some? {
      var f := filters.value;
      SearchParamsCarryTruthyFields(f, page, limit);
      NumberReadBack(Get(ps, MinPrice), f.priceMin);
      NumberReadBack(Get(ps, MaxPrice), f.priceMax);
      NumberReadBack(Get(ps, Guests), f.guests);
    } else {
      ReadUnfiltered(page, limit, MinPrice);
      ReadUnfiltered(page, limit, MaxPrice);
      ReadUnfiltered(page, limit, Guests);
      ReadUnfiltered(page, limit, Limit);
      ReadUnfiltered(page, limit, Page);
    }
  }

  /** Every key of `ps` is one of the seven names the route reads. */
  predicate OnlySearchNames(ps: seq<Param>) {
    forall i :: 0 <= i < |ps| ==> Name(ps[i].key) in SearchNames
  }

  /** A ranked list only holds search keys. */
  lemma RankedHasOnlySearchNames(ps: seq<Param>)
    requires Ranked(ps)
    ensures OnlySearchNames(ps)
  {
    forall i | 0 <= i < |ps|
      ensures Name(ps[i].key) in SearchNames
    {
      assert KeyRank(ps[i].key) >= 0;
    }
  }

  /** Every key the service emits is one of the seven names the route reads;
      none is foreign to it. */
  lemma SentKeysAreRead(filters: Option<SearchFilters>, page: int, limit: int)
    ensures OnlySearchNames(SearchParams(filters, page, limit))
  {
    SearchParamsRanked(filters, page, limit);
    RankedHasOnlySearchNames(SearchParams(filters, page, limit));
  }

  /** The route asks the store for exactly the page and page size the service sent. */
  lemma PaginationRoundTrip(filters: Option<SearchFilters>, page: int, limit: int)
    ensures NumeralsWellFormed(SearchParams(filters, page, limit))
    ensures BuildArgs(SearchParams(filters, page, limit)).take == limit
    ensures BuildArgs(SearchParams(filters, page, limit)).skip == (page - 1) * limit
  {
    var ps := SearchParams(filters, page, limit);
    SentParamsWellFormed(filters, page, limit);
    if filters.Some? {
      SearchParamsCarryTruthyFields(filters.value, page, limit);
    } else {
      ReadUnfiltered(page, limit, Page);
      ReadUnfiltered(page, limit, Limit);
    }
    AlwaysSentReadBack(Get(ps, Page), page);
    AlwaysSentReadBack(Get(ps, Limit), limit);
  }

  /** The round trip: the route's where clause for the parameters built from a
      filter record matches exactly the properties that meet the record's truthy
      fields. */
  lemma RoundTrip(f: SearchFilters, page: int, limit: int, p: Property)
    ensures NumeralsWellFormed(SearchParams(Some(f), page, limit))
    ensures Satisfies(p, BuildWhere(SearchParams(Some(f), page, limit))) <==> MeetsFilters(p, f)
  {
    var ps := SearchParams(Some(f), page, limit);
    SentParamsWellFormed(Some(f), page, limit);
    SearchParamsCarryTruthyFields(f, page, limit);
    TextReadBack(Get(ps, Location), f.location);
    TextReadBack(Get(ps, PropertyType), f.propertyType);
    NumberReadBack(Get(ps, MinPrice), f.priceMin);
    NumberReadBack(Get(ps, MaxPrice), f.priceMax);
    NumberReadBack(Get(ps, Guests), f.guests);
    WhereDenotation(ps, p);
  }

  /** Without a filter record the route builds an empty where clause, so every
      property matches. */
  lemma NoFilterRecordMatchesEverything(page: int, limit: int, p: Property)
    ensures NumeralsWellFormed(SearchParams(None, page, limit))
    ensures BuildWhere(SearchParams(None, page, limit)) == []
    ensures Satisfies(p, BuildWhere(SearchParams(None, page, limit)))
  {
    SentParamsWellFormed(None, page, limit);
    var ps := SearchParams(None, page, limit);
    ReadUnfiltered(page, limit, Location);
    ReadUnfiltered(page, limit, PropertyType);
    ReadUnfiltered(page, limit, MinPrice);
    ReadUnfiltered(page, limit, MaxPrice);
    ReadUnfiltered(page, limit, Guests);
  }

  /** A minimum price of zero is dropped by the service, so the query is the one
      sent for the empty record and every property matches; yet the home page
      counts the same record as having an active filter and shows the whole page
      instead of the first six. */
  lemma ZeroMinPriceDivergence(page: int, limit: int, p: Property)
    ensures HasActiveFilters(NoFilters.(priceMin := Defined(0)))
    ensures !HasActiveFilters(NoFilters)
    ensures SearchParams(Some(NoFilters.(priceMin := Defined(0))), page, limit)
            == SearchParams(Some(NoFilters), page, limit)
    ensures MeetsFilters(p, NoFilters.(priceMin := Defined(0)))
  {
  }

  /** The home page: the route answers the service's first-page request for the
      store's filters, and the component shows its prefix. Everything shown is a
      stored property meeting the filters, newest first, at most twenty, and at
      most six when no filter is active. A reachable store always answers. */
  lemma HomePageShowsMatches(f: SearchFilters, store: Store)
    ensures NumeralsWellFormed(SearchParams(Some(f), 1, 20))
    ensures store.Reachable? ==> HandleGet(SearchParams(Some(f), 1, 20), store).status == 200
    ensures HandleGet(SearchParams(Some(f), 1, 20), store).status == 200 ==>
              var shown := DisplayedProperties(HandleGet(SearchParams(Some(f), 1, 20), store).body.properties, f);
              && |shown| <= 20
              && (!HasActiveFilters(f) ==> |shown| <= FeaturedCount)
              && (forall p :: p in shown ==> p in store.rows && MeetsFilters(p, f))
  {
    var ps := SearchParams(Some(f), 1, 20);
    PaginationRoundTrip(Some(f), 1, 20);
    var r := HandleGet(ps, store);
    if r.status == 200 {
      var shown := DisplayedProperties(r.body.properties, f);
      forall p | p in shown
        ensures p in store.rows && MeetsFilters(p, f)
      {
        assert p in r.body.properties;
        RoundTrip(f, 1, 20, p);
      }
    }
  }
}
