/** The query the client sends for a property search
    (`PropertyService.getProperties`, src/lib/services/propertyService.ts).
    Only the construction of the parameters is modelled; the `fetch` is not. */
module PropertyService {
  import opened Wrappers
  import opened Types
  import opened Numerals
  import opened QueryParams

  /** The position of each emitted key in the order the service appends them. */
  function KeyRank(key: Key): int {
    match key
    case Location => 0
    case PropertyType => 1
    case MinPrice => 2
    case MaxPrice => 3
    case Guests => 4
    case Page => 5
    case Limit => 6
    case Other(_) => -1
  }

  /** Keys strictly increase in rank along the list, so each appears at most
      once, and every key is one of the seven search keys. */
  predicate Ranked(ps: seq<Param>) {
    && (forall i :: 0 <= i < |ps| ==> KeyRank(ps[i].key) >= 0)
    && (forall i, j :: 0 <= i < j < |ps| ==> KeyRank(ps[i].key) < KeyRank(ps[j].key))
  }

  /** A text criterion becomes a parameter when it is truthy. */
  function TextParam(key: Key, s: Slot<string>): (r: Option<Param>)
    ensures r.Some? <==> TruthyText(s)
    ensures r.Some? ==> r.value == Param(key, s.value)
  {
    if TruthyText(s) then Some(Param(key, s.value)) else None
  }

  /** A numeric criterion becomes a parameter when it is truthy (so `0` is dropped). */
  function NumberParam(key: Key, n: Slot<int>): (r: Option<Param>)
    ensures r.Some? <==> TruthyNumber(n)
    ensures r.Some? ==> r.value == Param(key, ShowInt(n.value))
  {
    if TruthyNumber(n) then Some(Param(key, ShowInt(n.value))) else None
  }

  /** The parameters `getProperties(filters, page = 1, limit = 20)` appends, in order. */
  function SearchParams(filters: Option<SearchFilters>, page: int := 1, limit: int := 20): (ps: seq<Param>)
    ensures 2 <= |ps| <= 7
    ensures ps[|ps| - 2] == Param(Page, ShowInt(page))
    ensures ps[|ps| - 1] == Param(Limit, ShowInt(limit))
    ensures filters.None? ==> ps == [Param(Page, ShowInt(page)), Param(Limit, ShowInt(limit))]
  {
    var f := filters.GetOr(NoFilters);
    Prepend(TextParam(Location, f.location),
    Prepend(TextParam(PropertyType, f.propertyType),
    Prepend(NumberParam(MinPrice, f.priceMin),
    Prepend(NumberParam(MaxPrice, f.priceMax),
    Prepend(NumberParam(Guests, f.guests),
    [Param(Page, ShowInt(page)), Param(Limit, ShowInt(limit))])))))
  }

  /** Every key of `ps` ranks above `r`. */
  predicate RanksAbove(ps: seq<Param>, r: int) {
    forall j :: 0 <= j < |ps| ==> r < KeyRank(ps[j].key)
  }

  /** Putting an optional pair of rank `r` in front of later keys keeps the list ranked. */
  lemma RankedPrepend(head: Option<Param>, rest: seq<Param>, r: int)
    requires r >= 0 && Ranked(rest) && RanksAbove(rest, r)
    requires head.Some? ==> KeyRank(head.value.key) == r
    ensures Ranked(Prepend(head, rest)) && RanksAbove(Prepend(head, rest), r - 1)
  {
    if head.Some? {
      var ps := Prepend(head, rest);
      assert ps[0] == head.value;
      assert forall j :: 1 <= j < |ps| ==> ps[j] == rest[j - 1];
    }
  }

  /** The keys come in the fixed order location, propertyType, minPrice,
      maxPrice, guests, page, limit; hence each appears at most once, and no
      other key is ever sent. */
  lemma SearchParamsRanked(filters: Option<SearchFilters>, page: int, limit: int)
    ensures Ranked(SearchParams(filters, page, limit))
  {
    var f := filters.GetOr(NoFilters);
    RankedParts(TextParam(Location, f.location), TextParam(PropertyType, f.propertyType),
                NumberParam(MinPrice, f.priceMin), NumberParam(MaxPrice, f.priceMax),
                NumberParam(Guests, f.guests), Param(Page, ShowInt(page)), Param(Limit, ShowInt(limit)));
  }

  lemma RankedParts(l: Option<Param>, t: Option<Param>, mi: Option<Param>, ma: Option<Param>,
                    g: Option<Param>, p: Param, q: Param)
    requires l.Some? ==> l.value.key == Location
    requires t.Some? ==> t.value.key == PropertyType
    requires mi.Some? ==> mi.value.key == MinPrice
    requires ma.Some? ==> ma.value.key == MaxPrice
    requires g.Some? ==> g.value.key == Guests
    requires p.key == Page && q.key == Limit
    ensures Ranked(Prepend(l, Prepend(t, Prepend(mi, Prepend(ma, Prepend(g, [p, q]))))))
  {
    var withGuests := Prepend(g, [p, q]);
    RankedTail(g, p, q);
    var withMin := Prepend(mi, Prepend(ma, withGuests));
    RankedPrependTwo(mi, ma, withGuests, 2);
    RankedPrependTwo(l, t, withMin, 0);
  }

  /** Guests, page and limit are ranked and rank above maxPrice. */
  lemma RankedTail(g: Option<Param>, p: Param, q: Param)
    requires g.Some? ==> g.value.key == Guests
    requires p.key == Page && q.key == Limit
    ensures Ranked(Prepend(g, [p, q])) && RanksAbove(Prepend(g, [p, q]), 3)
  {
    RankedPrepend(g, [p, q], 4);
  }

  /** Two optional pairs of consecutive ranks `r` and `r + 1` in front of later
      keys keep the list ranked. */
  lemma RankedPrependTwo(a: Option<Param>, b: Option<Param>, rest: seq<Param>, r: int)
    requires r >= 0 && Ranked(rest) && RanksAbove(rest, r + 1)
    requires a.Some? ==> KeyRank(a.value.key) == r
    requires b.Some? ==> KeyRank(b.value.key) == r + 1
    ensures Ranked(Prepend(a, Prepend(b, rest))) && RanksAbove(Prepend(a, Prepend(b, rest)), r - 1)
  {
    RankedPrepend(b, rest, r + 1);
    RankedPrepend(a, Prepend(b, rest), r);
  }

  /** Without a filter record only page and limit are sent. */
  lemma ReadUnfiltered(page: int, limit: int, key: Key)
    ensures Get(SearchParams(None, page, limit), key)
            == if key == Page then Some(ShowInt(page)) else if key == Limit then Some(ShowInt(limit)) else None
  {
    var last := [Param(Limit, ShowInt(limit))];
    assert last[1..] == [];
    assert Get(last, key) == if key == Limit then Some(ShowInt(limit)) else None;
    assert SearchParams(None, page, limit) == [Param(Page, ShowInt(page))] + last;
    assert ([Param(Page, ShowInt(page))] + last)[1..] == last;
  }

  /** Each criterion key is sent exactly when its filter field is truthy, carrying
      that field's value under the route's name; page and limit are always sent. */
  lemma SearchParamsCarryTruthyFields(f: SearchFilters, page: int, limit: int)
    ensures Get(SearchParams(Some(f), page, limit), Location)
            == (if TruthyText(f.location) then Some(f.location.value) else None)
    ensures Get(SearchParams(Some(f), page, limit), PropertyType)
            == (if TruthyText(f.propertyType) then Some(f.propertyType.value) else None)
    ensures Get(SearchParams(Some(f), page, limit), MinPrice)
            == (if TruthyNumber(f.priceMin) then Some(ShowInt(f.priceMin.value)) else None)
    ensures Get(SearchParams(Some(f), page, limit), MaxPrice)
            == (if TruthyNumber(f.priceMax) then Some(ShowInt(f.priceMax.value)) else None)
    ensures Get(SearchParams(Some(f), page, limit), Guests)
            == (if TruthyNumber(f.guests) then Some(ShowInt(f.guests.value)) else None)
    ensures Get(SearchParams(Some(f), page, limit), Page) == Some(ShowInt(page))
    ensures Get(SearchParams(Some(f), page, limit), Limit) == Some(ShowInt(limit))
  {
    ReadKey(f, page, limit, Location);
    ReadKey(f, page, limit, PropertyType);
    ReadKey(f, page, limit, MinPrice);
    ReadKey(f, page, limit, MaxPrice);
    ReadKey(f, page, limit, Guests);
    ReadKey(f, page, limit, Page);
    ReadKey(f, page, limit, Limit);
  }

  /** Reading one key walks the optional pairs in order and stops at the first with that key. */
  lemma ReadKey(f: SearchFilters, page: int, limit: int, key: Key)
    ensures Get(SearchParams(Some(f), page, limit), key)
            == if key == Location && TruthyText(f.location) then Some(f.location.value)
               else if key == PropertyType && TruthyText(f.propertyType) then Some(f.propertyType.value)
               else if key == MinPrice && TruthyNumber(f.priceMin) then Some(ShowInt(f.priceMin.value))
               else if key == MaxPrice && TruthyNumber(f.priceMax) then Some(ShowInt(f.priceMax.value))
               else if key == Guests && TruthyNumber(f.guests) then Some(ShowInt(f.guests.value))
               else if key == Page then Some(ShowInt(page))
               else if key == Limit then Some(ShowInt(limit))
               else None
  {
    ReadParts(TextParam(Location, f.location), TextParam(PropertyType, f.propertyType),
              NumberParam(MinPrice, f.priceMin), NumberParam(MaxPrice, f.priceMax),
              NumberParam(Guests, f.guests), Param(Page, ShowInt(page)), Param(Limit, ShowInt(limit)), key);
    FirstWithFields(f, page, limit, key);
  }

  /** The first pair with `key` among the service's pairs, read off the filter record. */
  lemma FirstWithFields(f: SearchFilters, page: int, limit: int, key: Key)
    ensures FirstWith(TextParam(Location, f.location), TextParam(PropertyType, f.propertyType),
                      NumberParam(MinPrice, f.priceMin), NumberParam(MaxPrice, f.priceMax),
                      NumberParam(Guests, f.guests), Param(Page, ShowInt(page)), Param(Limit, ShowInt(limit)), key)
            == if key == Location && TruthyText(f.location) then Some(f.location.value)
               else if key == PropertyType && TruthyText(f.propertyType) then Some(f.propertyType.value)
               else if key == MinPrice && TruthyNumber(f.priceMin) then Some(ShowInt(f.priceMin.value))
               else if key == MaxPrice && TruthyNumber(f.priceMax) then Some(ShowInt(f.priceMax.value))
               else if key == Guests && TruthyNumber(f.guests) then Some(ShowInt(f.guests.value))
               else if key == Page then Some(ShowInt(page))
               else if key == Limit then Some(ShowInt(limit))
               else None
  {
  }

  /** The first pair with `key` among five optional pairs and two trailing pairs. */
  function FirstWith(l: Option<Param>, t: Option<Param>, mi: Option<Param>, ma: Option<Param>,
                     g: Option<Param>, p: Param, q: Param, key: Key): Option<string>
  {
    if l.Some? && l.value.key == key then Some(l.value.value)
    else if t.Some? && t.value.key == key then Some(t.value.value)
    else if mi.Some? && mi.value.key == key then Some(mi.value.value)
    else if ma.Some? && ma.value.key == key then Some(ma.value.value)
    else if g.Some? && g.value.key == key then Some(g.value.value)
    else if p.key == key then Some(p.value)
    else if q.key == key then Some(q.value)
    else None
  }

  lemma ReadParts(l: Option<Param>, t: Option<Param>, mi: Option<Param>, ma: Option<Param>,
                  g: Option<Param>, p: Param, q: Param, key: Key)
    ensures Get(Prepend(l, Prepend(t, Prepend(mi, Prepend(ma, Prepend(g, [p, q]))))), key)
            == FirstWith(l, t, mi, ma, g, p, q, key)
  {
    var withGuests := Prepend(g, [p, q]);
    var withMax := Prepend(ma, withGuests);
    var withMin := Prepend(mi, withMax);
    var withType := Prepend(t, withMin);
    GetPrepend(l, withType, key);
    GetPrepend(t, withMin, key);
    GetPrepend(mi, withMax, key);
    GetPrepend(ma, withGuests, key);
    GetPrepend(g, [p, q], key);
    GetPrepend(Some(p), [q], key);
    assert [p, q] == Prepend(Some(p), [q]);
  }

  /** Check-in, check-out and amenities never reach the query. */
  lemma SearchParamsIgnoreDatesAndAmenities(f: SearchFilters, checkIn: Slot<int>, checkOut: Slot<int>,
                                            amenities: Slot<seq<string>>, page: int, limit: int)
    ensures SearchParams(Some(f.(checkIn := checkIn, checkOut := checkOut, amenities := amenities)), page, limit)
            == SearchParams(Some(f), page, limit)
  {
  }
}
