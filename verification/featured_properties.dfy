/** The "has active filters" test and the list the home page shows
    (src/components/FeaturedProperties.tsx). */
module FeaturedProperties {
  import opened Types
  import opened Text

  /** A text filter counts when it is set and not blank after trimming. */
  predicate ActiveText(s: Slot<string>) {
    TruthyText(s) && Trim(s.value) != ""
  }

  lemma ActiveTextIff(s: Slot<string>)
    ensures ActiveText(s) <==> s.Defined? && HasVisibleText(s.value)
  {
    if s.Defined? {
      TrimNonEmptyIff(s.value);
    }
  }

  /** `hasActiveFilters`: location or type with visible text, a truthy guest
      count, any defined price bound (zero included) or a non-empty amenity list.
      Check-in and check-out play no part. */
  function HasActiveFilters(f: SearchFilters): (active: bool)
    ensures active <==>
              || (f.location.Defined? && HasVisibleText(f.location.value))
              || (f.propertyType.Defined? && HasVisibleText(f.propertyType.value))
              || (f.guests.Defined? && f.guests.value != 0)
              || f.priceMin.Defined?
              || f.priceMax.Defined?
              || (f.amenities.Defined? && |f.amenities.value| > 0)
  {
    ActiveTextIff(f.location);
    ActiveTextIff(f.propertyType);
    || ActiveText(f.location)
    || TruthyNumber(f.guests)
    || f.priceMin.Defined?
    || f.priceMax.Defined?
    || ActiveText(f.propertyType)
    || (f.amenities.Defined? && |f.amenities.value| > 0)
  }

  /** How many properties the page shows when no filter is active. */
  const FeaturedCount := 6

  /** `filteredProperties`: everything fetched under an active filter, otherwise
      `properties.slice(0, 6)`. */
  function DisplayedProperties(fetched: seq<Property>, f: SearchFilters): (shown: seq<Property>)
    ensures shown <= fetched
    ensures HasActiveFilters(f) ==> shown == fetched
    ensures !HasActiveFilters(f) ==> |shown| == if |fetched| < FeaturedCount then |fetched| else FeaturedCount
  {
    if HasActiveFilters(f) then fetched
    else fetched[..if |fetched| < FeaturedCount then |fetched| else FeaturedCount]
  }

  /** The empty filter record `{}` is not active. */
  lemma NoFiltersInactive()
    ensures !HasActiveFilters(NoFilters)
  {
  }

  /** Blank text, a zero guest count and an empty amenity list do not activate. */
  lemma BlankCriteriaInactive(location: string, propertyType: string)
    requires forall i :: 0 <= i < |location| ==> IsWhitespace(location[i])
    requires forall i :: 0 <= i < |propertyType| ==> IsWhitespace(propertyType[i])
    ensures !HasActiveFilters(NoFilters.(location := Defined(location), propertyType := Defined(propertyType),
                                         guests := Defined(0), amenities := Defined([])))
  {
  }

  /** A price bound of zero activates the filters. */
  lemma ZeroPriceActive(bound: int)
    ensures HasActiveFilters(NoFilters.(priceMin := Defined(bound)))
    ensures HasActiveFilters(NoFilters.(priceMax := Defined(bound)))
  {
  }

  /** Check-in and check-out never change whether filters are active. */
  lemma DatesNeverActivate(f: SearchFilters, checkIn: Slot<int>, checkOut: Slot<int>)
    ensures HasActiveFilters(f.(checkIn := checkIn, checkOut := checkOut)) == HasActiveFilters(f)
  {
  }
}
