/** The values a property card derives from its property
    (src/components/PropertyCard.tsx): the image shown, the average rating and
    whether its badge appears, the amenity chips, the bed and bath labels and the
    host avatar. Layout and animation are not modelled. */
module PropertyCard {
  import opened Wrappers
  import opened Types
  import opened Numerals
  import opened Text
  import opened Utils

  /** The index of the first image flagged primary, if any. */
  function FirstPrimary(images: seq<Image>): (r: Option<nat>)
    ensures r.Some? ==> r.value < |images| && images[r.value].isPrimary
    ensures r.Some? ==> forall j :: 0 <= j < r.value ==> !images[j].isPrimary
    ensures r.None? ==> forall j :: 0 <= j < |images| ==> !images[j].isPrimary
  {
    if images == [] then None
    else if images[0].isPrimary then Some(0)
    else match FirstPrimary(images[1..])
      case None => None
      case Some(i) => Some(i + 1)
  }

  /** `images.find(img => img.isPrimary) || images[0]`: the first primary image,
      else the first image, else nothing. */
  function PrimaryImage(images: seq<Image>): (r: Option<Image>)
    ensures r.Some? <==> |images| > 0
    ensures r.Some? ==> r.value in images
    ensures forall i :: 0 <= i < |images| && images[i].isPrimary && (forall j :: 0 <= j < i ==> !images[j].isPrimary)
              ==> r == Some(images[i])
    ensures |images| > 0 && (forall j :: 0 <= j < |images| ==> !images[j].isPrimary) ==> r == Some(images[0])
  {
    match FirstPrimary(images)
    case Some(i) => Some(images[i])
    case None => if images == [] then None else Some(images[0])
  }

  /** What the image area shows: the primary image, or what
      `getPropertyTypeIcon` returns for the type. */
  datatype CardImage = Photo(url: string, alt: string) | Placeholder(icon: IconLookup)

  /** The card calls `getPropertyTypeIcon` as written, so a type naming an
      inherited member puts that member in the placeholder instead of an emoji. */
  function CardImageOf(p: Property): (c: CardImage)
    ensures c.Placeholder? <==> p.images == []
    ensures c.Placeholder? ==> c.icon == PropertyTypeIconAsWritten(p.propertyType)
    ensures c.Placeholder? && Lower(p.propertyType) !in PrototypeMembers ==>
              c.icon == IconText(PropertyTypeIcon(p.propertyType))
    ensures c.Placeholder? ==> (c.icon.PrototypeMember? <==> Lower(p.propertyType) in PrototypeMembers)
    ensures c.Photo? ==> exists i :: 0 <= i < |p.images| && p.images[i].url == c.url && p.images[i].altText == c.alt
    ensures c.Photo? ==> && PrimaryImage(p.images).Some?
                         && c.url == PrimaryImage(p.images).value.url
                         && c.alt == PrimaryImage(p.images).value.altText
  {
    match PrimaryImage(p.images)
    case Some(img) => Photo(img.url, img.altText)
    case None => Placeholder(PropertyTypeIconAsWritten(p.propertyType))
  }

  /** `reviews.reduce((acc, r) => acc + r.rating, 0)`. */
  function SumRatings(reviews: seq<Review>): int {
    if reviews == [] then 0 else reviews[0].rating + SumRatings(reviews[1..])
  }

  /** The mean rating, or 0 when there are no reviews. */
  function AverageRating(reviews: seq<Review>): (avg: real)
    ensures reviews == [] ==> avg == 0.0
    ensures reviews != [] ==> avg * |reviews| as real == SumRatings(reviews) as real
  {
    if |reviews| > 0 then SumRatings(reviews) as real / |reviews| as real else 0.0
  }

  /** Every rating lies in `[lo, hi]`. */
  predicate RatingsWithin(reviews: seq<Review>, lo: int, hi: int) {
    forall i :: 0 <= i < |reviews| ==> lo <= reviews[i].rating <= hi
  }

  lemma {:induction false} SumRatingsBounds(reviews: seq<Review>, lo: int, hi: int)
    requires RatingsWithin(reviews, lo, hi)
    ensures lo * |reviews| <= SumRatings(reviews) <= hi * |reviews|
    decreases |reviews|
  {
    if reviews != [] {
      assert RatingsWithin(reviews[1..], lo, hi) by {
        forall i | 0 <= i < |reviews[1..]|
          ensures lo <= reviews[1..][i].rating <= hi
        {
          assert reviews[1..][i] == reviews[i + 1];
        }
      }
      SumRatingsBounds(reviews[1..], lo, hi);
      assert lo <= reviews[0].rating <= hi;
    }
  }

  /** Scaling by a positive factor keeps a strict order. */
  lemma ScaleStrict(a: real, b: real, n: real)
    requires n > 0.0 && a < b
    ensures a * n < b * n
  {
  }

  /** A mean of values within `[lo, hi]` lies within `[lo, hi]`. */
  lemma MeanWithin(sum: int, count: nat, lo: int, hi: int)
    requires count > 0 && lo * count <= sum <= hi * count
    ensures lo as real <= sum as real / count as real <= hi as real
  {
    var n := count as real;
    var q := sum as real / n;
    assert q * n == sum as real;
    assert (lo * count) as real == lo as real * n;
    assert (hi * count) as real == hi as real * n;
    if q < lo as real {
      ScaleStrict(q, lo as real, n);
    }
    if q > hi as real {
      ScaleStrict(hi as real, q, n);
    }
  }

  /** A non-empty average lies within the range of the ratings. */
  lemma AverageWithinBounds(reviews: seq<Review>, lo: int, hi: int)
    requires reviews != [] && RatingsWithin(reviews, lo, hi)
    ensures lo as real <= AverageRating(reviews) <= hi as real
  {
    SumRatingsBounds(reviews, lo, hi);
    MeanWithin(SumRatings(reviews), |reviews|, lo, hi);
  }

  /** Three reviews rated 4, 5 and 3 average 4. */
  lemma AverageExample(r: Review)
    ensures AverageRating([r.(rating := 4), r.(rating := 5), r.(rating := 3)]) == 4.0
  {
    var rs := [r.(rating := 4), r.(rating := 5), r.(rating := 3)];
    assert rs[1..] == [r.(rating := 5), r.(rating := 3)];
    assert rs[1..][1..] == [r.(rating := 3)];
    assert rs[1..][1..][1..] == [];
    assert SumRatings(rs[1..][1..]) == 3;
    assert SumRatings(rs[1..]) == 8;
    assert SumRatings(rs) == 12;
  }

  /** The star badge appears when the average is positive. */
  function RatingBadgeShown(reviews: seq<Review>): (shown: bool)
    ensures shown <==> reviews != [] && SumRatings(reviews) > 0
  {
    AverageRating(reviews) > 0.0
  }

  /** With reviews all rated at least one, the badge always appears. */
  lemma BadgeShownForRatedReviews(reviews: seq<Review>, hi: int)
    requires reviews != [] && RatingsWithin(reviews, 1, hi)
    ensures RatingBadgeShown(reviews)
  {
    SumRatingsBounds(reviews, 1, hi);
  }

  /** The amenity chips: `amenities.slice(0, 3)`. */
  const ChipCount := 3

  function ShownAmenities(amenities: seq<string>): (shown: seq<string>)
    ensures shown <= amenities
    ensures |shown| == if |amenities| < ChipCount then |amenities| else ChipCount
  {
    amenities[..if |amenities| < ChipCount then |amenities| else ChipCount]
  }

  /** The "+N more" chip: present when there are more than three amenities. */
  function MoreCount(amenities: seq<string>): (more: Option<int>)
    ensures more.Some? <==> |amenities| > ChipCount
    ensures more.Some? ==> more.value > 0
  {
    if |amenities| > ChipCount then Some(|amenities| - ChipCount) else None
  }

  /** The chips shown and the "+N more" count account for every amenity. */
  lemma AmenityChipsCoverAll(amenities: seq<string>)
    ensures |ShownAmenities(amenities)| + MoreCount(amenities).GetOr(0) == |amenities|
    ensures MoreCount(amenities).Some? ==> ShownAmenities(amenities) + amenities[ChipCount..] == amenities
  {
  }

  /** `"s"` unless the count is exactly one. */
  function PluralSuffix(n: int): (s: string)
    ensures s == "" <==> n == 1
    ensures s != "" ==> s == "s"
  {
    if n != 1 then "s" else ""
  }

  /** The count followed by the unit, pluralised. */
  function CountLabel(n: int, unit: string): (text: string)
    requires unit != ""
    ensures |text| > |ShowInt(n)| + |unit|
    ensures text[..|ShowInt(n)|] == ShowInt(n)
    ensures text[|text| - 1] == 's' <==> n != 1 || unit[|unit| - 1] == 's'
  {
    ShowInt(n) + " " + unit + PluralSuffix(n)
  }

  function BedLabel(bedrooms: int): (text: string)
    ensures |text| > |ShowInt(bedrooms)|
    ensures text[|text| - 1] == 's' <==> bedrooms != 1
  {
    CountLabel(bedrooms, "bed")
  }

  function BathLabel(bathrooms: int): (text: string)
    ensures |text| > |ShowInt(bathrooms)|
    ensures text[|text| - 1] == 's' <==> bathrooms != 1
  {
    CountLabel(bathrooms, "bath")
  }

  /** The number at the head of a label reads back as the count. */
  lemma LabelCountReadsBack(n: int)
    ensures ParseInt(BedLabel(n)[..|ShowInt(n)|]) == Some(n)
    ensures ParseInt(BathLabel(n)[..|ShowInt(n)|]) == Some(n)
  {
    ParseShowInt(n);
  }

  const DefaultAvatar := "/default-avatar.png"

  /** `host.avatar || "/default-avatar.png"`. */
  function AvatarSrc(host: User): (src: string)
    ensures src != ""
    ensures host.avatar.Some? && host.avatar.value != "" ==> src == host.avatar.value
    ensures host.avatar.None? || host.avatar.value == "" ==> src == DefaultAvatar
  {
    match host.avatar
    case Some(a) => if a != "" then a else DefaultAvatar
    case None => DefaultAvatar
  }
}
