/** The pure helpers of src/lib/utils.ts: text truncation, the property-type
    icon table and the stay-length and price arithmetic. */
module Utils {
  import opened Text

  /** The end index `text.slice(0, end)` uses: a negative `end` counts back from
      the end of the string, and the index is clamped to `[0, len]`. */
  function SliceEnd(len: nat, end: int): (k: nat)
    ensures k <= len
    ensures 0 <= end ==> k == if end < len then end else len
    ensures end < 0 ==> k == if len + end < 0 then 0 else len + end
  {
    if end < 0 then (if len + end < 0 then 0 else len + end)
    else if end < len then end
    else len
  }

  const Ellipsis := "..."

  /** `truncateText(text, maxLength)`: the text itself when it fits, otherwise
      `text.slice(0, maxLength)` followed by an ellipsis. */
  function TruncateText(text: string, maxLength: int): (r: string)
    ensures |text| <= maxLength ==> r == text
    ensures |text| > maxLength ==>
              3 <= |r| <= |text| + 3 && r[|r| - 3..] == Ellipsis && r[..|r| - 3] == text[..|r| - 3]
    ensures |text| > maxLength && maxLength >= 0 ==>
              |r| == maxLength + 3 && r[..maxLength] == text[..maxLength]
    ensures maxLength >= 0 ==>
              var keep := if |text| < maxLength then |text| else maxLength;
              r[..keep] == text[..keep]
  {
    if |text| <= maxLength then text
    else text[..SliceEnd(|text|, maxLength)] + Ellipsis
  }

  /** For a fixed non-negative limit, truncating twice is truncating once. */
  lemma TruncateIdempotent(text: string, maxLength: int)
    requires maxLength >= 0
    ensures TruncateText(TruncateText(text, maxLength), maxLength) == TruncateText(text, maxLength)
  {
    var once := TruncateText(text, maxLength);
    if |text| > maxLength {
      assert once[..maxLength] == text[..maxLength];
    }
  }

  /** A negative limit is not guarded: `slice` then counts back from the end, so
      the text loses `-maxLength` characters before the ellipsis is added. */
  lemma TruncateNegativeLimit(text: string, maxLength: int)
    requires maxLength < 0 && |text| + maxLength >= 0
    ensures TruncateText(text, maxLength) == text[..|text| + maxLength] + Ellipsis
  {
  }

  // The emoji of the `icons` table, written as code points.
  const BeachIcon := "\U{1F3D6}\U{FE0F}"
  const MountainIcon := "\U{1F3D4}\U{FE0F}"
  const CityIcon := "\U{1F3D9}\U{FE0F}"
  const CountrysideIcon := "\U{1F33E}"
  const LakeIcon := "\U{1F3DE}\U{FE0F}"
  const ForestIcon := "\U{1F332}"
  const DesertIcon := "\U{1F3DC}\U{FE0F}"
  const TropicalIcon := "\U{1F334}"
  const UrbanIcon := "\U{1F3E2}"
  const RuralIcon := "\U{1F3E1}"
  /** The house shown for any type the table does not list. */
  const FallbackIcon := "\U{1F3E0}"

  /** The own keys of the `icons` object literal and their emoji. */
  const Icons: map<string, string> := map[
    "beach" := BeachIcon,
    "mountain" := MountainIcon,
    "city" := CityIcon,
    "countryside" := CountrysideIcon,
    "lake" := LakeIcon,
    "forest" := ForestIcon,
    "desert" := DesertIcon,
    "tropical" := TropicalIcon,
    "urban" := UrbanIcon,
    "rural" := RuralIcon]

  /** The members every plain object inherits from `Object.prototype` whose
      names are entirely lower case. The key is lower-cased before the lookup, so
      inherited names with capitals (`hasOwnProperty`, `valueOf`, ...) can never
      be reached; these two can, and indexing by them yields the inherited member. */
  const PrototypeMembers: set<string> := {"constructor", "__proto__"}

  /** What `icons[key] || "🏠"` evaluates to: a string, or an inherited
      prototype member (a function or an object, both truthy). */
  datatype IconLookup = IconText(text: string) | PrototypeMember(name: string)

  /** `getPropertyTypeIcon` exactly as written: property lookup on a plain
      object, which also reaches `Object.prototype`. */
  function PropertyTypeIconAsWritten(propertyType: string): (r: IconLookup)
    ensures Lower(propertyType) in Icons ==> r == IconText(Icons[Lower(propertyType)])
    ensures Lower(propertyType) !in Icons && Lower(propertyType) !in PrototypeMembers ==>
              r == IconText(FallbackIcon)
    ensures r.PrototypeMember? <==> Lower(propertyType) in PrototypeMembers
  {
    var key := Lower(propertyType);
    if key in Icons then IconText(Icons[key])
    else if key in PrototypeMembers then PrototypeMember(key)
    else IconText(FallbackIcon)
  }

  /** The type "Constructor" reaches `Object.prototype.constructor`: the
      function returns the `Object` constructor instead of an emoji. */
  lemma IconAsWrittenLeaksPrototypeMember()
    ensures PropertyTypeIconAsWritten("Constructor") == PrototypeMember("constructor")
    ensures PropertyTypeIconAsWritten("__PROTO__") == PrototypeMember("__proto__")
  {
    assert Lower("Constructor") == "constructor";
    assert Lower("__PROTO__") == "__proto__";
  }

  /** `getPropertyTypeIcon` as intended: the listed types map to their emoji
      and every other string maps to the house. */
  function PropertyTypeIcon(propertyType: string): (r: string)
    ensures Lower(propertyType) in Icons ==> r == Icons[Lower(propertyType)]
    ensures Lower(propertyType) !in Icons ==> r == FallbackIcon
    ensures r in Icons.Values || r == FallbackIcon
  {
    var key := Lower(propertyType);
    if key in Icons then Icons[key] else FallbackIcon
  }

  /** The intended icon agrees with the code as written on every type that is
      not the name of an inherited prototype member. */
  lemma IconAsWrittenAgreesOffPrototype(propertyType: string)
    requires Lower(propertyType) !in PrototypeMembers
    ensures PropertyTypeIconAsWritten(propertyType) == IconText(PropertyTypeIcon(propertyType))
  {
  }

  /** The icon ignores letter case: `icon(s) == icon(s.toLowerCase())`. */
  lemma IconCaseInsensitive(propertyType: string)
    ensures PropertyTypeIcon(propertyType) == PropertyTypeIcon(Lower(propertyType))
    ensures PropertyTypeIconAsWritten(propertyType) == PropertyTypeIconAsWritten(Lower(propertyType))
  {
    LowerIdempotent(propertyType);
  }

  /** `1000 * 3600 * 24`, the milliseconds in a day. */
  const MillisPerDay := 1000 * 3600 * 24

  /** `calculateDays`: the ceiling of the millisecond difference divided by a day. */
  function CalculateDays(checkIn: int, checkOut: int): (days: int)
    ensures (days - 1) * MillisPerDay < checkOut - checkIn <= days * MillisPerDay
    ensures (checkOut - checkIn) % MillisPerDay == 0 ==> days * MillisPerDay == checkOut - checkIn
    ensures checkOut < checkIn ==> days <= 0
    ensures checkOut == checkIn ==> days == 0
  {
    -((checkIn - checkOut) / MillisPerDay)
  }

  /** A stay of exactly `nights` days counts `nights`; any extra millisecond
      rounds up to one more day. */
  lemma CalculateDaysWholeAndPartial(checkIn: int, nights: int, extra: int)
    requires 0 < extra < MillisPerDay
    ensures CalculateDays(checkIn, checkIn + nights * MillisPerDay) == nights
    ensures CalculateDays(checkIn, checkIn + nights * MillisPerDay + extra) == nights + 1
  {
  }

  /** `calculateTotalPrice`: the nightly price times the number of days. */
  function CalculateTotalPrice(pricePerNight: int, checkIn: int, checkOut: int): (total: int)
    ensures pricePerNight >= 0 && checkIn <= checkOut ==> total >= 0
    ensures checkIn == checkOut ==> total == 0
    ensures pricePerNight >= 0 && checkOut < checkIn ==> total <= 0
  {
    var days := CalculateDays(checkIn, checkOut);
    pricePerNight * days
  }

  /** A stay of `nights` whole days costs the nightly price `nights` times. */
  lemma TotalPriceForWholeNights(pricePerNight: int, checkIn: int, nights: int)
    ensures CalculateTotalPrice(pricePerNight, checkIn, checkIn + nights * MillisPerDay) == pricePerNight * nights
  {
    CalculateDaysWholeAndPartial(checkIn, nights, 1);
  }
}
