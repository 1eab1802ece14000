/** The application's records (src/types/index.ts). Dates are millisecond
    timestamps, money and counts are integers, coordinates are reals. */
module Types {
  import opened Wrappers

  /** An optional property of a JavaScript object: the key may be missing, may be
      present and hold `undefined`, or may hold a value. Object spread copies a
      key that is present even when its value is `undefined`. */
  datatype Slot<+T> = Missing | Undefined | Defined(value: T) {

    /** The key is present on the object (whatever its value). */
    predicate IsPresent() {
      !Missing?
    }

    /** `obj.key`, with `undefined` as `None`. */
    function Read(): Option<T> {
      match this
      case Defined(v) => Some(v)
      case _ => None
    }
  }

  /** JavaScript truthiness of an optional string: defined and non-empty. */
  predicate TruthyText(s: Slot<string>) {
    s.Defined? && s.value != ""
  }

  /** JavaScript truthiness of an optional integer: defined and non-zero. */
  predicate TruthyNumber(n: Slot<int>) {
    n.Defined? && n.value != 0
  }

  datatype User = User(
    id: string,
    email: string,
    name: string,
    avatar: Option<string>,
    createdAt: int,
    updatedAt: int)

  datatype Image = Image(
    id: string,
    propertyId: string,
    url: string,
    altText: string,
    isPrimary: bool,
    createdAt: int)

  datatype Review = Review(
    id: string,
    propertyId: string,
    userId: string,
    rating: int,
    comment: string,
    photos: seq<string>,
    createdAt: int,
    user: User)

  datatype Property = Property(
    id: string,
    title: string,
    description: string,
    pricePerNight: int,
    location: string,
    latitude: real,
    longitude: real,
    propertyType: string,
    maxGuests: int,
    bedrooms: int,
    bathrooms: int,
    amenities: seq<string>,
    hostId: string,
    createdAt: int,
    updatedAt: int,
    host: User,
    images: seq<Image>,
    reviews: seq<Review>)

  datatype BookingStatus = Pending | Confirmed | Cancelled | Completed

  datatype Booking = Booking(
    id: string,
    propertyId: string,
    userId: string,
    checkIn: int,
    checkOut: int,
    guestCount: int,
    totalPrice: int,
    status: BookingStatus,
    createdAt: int,
    property: Property,
    user: User)

  /** The search criteria the client holds; every key is optional. The same shape
      serves as `Partial<SearchFilters>`, the argument of a merge-update. */
  datatype SearchFilters = SearchFilters(
    location: Slot<string>,
    checkIn: Slot<int>,
    checkOut: Slot<int>,
    guests: Slot<int>,
    priceMin: Slot<int>,
    priceMax: Slot<int>,
    propertyType: Slot<string>,
    amenities: Slot<seq<string>>)

  /** The keys of a filter record. */
  datatype FilterKey = LocationKey | CheckInKey | CheckOutKey | GuestsKey
                     | PriceMinKey | PriceMaxKey | PropertyTypeKey | AmenitiesKey

  /** The key `k` is present on `f` (`k in f`). */
  predicate Present(f: SearchFilters, k: FilterKey) {
    match k
    case LocationKey => f.location.IsPresent()
    case CheckInKey => f.checkIn.IsPresent()
    case CheckOutKey => f.checkOut.IsPresent()
    case GuestsKey => f.guests.IsPresent()
    case PriceMinKey => f.priceMin.IsPresent()
    case PriceMaxKey => f.priceMax.IsPresent()
    case PropertyTypeKey => f.propertyType.IsPresent()
    case AmenitiesKey => f.amenities.IsPresent()
  }

  /** `a` and `b` agree on key `k`: both lack it, or both hold the same value. */
  predicate SameAt(a: SearchFilters, b: SearchFilters, k: FilterKey) {
    match k
    case LocationKey => a.location == b.location
    case CheckInKey => a.checkIn == b.checkIn
    case CheckOutKey => a.checkOut == b.checkOut
    case GuestsKey => a.guests == b.guests
    case PriceMinKey => a.priceMin == b.priceMin
    case PriceMaxKey => a.priceMax == b.priceMax
    case PropertyTypeKey => a.propertyType == b.propertyType
    case AmenitiesKey => a.amenities == b.amenities
  }

  /** Two filter records agreeing on every key are the same record. */
  lemma SameEverywhere(a: SearchFilters, b: SearchFilters)
    requires forall k :: SameAt(a, b, k)
    ensures a == b
  {
    assert SameAt(a, b, LocationKey) && SameAt(a, b, CheckInKey) && SameAt(a, b, CheckOutKey);
    assert SameAt(a, b, GuestsKey) && SameAt(a, b, PriceMinKey) && SameAt(a, b, PriceMaxKey);
    assert SameAt(a, b, PropertyTypeKey) && SameAt(a, b, AmenitiesKey);
  }

  /** The object literal `{}`. */
  const NoFilters := SearchFilters(Missing, Missing, Missing, Missing, Missing, Missing, Missing, Missing)
}
