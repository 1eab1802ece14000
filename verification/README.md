# A Dafny model of the airbnb-clone-v2 search and display logic

The application is a vacation-rental catalogue. Most of it is user interface.
Spread through it is a small amount of decision logic, and this project
models that logic as immutable datatypes and pure functions, then proves what
the code promises about it:

- **The search pipeline.**
  - `PropertyService.getProperties` turns the client's `SearchFilters` record
    into an ordered list of query parameters.
  - The `GET /api/properties` route reads those parameters back. It builds a
    conjunctive where clause (a list of tagged constraints) and `take`/`skip`
    pagination.
  - The store query is given a denotation over an in-memory sequence of
    properties: filter, order newest first, skip, take.
  - A round trip ties the two ends together. The route's where clause for the
    parameters built from a filter record matches exactly the properties that
    meet the record's truthy fields.
- **Client filter state.**
  - The global store is a record with a spread-merge update, a reset, field
    setters and a theme toggle.
  - The search modal's handlers form a state machine over the working copy of
    the filters and the active tab.
  - The home page has a "has active filters" test and a rule for which prefix
    of the list it shows.
- **Derived card values.** These are the primary image, the average rating and
  its badge, the amenity chips with the "+N more" count, the pluralised bed and
  bath labels, and the avatar fallback.
- **Utilities.** These are `truncateText`, `getPropertyTypeIcon`,
  `calculateDays` and `calculateTotalPrice`.

Modelling choices:

- **Optional keys.** An optional key of a JavaScript object is a
  `Slot<T> = Missing | Undefined | Defined(value)`. Object spread copies a key
  that is present even when it holds `undefined`, so the store merge needs all
  three cases. Truthiness tests and `!== undefined` read `Missing` and
  `Undefined` alike.
- **Numbers.** Prices, counts, ratings, page and limit are integers.
  Timestamps are integer milliseconds. The average rating is a `real`.
- **Query parameters.** These are a sequence of key/value pairs. Numbers are
  written in decimal and read back by a strict integer parser, with the round
  trip proved.
- **Pagination.** The code computes `skip = (page - 1) * limit` without
  checking `page`, and the model keeps that.
  - A negative `take` counts from the end of the ordered matches, so
    `limit=-5` answers with the five oldest matches
    (`PropertiesRoute.NegativeLimitCountsFromEnd`).
  - A negative `skip` is modelled as a failing query, which the route answers
    with its 500 response (`PropertiesRoute.PageZeroFails`). This is a
    modelling assumption about the database library; see "Left out".
- **Truthiness.** The route treats any non-empty parameter as present. The
  text `"0"` is therefore a constraint, and a filter value of `0` is never
  sent at all.

Files:

| file | module | content |
|---|---|---|
| wrappers.dfy | Wrappers | `Option`, `Result` |
| text.dfy | Text | ASCII lower-casing, substring search, JavaScript `trim` |
| numerals.dfy | Numerals | decimal rendering and strict parsing of integers |
| types.dfy | Types | the application's records, `Slot`, `SearchFilters` and its keys |
| utils.dfy | Utils | `src/lib/utils.ts` |
| query_params.dfy | QueryParams | parameter names, `URLSearchParams.get` |
| property_service.dfy | PropertyService | `src/lib/services/propertyService.ts` |
| ordering.dfy | Ordering | newest-first order |
| properties_route.dfy | PropertiesRoute | `src/app/api/properties/route.ts` |
| search_pipeline.dfy | SearchPipeline | service and route together, and the home page list |
| featured_properties.dfy | FeaturedProperties | `src/components/FeaturedProperties.tsx` |
| app_store.dfy | AppStore | `src/store/useStore.ts` |
| search_modal.dfy | SearchModal | `src/components/SearchModal.tsx` |
| property_card.dfy | PropertyCard | `src/components/PropertyCard.tsx` |

## Model

| member | source | states |
|---|---|---|
| Text.TrimNonEmptyIff | src/components/FeaturedProperties.tsx:13 | `trim()` of a string is non-empty exactly when the string has a character outside JavaScript's whitespace set |
| Numerals.ParseShowInt | src/lib/services/propertyService.ts:16-20 | an integer written with `toString` is a well-formed numeral and parses back to the same integer |
| QueryParams.KeyNamed | src/app/api/properties/route.ts:7-13 | every parameter name is recognised as the key whose wire name it is, and it is a foreign key exactly when it is not one of the seven search names |
| QueryParams.KeyNamedName | src/app/api/properties/route.ts:7-13 | recognising the wire name of any key gives that key back, so a foreign key never carries a search name |
| QueryParams.NamesDistinct | src/lib/services/propertyService.ts:13-23 | different keys, foreign ones included, have different wire names (`priceMin` is sent as `minPrice`, `priceMax` as `maxPrice`) |
| QueryParams.GetSound | src/app/api/properties/route.ts:7-11 | `get` returns null exactly when no pair has the key, and otherwise the value of the first pair with that key (no earlier pair has it) |
| QueryParams.GetPrepend | src/lib/services/propertyService.ts:13-20 | `get` on a list with an optional pair in front reads that pair first when its key matches |
| PropertyService.TextParam | src/lib/services/propertyService.ts:13-15 | a text criterion yields a parameter exactly when it is truthy, and the parameter carries its value |
| PropertyService.NumberParam | src/lib/services/propertyService.ts:16-20 | a number criterion yields a parameter exactly when it is truthy (defined and not 0), and the parameter carries its decimal text |
| PropertyService.SearchParams | src/lib/services/propertyService.ts:6-23 | between two and seven pairs are sent; page and then limit always come last; with no filter record only page and limit are sent |
| PropertyService.SearchParamsRanked | src/lib/services/propertyService.ts:13-23 | keys appear in the order location, propertyType, minPrice, maxPrice, guests, page, limit, each at most once |
| PropertyService.SearchParamsCarryTruthyFields | src/lib/services/propertyService.ts:13-23 | each criterion key is present exactly when its filter field is truthy and holds that field's value; page and limit are always present |
| PropertyService.ReadUnfiltered | src/lib/services/propertyService.ts:11-23 | without a filter record only page and limit can be read |
| PropertyService.SearchParamsIgnoreDatesAndAmenities | src/lib/services/propertyService.ts:13-23 | check-in, check-out and amenities never change the parameters sent |
| Ordering.SortNewestFirst | src/app/api/properties/route.ts:58-60 | the result is a permutation of the input with non-increasing `createdAt` |
| PropertiesRoute.BuildWhere | src/app/api/properties/route.ts:15-43 | each truthy criterion adds its own constraint and an absent or empty one adds none; the price constraint has a lower bound exactly when `minPrice` is truthy and an upper bound exactly when `maxPrice` is truthy |
| PropertiesRoute.BuildArgs | src/app/api/properties/route.ts:12-57 | `take` is the limit parameter or 20, and `skip` is `(page - 1) * take` with page 1 by default |
| PropertiesRoute.Filter | src/app/api/properties/route.ts:45-46 | a property is kept exactly when it is in the store and satisfies the where clause, and a matching property occurs as often as in the store (a non-matching one not at all) |
| PropertiesRoute.Window | src/app/api/properties/route.ts:56-57 | skip/take yields the contiguous slice starting at `skip` of `take` elements, or of all the remaining ones when fewer remain, and is empty past the end |
| PropertiesRoute.WindowFromEnd | src/app/api/properties/route.ts:56-57 | a negative take of `count` yields the contiguous slice that ends `skip` before the end, of `count` elements or of all the remaining ones when fewer remain, and nothing when `skip` reaches the start |
| PropertiesRoute.FromEndIsReversedWindow | src/app/api/properties/route.ts:56-57 | counting from the end equals reversing the list, taking the ordinary window and reversing the page back |
| PropertiesRoute.WindowFromEndNewestFirst | src/app/api/properties/route.ts:56-60 | a window counted from the end of a newest-first list is newest first |
| PropertiesRoute.WindowNewestFirst | src/app/api/properties/route.ts:56-60 | a window of a newest-first list is newest first |
| PropertiesRoute.Matches | src/app/api/properties/route.ts:45-60 | the matching properties, newest first, are exactly the stored properties satisfying the where clause, each as often as it is stored |
| PropertiesRoute.FindMany | src/app/api/properties/route.ts:45-61 | a reachable store answers exactly when `skip` is not negative; every answer has at most as many properties as the absolute value of `take`, newest first, all stored and all satisfying the where clause |
| PropertiesRoute.HandleGet | src/app/api/properties/route.ts:4-70 | the status is 200 with a list or 500 with the fixed error body; an unreachable store gives 500, and a reachable one gives 200 exactly when `skip` is not negative, with the store's answer as the list; a 200 list is no longer than the absolute value of `take`, newest first, and contains only stored, matching properties |
| PropertiesRoute.SatisfiesAppend | src/app/api/properties/route.ts:16-43 | a where clause built from parts holds exactly when every part holds |
| PropertiesRoute.WhereDenotation | src/app/api/properties/route.ts:18-43 | a property satisfies the where clause exactly when its lower-cased location contains the lower-cased location parameter, its type equals the type parameter, its price lies within the given bounds and its capacity is at least the guests parameter, for each parameter that is truthy |
| PropertiesRoute.NoParamsMatchEverything | src/app/api/properties/route.ts:12-16 | with no parameters the where clause is empty and matches every property, with take 20 and skip 0 |
| PropertiesRoute.PaginationExample | src/app/api/properties/route.ts:56-57 | page 3 with limit 10 gives take 10 and skip 20 |
| PropertiesRoute.PageZeroFails | src/app/api/properties/route.ts:56-69 | page 0 gives skip -20, and the request is answered with the 500 error body |
| PropertiesRoute.LocationMatchIgnoresCase | src/app/api/properties/route.ts:18-22 | the location "New York, NY" matches the query "new york" |
| PropertiesRoute.PageIsSliceOfMatches | src/app/api/properties/route.ts:45-61 | a 200 answer is the contiguous slice of the newest-first matches that starts at `skip`, or, for a negative `take`, the one that ends `skip` before the end; it holds as many matches as `take` asks for, or all that remain when fewer do |
| PropertiesRoute.FoundPageIsSlice | src/app/api/properties/route.ts:45-61 | a successful store query returns that slice of the newest-first matches, with that length |
| PropertiesRoute.NegativeLimitCountsFromEnd | src/app/api/properties/route.ts:56-63 | `limit=-5` gives take -5 and skip 0 and is answered with 200 and the last five matches |
| PropertiesRoute.ConsecutiveWindows | src/app/api/properties/route.ts:56-57 | two consecutive pages of size `take` together form the window of size `2 * take` |
| PropertiesRoute.FirstPageHoldsEveryMatch | src/app/api/properties/route.ts:45-61 | when all matches fit in the first page, every matching stored property is returned |
| PropertiesRoute.FirstPageIsAllMatches | src/app/api/properties/route.ts:45-61 | a first page at least as long as the matches answers with exactly the newest-first matches |
| SearchPipeline.TextReadBack | src/lib/services/propertyService.ts:13-15 | a text criterion the service sends is truthy for the route exactly when it was truthy in the filter record, with the same text |
| SearchPipeline.NumberReadBack | src/lib/services/propertyService.ts:16-20 | a number the service sends is a numeral the route reads back as the same number, and truthy for the route exactly when it was truthy in the record |
| SearchPipeline.AlwaysSentReadBack | src/lib/services/propertyService.ts:22-23 | page and limit always reach the route as the numbers given |
| SearchPipeline.SentParamsWellFormed | src/lib/services/propertyService.ts:16-23 | every number the service writes is one the route can read |
| SearchPipeline.SentKeysAreRead | src/lib/services/propertyService.ts:13-23 | every key the service emits has one of the seven names the route reads |
| SearchPipeline.PaginationRoundTrip | src/lib/services/propertyService.ts:22-23 | the route asks the store for `take = limit` and `skip = (page - 1) * limit` of the service call |
| SearchPipeline.RoundTrip | src/lib/services/propertyService.ts:13-23 | the route's where clause for the sent parameters matches a property exactly when the property meets each truthy field of the filter record |
| SearchPipeline.NoFilterRecordMatchesEverything | src/lib/services/propertyService.ts:7-23 | with no filter record the where clause is empty and matches every property |
| SearchPipeline.ZeroMinPriceDivergence | src/lib/services/propertyService.ts:16-17 | a minimum price of 0 is dropped by the service, so the query equals the one for `{}` and constrains nothing, yet the home page counts the record as having an active filter |
| SearchPipeline.HomePageShowsMatches | src/components/FeaturedProperties.tsx:10-24 | the home page's list holds only stored properties meeting the store's filters, at most 20, and at most 6 when no filter is active; a reachable store always answers |
| FeaturedProperties.ActiveTextIff | src/components/FeaturedProperties.tsx:13 | a text filter counts as active exactly when it is defined and has a non-whitespace character |
| FeaturedProperties.HasActiveFilters | src/components/FeaturedProperties.tsx:12-20 | filters are active exactly when location or type has visible text, guests is non-zero, a price bound is defined (zero included) or the amenity list is non-empty |
| FeaturedProperties.DisplayedProperties | src/components/FeaturedProperties.tsx:22-24 | the shown list is a prefix of the fetched list: all of it under an active filter, otherwise its first six |
| FeaturedProperties.NoFiltersInactive | src/components/FeaturedProperties.tsx:12-20 | the empty record `{}` is not active |
| FeaturedProperties.BlankCriteriaInactive | src/components/FeaturedProperties.tsx:13-19 | whitespace-only location and type, zero guests and an empty amenity list do not activate |
| FeaturedProperties.ZeroPriceActive | src/components/FeaturedProperties.tsx:15-16 | a defined price bound activates even when it is 0 |
| FeaturedProperties.DatesNeverActivate | src/components/FeaturedProperties.tsx:12-20 | check-in and check-out never change whether filters are active |
| AppStore.Merge | src/store/useStore.ts:47 | every key present in the update takes the update's value, explicit `undefined` included; every other key keeps its old value; the result has the keys of both |
| AppStore.MergeEmpty | src/store/useStore.ts:45-49 | merging `{}` changes nothing, and merging into `{}` copies the update |
| AppStore.MergeIdempotent | src/store/useStore.ts:45-49 | merging the same update twice equals merging it once |
| AppStore.MergeCompose | src/store/useStore.ts:45-49 | two merges in a row equal one merge with the merged update |
| AppStore.SetSearchFilters | src/store/useStore.ts:45-49 | present keys of the update overwrite, other keys are kept, and nothing outside the filters changes |
| AppStore.ResetFilters | src/store/useStore.ts:51-53 | the filters become `{}` and nothing else changes |
| AppStore.SetUser | src/store/useStore.ts:55-57 | the user becomes the given one and nothing else changes |
| AppStore.SetIsSearchOpen | src/store/useStore.ts:59-61 | the search flag becomes the given value and nothing else changes |
| AppStore.SetIsFilterOpen | src/store/useStore.ts:63-65 | the filter flag becomes the given value and nothing else changes |
| AppStore.ToggleTheme | src/store/useStore.ts:67-71 | the theme switches and nothing else changes |
| AppStore.ToggleThemeTwice | src/store/useStore.ts:67-71 | toggling twice restores the state |
| AppStore.SetEmptyFiltersIsIdentity | src/store/useStore.ts:45-49 | `setSearchFilters({})` leaves the state unchanged |
| AppStore.SetSearchFiltersIdempotent | src/store/useStore.ts:45-49 | applying the same update twice equals applying it once |
| AppStore.SetSearchFiltersCompose | src/store/useStore.ts:45-49 | `setSearchFilters(a)` then `setSearchFilters(b)` equals one `setSearchFilters` with `{...a, ...b}` |
| AppStore.ResetForgetsUpdates | src/store/useStore.ts:51-53 | a reset after any update gives the same state as a reset alone |
| AppStore.InitialStateIsQuiet | src/store/useStore.ts:26-40 | the initial state has empty filters, no user, both panels closed and the light theme, and a reset leaves it unchanged |
| SearchModal.Mount | src/components/SearchModal.tsx:12-16 | on mount the working copy equals the store's filters and the location tab is active |
| SearchModal.DisplayedGuests | src/components/SearchModal.tsx:281 | the counter shows the guest count when it is defined and non-zero, and 1 otherwise |
| SearchModal.DateSlot | src/components/SearchModal.tsx:201-207 | an empty date input sets the key to `undefined` and a picked date sets it to that date; the key is present either way |
| SearchModal.Step | src/components/SearchModal.tsx:39-289 | each handler sets its own key as the code does (the location; a date key to the picked date, or to `undefined` when the input is cleared; guests one lower but never below 1; guests one above the shown count), selecting a location opens the dates tab, every other key is unchanged and no key is removed |
| SearchModal.Search | src/components/SearchModal.tsx:30-32 | the working copy is merged into the store's filters and the modal closes; user, filter panel and theme are untouched |
| SearchModal.GuestCounterBounds | src/components/SearchModal.tsx:269-289 | for a count that is not negative: the shown count is at least 1, `-` stays at 1 from 1, and `+` gives at least 2 and more than what was shown |
| SearchModal.RunKeepsGuestsValid | src/components/SearchModal.tsx:269-289 | starting from an absent or positive guest count, any sequence of handlers keeps it absent or positive |
| SearchModal.RunKeepsKeys | src/components/SearchModal.tsx:39-229 | no sequence of handlers removes a key from the working copy |
| SearchModal.SessionCommitsWorkingCopy | src/components/SearchModal.tsx:12-32 | in the first search after the page mounts, any edits then search leave the store holding exactly the working copy, with the modal closed |
| SearchModal.SearchWithoutEditsKeepsFilters | src/components/SearchModal.tsx:12-32 | in the first search after the page mounts, searching without edits leaves the store's filters as they were |
| SearchModal.ReopenReappliesClearedFilters | src/components/SearchModal.tsx:12-32 | as written: after a search and "Clear filters", searching again from the kept working copy puts that working copy back into the store |
| SearchModal.ReopenExample | src/components/SearchModal.tsx:12-32 | as written: pick "Miami, FL", search, clear, reopen and search, and the location filter is "Miami, FL" again |
| SearchModal.OpenSynced | src/components/SearchModal.tsx:12-16 | corrected: every opening starts on the store's current filters, key by key, with the location tab |
| SearchModal.SyncedReopenKeepsStoreFilters | src/components/SearchModal.tsx:12-32 | corrected: every session commits its working copy, a search without edits keeps the store's filters, and cleared filters stay cleared |
| PropertyCard.FirstPrimary | src/components/PropertyCard.tsx:17 | the index found is that of the first image flagged primary, and there is none when no image is flagged |
| PropertyCard.PrimaryImage | src/components/PropertyCard.tsx:16-17 | the first primary image, else the first image; none exactly when there are no images |
| PropertyCard.CardImageOf | src/components/PropertyCard.tsx:16-49 | the card shows the primary image (the first flagged one, else the first), or, exactly when there are no images, the value of `getPropertyTypeIcon` as written: the type's emoji or the house off the inherited member names, and an `Object.prototype` member exactly on them |
| PropertyCard.AverageRating | src/components/PropertyCard.tsx:18-22 | 0 for no reviews, otherwise the value whose product with the count is the sum of the ratings |
| PropertyCard.SumRatingsBounds | src/components/PropertyCard.tsx:20 | with every rating in `[lo, hi]`, the sum lies between `lo` and `hi` times the count |
| PropertyCard.AverageWithinBounds | src/components/PropertyCard.tsx:18-22 | with every rating in `[lo, hi]`, a non-empty average lies in `[lo, hi]` |
| PropertyCard.AverageExample | src/components/PropertyCard.tsx:18-22 | ratings 4, 5 and 3 average 4 |
| PropertyCard.RatingBadgeShown | src/components/PropertyCard.tsx:82 | the badge appears exactly when there are reviews and their rating sum is positive |
| PropertyCard.BadgeShownForRatedReviews | src/components/PropertyCard.tsx:82 | reviews rated at least 1 always show the badge |
| PropertyCard.ShownAmenities | src/components/PropertyCard.tsx:115 | the chips are a prefix of the amenities, of length `min(3, n)` |
| PropertyCard.MoreCount | src/components/PropertyCard.tsx:123-125 | "+N more" appears exactly when there are more than three amenities, with N positive |
| PropertyCard.AmenityChipsCoverAll | src/components/PropertyCard.tsx:115-125 | the chips shown plus N account for every amenity |
| PropertyCard.PluralSuffix | src/components/PropertyCard.tsx:101-107 | the suffix is empty exactly for a count of 1 and "s" otherwise |
| PropertyCard.CountLabel | src/components/PropertyCard.tsx:101-107 | the label starts with the count and ends in "s" exactly when the count is not 1 or the unit ends in "s" |
| PropertyCard.BedLabel | src/components/PropertyCard.tsx:101 | the bed label ends in "s" exactly when the bedroom count is not 1 |
| PropertyCard.BathLabel | src/components/PropertyCard.tsx:107 | the bath label ends in "s" exactly when the bathroom count is not 1 |
| PropertyCard.LabelCountReadsBack | src/components/PropertyCard.tsx:101-107 | the number at the head of a label reads back as the count |
| PropertyCard.AvatarSrc | src/components/PropertyCard.tsx:143 | the host's avatar when it is non-empty, otherwise "/default-avatar.png"; never empty |
| Utils.TruncateText | src/lib/utils.ts:54-57 | text no longer than the limit is unchanged; longer text becomes its first `maxLength` characters followed by "...", of length `maxLength + 3` when the limit is not negative; lengths count characters (see "Left out") |
| Utils.TruncateIdempotent | src/lib/utils.ts:54-57 | for a non-negative limit, truncating twice equals truncating once |
| Utils.TruncateNegativeLimit | src/lib/utils.ts:54-57 | a negative limit cuts that many characters from the end before the "..." |
| Utils.PropertyTypeIconAsWritten | src/lib/utils.ts:37-52 | the code as written: a listed type gives its emoji, and an unlisted type that is not an inherited member name gives the house |
| Utils.IconAsWrittenLeaksPrototypeMember | src/lib/utils.ts:38-51 | as written, "Constructor" and "__PROTO__" reach `Object.prototype` members instead of the house |
| Utils.PropertyTypeIcon | src/lib/utils.ts:37-52 | the ten listed types, in any letter case, map to their emoji and every other string maps to the house |
| Utils.IconAsWrittenAgreesOffPrototype | src/lib/utils.ts:38-51 | away from inherited member names the code as written agrees with the corrected function |
| Utils.IconCaseInsensitive | src/lib/utils.ts:51 | the icon of a string equals the icon of its lower-cased form |
| Utils.CalculateDays | src/lib/utils.ts:23-26 | the ceiling of the millisecond difference over a day: exact for whole days, rounded up otherwise, at most 0 when check-out precedes check-in |
| Utils.CalculateDaysWholeAndPartial | src/lib/utils.ts:23-26 | n whole days count n, and any extra millisecond counts one more |
| Utils.CalculateTotalPrice | src/lib/utils.ts:28-35 | a non-negative price over a non-negative stay costs at least 0; a zero-length stay costs 0; a reversed stay costs at most 0 |
| Utils.TotalPriceForWholeNights | src/lib/utils.ts:28-35 | a stay of n whole days costs the nightly price n times |

## Left out

- The `fetch` in `PropertyService.getProperties` and its `response.ok` check are not modelled. Neither are the React hooks that call it (loading and error state, effects). The home-page lemma composes the service, the route and the page rule directly.
- The store query's relation joins (`host`, `images`, `reviews` with their users) are not modelled. The query is a denotation over a sequence of complete `Property` records.
- Database failures are a `Store` value that is either reachable or unreachable. The model does not say why a database fails.
- A negative `skip` is modelled as a failing query, and so as the 500 response. This is an assumption: the database library's own validation of `skip` is not part of this model. A negative `take` is modelled as counting from the end.
- The `console.error` log in the route's error branch (src/app/api/properties/route.ts:65) is not modelled; it has no effect on the response.
- `parseInt` and `parseFloat` are modelled only on well-formed integer numerals. The route requires its numeric parameters to be numerals or empty, because callers are expected to send validated numbers. Partial parses such as "12abc", `NaN` and fractional prices are out of scope.
- Prices are integers, not floating-point numbers. `Number.prototype.toString` is modelled as decimal integer output, without the exponent form it uses from 1e21 up.
- Case-insensitive matching and `toLowerCase` lower-case ASCII letters only. Unicode case folding depends on the database and the JavaScript engine.
- Newest-first ordering breaks ties in `createdAt` by keeping store order. The database leaves such ties unspecified, and this is one admissible choice.
- URL percent-encoding of parameter values is not modelled. The route decodes what the service encodes.
- Date inputs are already-parsed millisecond timestamps. Parsing `YYYY-MM-DD` text and `toISOString` display are not modelled.
- `averageRating.toFixed(1)` and `formatPrice` are not modelled: they are floating-point and `Intl` formatting.
- `cn`, `formatPrice` and `formatDate` are not modelled because they delegate to libraries.
- Presentation is not modelled: layout, animation, body-overflow toggling and `scrollIntoView` in the search modal.
- The seed and database set-up scripts, other routes and pages are not part of this model.
- Utils.TruncateText: lengths and slices count Unicode code points, while JavaScript's `length` and `slice` count UTF-16 code units. For text outside the Basic Multilingual Plane the two differ: `truncateText("😀😀", 3)` is unchanged in the model but cut inside the second emoji in JavaScript.
- SearchModal.GuestCounterBounds: the lower bounds are stated for a guest count that is not negative. The store accepts any number, and from a negative count `+` gives that count plus one.

## Findings

| source | as written | input that shows it | evidently intended | confidence | as-written member | corrected member |
|---|---|---|---|---|---|---|
| src/lib/utils.ts:38-51 | the lookup indexes a plain object literal with the lower-cased type, so a key naming an `Object.prototype` member finds that inherited member, which is truthy and bypasses the fallback; the property card's placeholder shows that value for a property without images | `getPropertyTypeIcon("Constructor")` returns the `Object` function and `getPropertyTypeIcon("__PROTO__")` returns `Object.prototype`, not "🏠" | only the ten listed types map to an emoji, and every other string maps to "🏠" | high; not executed | Utils.PropertyTypeIconAsWritten, Utils.IconAsWrittenLeaksPrototypeMember | Utils.PropertyTypeIcon |
| src/components/SearchModal.tsx:12-16 | the modal is mounted once with the page and renders nothing while closed, so its working copy is initialised from the store only once and is kept across openings | pick "Miami, FL" and search; press "Clear filters"; reopen the modal and search without edits: the store's location is "Miami, FL" again | each opening starts from the store's current filters, so cleared filters stay cleared | medium; not executed | SearchModal.ReopenReappliesClearedFilters, SearchModal.ReopenExample | SearchModal.OpenSynced, SearchModal.SyncedReopenKeepsStoreFilters |
