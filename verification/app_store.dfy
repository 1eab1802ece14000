/** The global client store (src/store/useStore.ts): search filters, the signed-in
    user, two panel flags and the colour theme, with their update functions. Each
    setter is a function from the old state to the new one. */
module AppStore {
  import opened Wrappers
  import opened Types

  datatype Theme = Light | Dark

  datatype AppState = AppState(
    searchFilters: SearchFilters,
    user: Option<User>,
    isSearchOpen: bool,
    isFilterOpen: bool,
    theme: Theme)

  /** Empty filters, nobody signed in, both panels closed, light theme. */
  const InitialState := AppState(NoFilters, None, false, false, Light)

  /** `{ ...base, ...update }`: every key present in `update` takes its value from
      `update` (an explicit `undefined` included), every other key keeps `base`'s. */
  function Merge(base: SearchFilters, update: SearchFilters): (r: SearchFilters)
    ensures forall k :: Present(update, k) ==> SameAt(r, update, k)
    ensures forall k :: !Present(update, k) ==> SameAt(r, base, k)
    ensures forall k :: Present(r, k) <==> Present(base, k) || Present(update, k)
  {
    SearchFilters(
      Override(base.location, update.location),
      Override(base.checkIn, update.checkIn),
      Override(base.checkOut, update.checkOut),
      Override(base.guests, update.guests),
      Override(base.priceMin, update.priceMin),
      Override(base.priceMax, update.priceMax),
      Override(base.propertyType, update.propertyType),
      Override(base.amenities, update.amenities))
  }

  /** One key of a spread: the update's slot when the key is present on it. */
  function Override<T>(base: Slot<T>, update: Slot<T>): Slot<T> {
    if update.IsPresent() then update else base
  }

  /** Merging the empty object changes nothing, and merging into it copies. */
  lemma MergeEmpty(f: SearchFilters)
    ensures Merge(f, NoFilters) == f
    ensures Merge(NoFilters, f) == f
  {
  }

  /** Merging the same update twice is merging it once. */
  lemma MergeIdempotent(base: SearchFilters, update: SearchFilters)
    ensures Merge(Merge(base, update), update) == Merge(base, update)
  {
  }

  /** Two merges in a row are one merge with the merged update. */
  lemma MergeCompose(base: SearchFilters, a: SearchFilters, b: SearchFilters)
    ensures Merge(Merge(base, a), b) == Merge(base, Merge(a, b))
  {
  }

  /** `setSearchFilters`: merges the update into the filters; nothing else changes. */
  function SetSearchFilters(s: AppState, update: SearchFilters): (t: AppState)
    ensures forall k :: Present(update, k) ==> SameAt(t.searchFilters, update, k)
    ensures forall k :: !Present(update, k) ==> SameAt(t.searchFilters, s.searchFilters, k)
    ensures t.(searchFilters := s.searchFilters) == s
  {
    s.(searchFilters := Merge(s.searchFilters, update))
  }

  /** `resetFilters`: the filters become `{}`; nothing else changes. */
  function ResetFilters(s: AppState): (t: AppState)
    ensures forall k :: !Present(t.searchFilters, k)
    ensures t.(searchFilters := s.searchFilters) == s
  {
    s.(searchFilters := NoFilters)
  }

  function SetUser(s: AppState, user: Option<User>): (t: AppState)
    ensures t.user == user
    ensures t.(user := s.user) == s
  {
    s.(user := user)
  }

  function SetIsSearchOpen(s: AppState, open: bool): (t: AppState)
    ensures t.isSearchOpen == open
    ensures t.(isSearchOpen := s.isSearchOpen) == s
  {
    s.(isSearchOpen := open)
  }

  function SetIsFilterOpen(s: AppState, open: bool): (t: AppState)
    ensures t.isFilterOpen == open
    ensures t.(isFilterOpen := s.isFilterOpen) == s
  {
    s.(isFilterOpen := open)
  }

  /** `toggleTheme`: light becomes dark and anything else becomes light. */
  function ToggleTheme(s: AppState): (t: AppState)
    ensures t.theme != s.theme
    ensures t.(theme := s.theme) == s
  {
    s.(theme := if s.theme == Light then Dark else Light)
  }

  /** Toggling twice restores the theme. */
  lemma ToggleThemeTwice(s: AppState)
    ensures ToggleTheme(ToggleTheme(s)) == s
  {
  }

  /** An empty update leaves the state as it was. */
  lemma SetEmptyFiltersIsIdentity(s: AppState)
    ensures SetSearchFilters(s, NoFilters) == s
  {
    MergeEmpty(s.searchFilters);
  }

  /** Repeating an update is the same as applying it once. */
  lemma SetSearchFiltersIdempotent(s: AppState, update: SearchFilters)
    ensures SetSearchFilters(SetSearchFilters(s, update), update) == SetSearchFilters(s, update)
  {
    MergeIdempotent(s.searchFilters, update);
  }

  /** Two updates in a row are one update with `{ ...a, ...b }`. */
  lemma SetSearchFiltersCompose(s: AppState, a: SearchFilters, b: SearchFilters)
    ensures SetSearchFilters(SetSearchFilters(s, a), b) == SetSearchFilters(s, Merge(a, b))
  {
    MergeCompose(s.searchFilters, a, b);
  }

  /** A reset forgets every earlier filter update. */
  lemma ResetForgetsUpdates(s: AppState, update: SearchFilters)
    ensures ResetFilters(SetSearchFilters(s, update)) == ResetFilters(s)
  {
  }

  /** The initial state has no active filters, nobody signed in and closed panels. */
  lemma InitialStateIsQuiet()
    ensures forall k :: !Present(InitialState.searchFilters, k)
    ensures InitialState.user.None? && !InitialState.isSearchOpen && !InitialState.isFilterOpen
    ensures InitialState.theme == Light
    ensures ResetFilters(InitialState) == InitialState
  {
  }
}
