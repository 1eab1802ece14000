/** The search modal's local state machine (src/components/SearchModal.tsx): a
    working copy of the filters and the active tab, edited by the modal's
    handlers and committed to the store on search. Rendering, animation, body
    scrolling and `scrollIntoView` are not modelled. */
module SearchModal {
  import opened Wrappers
  import opened Types
  import opened AppStore

  datatype Tab = LocationTab | DatesTab | GuestsTab

  datatype ModalState = ModalState(localFilters: SearchFilters, activeTab: Tab)

  /** The value of a date input: empty, or a picked day as a millisecond timestamp. */
  datatype DateInput = Cleared | Picked(timestamp: int)

  /** The modal's user actions, one per handler. */
  datatype Event =
    | TypeLocation(text: string)
    | SelectLocation(location: string)
    | ChangeCheckIn(checkIn: DateInput)
    | ChangeCheckOut(checkOut: DateInput)
    | DecrementGuests
    | IncrementGuests
    | SelectTab(tab: Tab)

  /** On mount the working copy is the store's filters and the location tab is open. */
  function Mount(storeFilters: SearchFilters): (m: ModalState)
    ensures forall k :: SameAt(m.localFilters, storeFilters, k)
    ensures m.activeTab == LocationTab
  {
    ModalState(storeFilters, LocationTab)
  }

  /** The guest count shown: `guests || 1`. */
  function DisplayedGuests(f: SearchFilters): (n: int)
    ensures f.guests.Defined? && f.guests.value != 0 ==> n == f.guests.value
    ensures !f.guests.Defined? || f.guests.value == 0 ==> n == 1
  {
    if TruthyNumber(f.guests) then f.guests.value else 1
  }

  /** The date slot an input sets: an empty input clears to `undefined`. */
  function DateSlot(input: DateInput): (s: Slot<int>)
    ensures s.IsPresent()
    ensures s.Defined? <==> input.Picked?
    ensures s.Defined? ==> s.value == input.timestamp
  {
    match input
    case Cleared => Undefined
    case Picked(t) => Defined(t)
  }

  /** One handler. Typing or picking a location sets it (picking also moves to the
      dates tab); the date inputs set their slot; `-` stores
      `max(1, (guests || 1) - 1)` and `+` stores `(guests || 1) + 1`; the tab
      buttons switch tabs. */
  function Step(m: ModalState, e: Event): (n: ModalState)
    ensures e.TypeLocation? ==> n.localFilters.location == Defined(e.text) && n.activeTab == m.activeTab
    ensures e.SelectLocation? ==> n.localFilters.location == Defined(e.location) && n.activeTab == DatesTab
    ensures e.ChangeCheckIn? ==> n.localFilters.checkIn == DateSlot(e.checkIn)
    ensures e.ChangeCheckOut? ==> n.localFilters.checkOut == DateSlot(e.checkOut)
    ensures e.DecrementGuests? ==>
              && n.localFilters.guests.Defined?
              && n.localFilters.guests.value >= 1
              && (DisplayedGuests(m.localFilters) > 1 ==> n.localFilters.guests.value == DisplayedGuests(m.localFilters) - 1)
              && (DisplayedGuests(m.localFilters) <= 1 ==> n.localFilters.guests.value == 1)
    ensures e.IncrementGuests? ==> n.localFilters.guests == Defined(DisplayedGuests(m.localFilters) + 1)
    ensures e.SelectTab? ==> n == m.(activeTab := e.tab)
    // a handler touches only its own key, and keeps every key that was present
    ensures forall k :: Touches(e) != Some(k) ==> SameAt(n.localFilters, m.localFilters, k)
    ensures forall k :: Present(m.localFilters, k) ==> Present(n.localFilters, k)
    ensures !e.SelectLocation? && !e.SelectTab? ==> n.activeTab == m.activeTab
  {
    var f := m.localFilters;
    match e
    case TypeLocation(text) => m.(localFilters := f.(location := Defined(text)))
    case SelectLocation(location) => ModalState(f.(location := Defined(location)), DatesTab)
    case ChangeCheckIn(input) => m.(localFilters := f.(checkIn := DateSlot(input)))
    case ChangeCheckOut(input) => m.(localFilters := f.(checkOut := DateSlot(input)))
    case DecrementGuests =>
      var lower := DisplayedGuests(f) - 1;
      m.(localFilters := f.(guests := Defined(if lower < 1 then 1 else lower)))
    case IncrementGuests => m.(localFilters := f.(guests := Defined(DisplayedGuests(f) + 1)))
    case SelectTab(tab) => m.(activeTab := tab)
  }

  /** The filter key a handler writes; the tab buttons write none. */
  function Touches(e: Event): Option<FilterKey> {
    match e
    case TypeLocation(_) => Some(LocationKey)
    case SelectLocation(_) => Some(LocationKey)
    case ChangeCheckIn(_) => Some(CheckInKey)
    case ChangeCheckOut(_) => Some(CheckOutKey)
    case DecrementGuests => Some(GuestsKey)
    case IncrementGuests => Some(GuestsKey)
    case SelectTab(_) => None
  }

  /** Handling a sequence of events in order. */
  function Run(m: ModalState, events: seq<Event>): ModalState
    decreases |events|
  {
    if events == [] then m else Run(Step(m, events[0]), events[1..])
  }

  /** `handleSearch`: the working copy is merged into the store's filters and the
      modal closes; the user, the filter panel and the theme are untouched. */
  function Search(m: ModalState, app: AppState): (t: AppState)
    ensures forall k :: Present(m.localFilters, k) ==> SameAt(t.searchFilters, m.localFilters, k)
    ensures forall k :: !Present(m.localFilters, k) ==> SameAt(t.searchFilters, app.searchFilters, k)
    ensures !t.isSearchOpen
    ensures t.user == app.user && t.isFilterOpen == app.isFilterOpen && t.theme == app.theme
  {
    SetIsSearchOpen(SetSearchFilters(app, m.localFilters), false)
  }

  /** The guest counter never shows less than one when the stored count is not
      negative; `-` then stays at one from one or from no count, and `+` gives at
      least two, one more than what was shown. */
  lemma GuestCounterBounds(f: SearchFilters)
    requires f.guests.Defined? ==> f.guests.value >= 0
    ensures DisplayedGuests(f) >= 1
    ensures DisplayedGuests(f) == 1 ==> Step(ModalState(f, GuestsTab), DecrementGuests).localFilters.guests == Defined(1)
    ensures Step(ModalState(f, GuestsTab), IncrementGuests).localFilters.guests.value >= 2
    ensures DisplayedGuests(Step(ModalState(f, GuestsTab), IncrementGuests).localFilters) > DisplayedGuests(f)
  {
  }

  /** Guest counts the counter can produce: none yet, or at least one. */
  predicate GuestsValid(f: SearchFilters) {
    f.guests.Defined? ==> f.guests.value >= 1
  }

  /** Starting from a store whose guest count is valid, every sequence of
      handlers keeps it valid, so the counter always shows at least one. */
  lemma {:induction false} RunKeepsGuestsValid(m: ModalState, events: seq<Event>)
    requires GuestsValid(m.localFilters)
    ensures GuestsValid(Run(m, events).localFilters)
    ensures DisplayedGuests(Run(m, events).localFilters) >= 1
    decreases |events|
  {
    if events != [] {
      var n := Step(m, events[0]);
      assert GuestsValid(n.localFilters) by {
        if events[0] != DecrementGuests && events[0] != IncrementGuests {
          assert SameAt(n.localFilters, m.localFilters, GuestsKey);
        }
      }
      RunKeepsGuestsValid(n, events[1..]);
    }
  }

  /** No handler removes a key from the working copy. */
  lemma {:induction false} RunKeepsKeys(m: ModalState, events: seq<Event>)
    ensures forall k :: Present(m.localFilters, k) ==> Present(Run(m, events).localFilters, k)
    decreases |events|
  {
    if events != [] {
      RunKeepsKeys(Step(m, events[0]), events[1..]);
    }
  }

  /** The first search session after the page loads: mounting on the store's
      filters, any edits, then search. The store ends up holding exactly the
      modal's working copy, and closed. */
  lemma SessionCommitsWorkingCopy(app: AppState, events: seq<Event>)
    ensures Search(Run(Mount(app.searchFilters), events), app).searchFilters
            == Run(Mount(app.searchFilters), events).localFilters
    ensures !Search(Run(Mount(app.searchFilters), events), app).isSearchOpen
  {
    var m := Run(Mount(app.searchFilters), events);
    RunKeepsKeys(Mount(app.searchFilters), events);
    var t := Search(m, app);
    forall k
      ensures SameAt(t.searchFilters, m.localFilters, k)
    {
      if !Present(m.localFilters, k) {
        assert !Present(app.searchFilters, k);
        assert !Present(t.searchFilters, k) by {
          assert SameAt(t.searchFilters, app.searchFilters, k);
        }
      }
    }
    SameEverywhere(t.searchFilters, m.localFilters);
  }

  /** On the first opening after the page loads, searching without editing
      leaves the store's filters as they were. */
  lemma SearchWithoutEditsKeepsFilters(app: AppState)
    ensures Search(Mount(app.searchFilters), app).searchFilters == app.searchFilters
  {
    SessionCommitsWorkingCopy(app, []);
  }

  /** The modal stays mounted while closed (it only renders nothing), so a later
      opening keeps the working copy and tab of the previous session and does
      not re-read the store. After "Clear filters" resets the store, searching
      again without edits restores the filters that were cleared. */
  lemma ReopenReappliesClearedFilters(app: AppState, events: seq<Event>)
    ensures ResetFilters(Search(Run(Mount(app.searchFilters), events), app)).searchFilters == NoFilters
    ensures var m := Run(Mount(app.searchFilters), events);
            Search(m, ResetFilters(Search(m, app))).searchFilters == m.localFilters
  {
    var m := Run(Mount(app.searchFilters), events);
    MergeEmpty(m.localFilters);
  }

  /** A concrete case: pick "Miami, FL", search, clear the filters, reopen and
      search at once; the store's location is "Miami, FL" again. */
  lemma ReopenExample()
    ensures var m := Run(Mount(NoFilters), [SelectLocation("Miami, FL")]);
            var cleared := ResetFilters(Search(m, InitialState));
            && cleared.searchFilters == NoFilters
            && Search(m, cleared).searchFilters.location == Defined("Miami, FL")
  {
    var m := Run(Mount(NoFilters), [SelectLocation("Miami, FL")]);
    assert m == Step(Mount(NoFilters), SelectLocation("Miami, FL"));
    ReopenReappliesClearedFilters(InitialState, [SelectLocation("Miami, FL")]);
  }

  /** Opening as intended: the working copy is taken afresh from the store's
      current filters on every opening, whatever the previous session left. */
  function OpenSynced(previous: ModalState, storeFilters: SearchFilters): (m: ModalState)
    ensures forall k :: SameAt(m.localFilters, storeFilters, k)
    ensures m.activeTab == LocationTab
  {
    Mount(storeFilters)
  }

  /** With a synchronised opening, every session (not only the first) commits its
      working copy, and a search without edits leaves the store's filters as
      they were, so cleared filters stay cleared. */
  lemma SyncedReopenKeepsStoreFilters(previous: ModalState, app: AppState, events: seq<Event>)
    ensures Search(Run(OpenSynced(previous, app.searchFilters), events), app).searchFilters
            == Run(OpenSynced(previous, app.searchFilters), events).localFilters
    ensures Search(OpenSynced(previous, app.searchFilters), app).searchFilters == app.searchFilters
    ensures Search(OpenSynced(previous, ResetFilters(app).searchFilters), ResetFilters(app)).searchFilters == NoFilters
  {
    SessionCommitsWorkingCopy(app, events);
    SearchWithoutEditsKeepsFilters(app);
    SearchWithoutEditsKeepsFilters(ResetFilters(app));
  }
}
