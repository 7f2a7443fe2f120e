/**
 * The trip search bar: the destination, the travel dates, the four guest
 * counters, the validation run before a search, and the step that resolves
 * each suggested time slot's location id against the suggested places.
 */
module TripSearchBar {
  import opened Wrappers
  import opened TripContext

  datatype Guest = Adults | Children | Infants | Pets

  datatype SearchError = MissingDestination | MissingDates | NoAdult

  /** The first rule a search breaks, checked in the order destination, dates, adults. */
  function Validate(destination: string, startDate: Option<int>, endDate: Option<int>, adults: int): (r: Option<SearchError>)
    ensures r == Some(MissingDestination) <==> destination == ""
    ensures r == Some(MissingDates) <==> destination != "" && (startDate.None? || endDate.None?)
    ensures r == Some(NoAdult) <==> destination != "" && startDate.Some? && endDate.Some? && adults == 0
    ensures r == None <==> destination != "" && startDate.Some? && endDate.Some? && adults != 0
  {
    if destination == "" then Some(MissingDestination)
    else if startDate.None? || endDate.None? then Some(MissingDates)
    else if adults == 0 then Some(NoAdult)
    else None
  }

  /** The trip length in days, both ends included, or 0 until both dates are picked. */
  function TripDays(startDate: Option<int>, endDate: Option<int>): (r: int)
    ensures startDate.Some? && endDate.Some? && startDate.value <= endDate.value ==> r >= 1
    ensures startDate.None? || endDate.None? ==> r == 0
  {
    if startDate.Some? && endDate.Some? then endDate.value - startDate.value + 1 else 0
  }

  /** Moving the end date by one day moves the trip length by one day. */
  lemma TripDaysShift(start: int, end: int)
    ensures TripDays(Some(start), Some(end + 1)) == TripDays(Some(start), Some(end)) + 1
    ensures TripDays(Some(start), Some(start)) == 1
  {
  }

  /** A time slot as the suggestion service returns it: the place is named by id only. */
  datatype SuggestedSlot = SuggestedSlot(time: string, locationId: string, activities: seq<string>, duration: string)

  datatype SuggestedDay = SuggestedDay(dayNumber: int, date: string, morning: SuggestedSlot, afternoon: SuggestedSlot, evening: SuggestedSlot)

  datatype Suggestions = Suggestions(
    locations: seq<SavedLocation>, days: seq<SuggestedDay>, tips: seq<string>, dailyBudget: int, totalBudget: int)

  /** One slot with its place looked up among the suggested places. */
  function ResolveSlot(locations: seq<SavedLocation>, slot: SuggestedSlot): (r: TimeSlot)
    ensures r.time == slot.time && r.activities == slot.activities && r.duration == slot.duration
    ensures r.location.Some? ==> r.location.value in locations && r.location.value.id == slot.locationId
    ensures r.location.None? <==> !HasLocation(locations, slot.locationId)
  {
    TimeSlot(slot.time, FindSaved(locations, slot.locationId), slot.activities, slot.duration)
  }

  function ResolveDay(locations: seq<SavedLocation>, day: SuggestedDay): DayItinerary {
    DayItinerary(day.dayNumber, day.date,
      Some(ResolveSlot(locations, day.morning)),
      Some(ResolveSlot(locations, day.afternoon)),
      Some(ResolveSlot(locations, day.evening)))
  }

  /** The itinerary handed to the store: same days in the same order, every slot resolved. */
  function ResolveDays(locations: seq<SavedLocation>, days: seq<SuggestedDay>): (r: seq<DayItinerary>)
    ensures |r| == |days|
    ensures forall i :: 0 <= i < |days| ==> r[i] == ResolveDay(locations, days[i])
  {
    seq(|days|, i requires 0 <= i < |days| => ResolveDay(locations, days[i]))
  }

  /** The AI itinerary stored from the suggestions: one resolved day per suggested day, tips and budgets carried over. */
  function Resolve(s: Suggestions): (r: AIItinerary)
    ensures |r.days| == |s.days| && forall i :: 0 <= i < |s.days| ==> r.days[i].dayNumber == s.days[i].dayNumber
    ensures r.tips == s.tips && r.dailyBudget == s.dailyBudget && r.totalBudget == s.totalBudget
  {
    AIItinerary(ResolveDays(s.locations, s.days), s.tips, s.dailyBudget, s.totalBudget)
  }

  /** A slot's place is the first suggested place with its id, even when several share it. */
  lemma ResolvedIsFirstMatch(locations: seq<SavedLocation>, slot: SuggestedSlot, i: nat)
    requires i < |locations| && locations[i].id == slot.locationId
    requires forall j :: 0 <= j < i ==> locations[j].id != slot.locationId
    ensures ResolveSlot(locations, slot).location == Some(locations[i])
  {
    var r := ResolveSlot(locations, slot).location;
    assert HasLocation(locations, slot.locationId) by {
      assert locations[i] in locations;
    }
    var k :| 0 <= k < |locations| && locations[k] == r.value && r.value.id == slot.locationId
             && forall j :: 0 <= j < k ==> locations[j].id != slot.locationId;
    assert k == i;
  }

  /** What the suggestion service gave back: an error, an answer without suggestions, or suggestions. */
  datatype Reply = ServiceError | NoSuggestions | Suggested(suggestions: Suggestions)

  datatype SearchOutcome =
    | Rejected(error: SearchError)
    | Failed
    | Explored(suggestions: Option<AIItinerary>)

  class SearchBar {
    var destination: string
    var startDate: Option<int>
    var endDate: Option<int>
    var adults: int
    var children: int
    var infants: int
    var pets: int
    var isSearching: bool

    /** No counter is ever below zero. */
    predicate Valid()
      reads this
    {
      adults >= 0 && children >= 0 && infants >= 0 && pets >= 0
    }

    /** An empty form for two adults. */
    constructor ()
      ensures Valid()
      ensures destination == "" && startDate.None? && endDate.None? && !isSearching
      ensures adults == 2 && children == 0 && infants == 0 && pets == 0
      ensures TotalGuests() == 2
    {
      destination := "";
      startDate := None;
      endDate := None;
      adults := 2;
      children := 0;
      infants := 0;
      pets := 0;
      isSearching := false;
    }

    function Count(g: Guest): int
      reads this
    {
      match g
      case Adults => adults
      case Children => children
      case Infants => infants
      case Pets => pets
    }

    /** Everyone counted, pets included. */
    function TotalGuests(): (r: int)
      reads this
      ensures r == Count(Adults) + Count(Children) + Count(Infants) + Count(Pets)
      ensures Valid() ==> r >= 0
    {
      adults + children + infants + pets
    }

    function Days(): int
      reads this
    {
      TripDays(startDate, endDate)
    }

    /** The search button is inactive without a destination and both dates, and while a search runs. */
    predicate SearchDisabled()
      reads this
      ensures !SearchDisabled() ==> destination != "" && startDate.Some? && endDate.Some? && !isSearching
      ensures isSearching ==> SearchDisabled()
    {
      destination == "" || startDate.None? || endDate.None? || isSearching
    }

    /** With the button enabled, a search can only be turned back for want of an adult. */
    lemma EnabledPassesFirstChecks()
      requires !SearchDisabled()
      ensures Validate(destination, startDate, endDate, adults) == None || Validate(destination, startDate, endDate, adults) == Some(NoAdult)
      ensures !isSearching
    {
    }

    /** The minus button: one fewer, but never below zero. */
    method Decrement(g: Guest)
      requires Valid()
      modifies this
      ensures Valid()
      ensures Count(g) == if old(Count(g)) > 0 then old(Count(g)) - 1 else 0
      ensures forall h :: h != g ==> Count(h) == old(Count(h))
      ensures destination == old(destination) && startDate == old(startDate) && endDate == old(endDate)
      ensures isSearching == old(isSearching)
    {
      match g
      case Adults => adults := if adults - 1 > 0 then adults - 1 else 0;
      case Children => children := if children - 1 > 0 then children - 1 else 0;
      case Infants => infants := if infants - 1 > 0 then infants - 1 else 0;
      case Pets => pets := if pets - 1 > 0 then pets - 1 else 0;
    }

    /** The plus button: one more. */
    method Increment(g: Guest)
      requires Valid()
      modifies this
      ensures Valid()
      ensures Count(g) == old(Count(g)) + 1
      ensures forall h :: h != g ==> Count(h) == old(Count(h))
      ensures destination == old(destination) && startDate == old(startDate) && endDate == old(endDate)
      ensures isSearching == old(isSearching)
    {
      match g
      case Adults => adults := adults + 1;
      case Children => children := children + 1;
      case Infants => infants := infants + 1;
      case Pets => pets := pets + 1;
    }

    /**
     * The search: a form that breaks a rule changes nothing; otherwise the
     * search parameters go to the store; after an error the search fails,
     * otherwise the explore page opens with the suggestions, if any, resolved.
     */
    method Search(store: TripStore, response: Reply) returns (outcome: SearchOutcome)
      modifies this, store
      ensures var e := Validate(old(destination), old(startDate), old(endDate), old(adults));
        e.Some? ==> outcome == Rejected(e.value) && store.searchParams == old(store.searchParams) && isSearching == old(isSearching)
      ensures Validate(old(destination), old(startDate), old(endDate), old(adults)).None? ==>
        && store.searchParams == Some(TripSearchParams(destination, startDate, endDate, TripDays(startDate, endDate),
                                                       adults, children, infants, pets))
        && !isSearching
        && outcome == match response
                     case ServiceError => Failed
                     case NoSuggestions => Explored(None)
                     case Suggested(s) => Explored(Some(Resolve(s)))
      ensures store.savedLocations == old(store.savedLocations) && store.bookmarks == old(store.bookmarks)
      ensures store.itinerary == old(store.itinerary) && store.aiItinerary == old(store.aiItinerary)
      ensures destination == old(destination) && startDate == old(startDate) && endDate == old(endDate)
      ensures adults == old(adults) && children == old(children) && infants == old(infants) && pets == old(pets)
    {
      var error := Validate(destination, startDate, endDate, adults);
      if error.Some? {
        return Rejected(error.value);
      }
      isSearching := true;
      store.searchParams := Some(TripSearchParams(destination, startDate, endDate, Days(),
                                                  adults, children, infants, pets));
      match response {
        case ServiceError =>
          outcome := Failed;
        case NoSuggestions =>
          outcome := Explored(None);
        case Suggested(s) =>
          outcome := Explored(Some(Resolve(s)));
      }
      isSearching := false;
    }
  }
}
