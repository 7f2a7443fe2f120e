/**
 * The shared trip store: the traveller's saved locations, named bookmark
 * folders over them, the planned itinerary and the AI itinerary. The store
 * keeps each list as a whole value and every operation replaces it with a
 * new list computed from the old one; persistence to browser storage is the
 * identity here.
 */
module TripContext {
  import opened Wrappers
  import opened Seqs

  datatype Nearby = Nearby(name: string, kind: string, distance: string)

  /** A saved place. Coordinates and the optional fields may be missing in records read back from storage. */
  datatype SavedLocation = SavedLocation(
    id: string, name: string, image: string, description: string, tags: seq<string>,
    lat: Option<real>, lng: Option<real>, kind: string,
    city: Option<string>, country: Option<string>, nearby: Option<seq<Nearby>>)

  datatype TimeSlot = TimeSlot(time: string, location: Option<SavedLocation>, activities: seq<string>, duration: string)

  datatype DayItinerary = DayItinerary(
    dayNumber: int, date: string,
    morning: Option<TimeSlot>, afternoon: Option<TimeSlot>, evening: Option<TimeSlot>)

  datatype AIItinerary = AIItinerary(days: seq<DayItinerary>, tips: seq<string>, dailyBudget: int, totalBudget: int)

  datatype ItineraryStop = ItineraryStop(location: SavedLocation, order: int, day: int)

  /** Dates are day numbers. */
  datatype TripSearchParams = TripSearchParams(
    destination: string, startDate: Option<int>, endDate: Option<int>,
    days: int, adults: int, children: int, infants: int, pets: int)

  datatype Bookmark = Bookmark(id: string, name: string, locationIds: seq<string>)

  /** A place the maps can pin: both coordinates are present. */
  predicate HasCoordinates(l: SavedLocation) {
    l.lat.Some? && l.lng.Some?
  }

  function SlotLocation(slot: Option<TimeSlot>): seq<SavedLocation> {
    if slot.Some? && slot.value.location.Some? then [slot.value.location.value] else []
  }

  /** A day's places, morning, afternoon and evening in that order, skipping slots without one. */
  function SlotLocations(day: DayItinerary): (r: seq<SavedLocation>)
    ensures |r| <= 3
  {
    SlotLocation(day.morning) + SlotLocation(day.afternoon) + SlotLocation(day.evening)
  }

  predicate HasLocation(saved: seq<SavedLocation>, id: string) {
    exists l :: l in saved && l.id == id
  }

  predicate DistinctIds(saved: seq<SavedLocation>) {
    forall i, j :: 0 <= i < j < |saved| ==> saved[i].id != saved[j].id
  }

  /** `findIndex(l => l.id === id)`. */
  function FindIndex(saved: seq<SavedLocation>, id: string): (r: Option<nat>)
    ensures r.Some? ==> r.value < |saved| && saved[r.value].id == id
                        && forall j :: 0 <= j < r.value ==> saved[j].id != id
    ensures r.None? <==> !HasLocation(saved, id)
    decreases |saved|
  {
    if saved == [] then None
    else if saved[0].id == id then Some(0)
    else
      match FindIndex(saved[1..], id)
      case None =>
        assert forall l :: l in saved ==> l == saved[0] || l in saved[1..];
        None
      case Some(k) => Some(k + 1)
  }

  /** `find(l => l.id === id)`: the first saved place carrying the id. */
  function FindSaved(saved: seq<SavedLocation>, id: string): (r: Option<SavedLocation>)
    ensures r.Some? ==> exists i :: 0 <= i < |saved| && saved[i] == r.value && r.value.id == id
                          && forall j :: 0 <= j < i ==> saved[j].id != id
    ensures r.None? <==> !HasLocation(saved, id)
  {
    match FindIndex(saved, id)
    case None => None
    case Some(i) => Some(saved[i])
  }

  function Prefer<T>(incoming: Option<T>, prior: Option<T>): Option<T> {
    if incoming.Some? then incoming else prior
  }

  /** `{ ...prior, ...incoming }`: the fields `incoming` carries win, the ones it lacks keep their earlier value. */
  function Merge(prior: SavedLocation, incoming: SavedLocation): (r: SavedLocation)
    ensures r.id == incoming.id && r.name == incoming.name && r.tags == incoming.tags && r.kind == incoming.kind
    ensures r.image == incoming.image && r.description == incoming.description
    ensures incoming.lat.Some? ==> r.lat == incoming.lat
    ensures incoming.lat.None? ==> r.lat == prior.lat
    ensures incoming.lng.Some? ==> r.lng == incoming.lng
    ensures incoming.lng.None? ==> r.lng == prior.lng
    ensures incoming.city.Some? ==> r.city == incoming.city
    ensures incoming.city.None? ==> r.city == prior.city
    ensures incoming.country.Some? ==> r.country == incoming.country
    ensures incoming.country.None? ==> r.country == prior.country
    ensures incoming.nearby.Some? ==> r.nearby == incoming.nearby
    ensures incoming.nearby.None? ==> r.nearby == prior.nearby
  {
    incoming.(lat := Prefer(incoming.lat, prior.lat), lng := Prefer(incoming.lng, prior.lng),
           city := Prefer(incoming.city, prior.city), country := Prefer(incoming.country, prior.country),
           nearby := Prefer(incoming.nearby, prior.nearby))
  }

  /** The new list `addLocation` stores: an entry with the same id is merged in place, a new id goes at the end. */
  function Upsert(saved: seq<SavedLocation>, location: SavedLocation): (r: seq<SavedLocation>)
    ensures HasLocation(r, location.id)
    ensures HasLocation(saved, location.id) ==> |r| == |saved|
    ensures !HasLocation(saved, location.id) ==> r == saved + [location]
    ensures forall i :: 0 <= i < |saved| && saved[i].id != location.id ==> r[i] == saved[i]
    ensures forall i :: (0 <= i < |saved| && saved[i].id == location.id
                         && forall j :: 0 <= j < i ==> saved[j].id != location.id)
                        ==> r[i] == Merge(saved[i], location)
  {
    match FindIndex(saved, location.id)
    case None => saved + [location]
    case Some(i) =>
      var r := saved[i := Merge(saved[i], location)];
      assert r[i] in r;
      r
  }

  /** Adding the same record twice stores what adding it once stores. */
  lemma UpsertIdempotent(saved: seq<SavedLocation>, location: SavedLocation)
    ensures Upsert(Upsert(saved, location), location) == Upsert(saved, location)
  {
    var once := Upsert(saved, location);
    match FindIndex(saved, location.id)
    case None =>
      assert FindIndex(once, location.id) == Some(|saved|);
    case Some(i) =>
      assert FindIndex(once, location.id) == Some(i);
  }

  /** Saved ids stay distinct under `addLocation`. */
  lemma UpsertKeepsDistinct(saved: seq<SavedLocation>, location: SavedLocation)
    requires DistinctIds(saved)
    ensures DistinctIds(Upsert(saved, location))
  {
  }

  /** `prev.filter(l => l.id !== id)`. */
  function WithoutLocation(saved: seq<SavedLocation>, id: string): (r: seq<SavedLocation>)
    ensures !HasLocation(r, id)
    ensures forall l :: l in r <==> l in saved && l.id != id
  {
    Filter(saved, (l: SavedLocation) => l.id != id)
  }

  /** Removing what was just added under a new id gives the earlier list back. */
  lemma {:induction false} RemoveUndoesAdd(saved: seq<SavedLocation>, location: SavedLocation)
    requires !HasLocation(saved, location.id)
    ensures WithoutLocation(Upsert(saved, location), location.id) == saved
  {
    var p := (l: SavedLocation) => l.id != location.id;
    FilterAppend(saved, [location], p);
    FilterKeepsAll(saved, p);
    assert Filter([location], p) == [];
  }

  /** The order of the kept entries is their order before the removal. */
  lemma RemoveKeepsOrder(a: seq<SavedLocation>, b: seq<SavedLocation>, id: string)
    ensures WithoutLocation(a + b, id) == WithoutLocation(a, id) + WithoutLocation(b, id)
  {
    FilterAppend(a, b, (l: SavedLocation) => l.id != id);
  }

  /** Removal never brings back a duplicate id. */
  lemma {:induction false} RemoveKeepsDistinct(saved: seq<SavedLocation>, id: string)
    requires DistinctIds(saved)
    ensures DistinctIds(WithoutLocation(saved, id))
    decreases |saved|
  {
    if saved != [] {
      RemoveKeepsDistinct(saved[1..], id);
      var rest := WithoutLocation(saved[1..], id);
      assert forall l :: l in rest ==> l in saved[1..];
      assert forall l :: l in saved[1..] ==> l.id != saved[0].id;
    }
  }

  /** `bookmarks.filter(b => b.id !== id)`. */
  function WithoutBookmark(bookmarks: seq<Bookmark>, id: string): (r: seq<Bookmark>)
    ensures forall b :: b in r <==> b in bookmarks && b.id != id
  {
    Filter(bookmarks, (b: Bookmark) => b.id != id)
  }

  /** Removing a bookmark just created under a new id gives the earlier list back. */
  lemma {:induction false} RemoveBookmarkUndoesAdd(bookmarks: seq<Bookmark>, id: string, name: string)
    requires forall b :: b in bookmarks ==> b.id != id
    ensures WithoutBookmark(bookmarks + [Bookmark(id, name, [])], id) == bookmarks
  {
    var p := (b: Bookmark) => b.id != id;
    FilterAppend(bookmarks, [Bookmark(id, name, [])], p);
    FilterKeepsAll(bookmarks, p);
    assert Filter([Bookmark(id, name, [])], p) == [];
  }

  /** `bookmarks.map(b => b.id === id ? { ...b, name } : b)`. */
  function Renamed(bookmarks: seq<Bookmark>, id: string, name: string): (r: seq<Bookmark>)
    ensures |r| == |bookmarks|
    ensures forall i :: 0 <= i < |r| ==>
      r[i].id == bookmarks[i].id && r[i].locationIds == bookmarks[i].locationIds
      && r[i].name == (if bookmarks[i].id == id then name else bookmarks[i].name)
  {
    seq(|bookmarks|, i requires 0 <= i < |bookmarks| =>
      if bookmarks[i].id == id then bookmarks[i].(name := name) else bookmarks[i])
  }

  /** A second rename overrides the first. */
  lemma RenameTwice(bookmarks: seq<Bookmark>, id: string, first: string, second: string)
    ensures Renamed(Renamed(bookmarks, id, first), id, second) == Renamed(bookmarks, id, second)
  {
  }

  /** Appends `locationId` to the bookmark(s) with id `bookmarkId`; duplicates are not filtered. */
  function WithLocationId(bookmarks: seq<Bookmark>, bookmarkId: string, locationId: string): (r: seq<Bookmark>)
    ensures |r| == |bookmarks|
    ensures forall i :: 0 <= i < |r| ==>
      r[i].id == bookmarks[i].id && r[i].name == bookmarks[i].name
      && r[i].locationIds == (if bookmarks[i].id == bookmarkId then bookmarks[i].locationIds + [locationId]
                              else bookmarks[i].locationIds)
  {
    seq(|bookmarks|, i requires 0 <= i < |bookmarks| =>
      var b := bookmarks[i];
      if b.id == bookmarkId then b.(locationIds := b.locationIds + [locationId]) else b)
  }

  /** Drops every occurrence of `locationId` from the bookmark(s) with id `bookmarkId`. */
  function WithoutLocationId(bookmarks: seq<Bookmark>, bookmarkId: string, locationId: string): (r: seq<Bookmark>)
    ensures |r| == |bookmarks|
    ensures forall i :: 0 <= i < |r| ==>
      r[i].id == bookmarks[i].id && r[i].name == bookmarks[i].name
      && (bookmarks[i].id != bookmarkId ==> r[i].locationIds == bookmarks[i].locationIds)
      && (bookmarks[i].id == bookmarkId ==>
            locationId !in r[i].locationIds
            && forall x :: x in r[i].locationIds <==> x in bookmarks[i].locationIds && x != locationId)
  {
    seq(|bookmarks|, i requires 0 <= i < |bookmarks| =>
      var b := bookmarks[i];
      if b.id == bookmarkId then b.(locationIds := Filter(b.locationIds, (x: string) => x != locationId)) else b)
  }

  /** Adding an id the folder did not hold and removing it again restores the bookmarks. */
  lemma RemoveIdUndoesAdd(bookmarks: seq<Bookmark>, bookmarkId: string, locationId: string)
    requires forall b :: b in bookmarks && b.id == bookmarkId ==> locationId !in b.locationIds
    ensures WithoutLocationId(WithLocationId(bookmarks, bookmarkId, locationId), bookmarkId, locationId) == bookmarks
  {
    var r := WithoutLocationId(WithLocationId(bookmarks, bookmarkId, locationId), bookmarkId, locationId);
    forall i | 0 <= i < |bookmarks| && bookmarks[i].id == bookmarkId
      ensures r[i] == bookmarks[i]
    {
      var ids := bookmarks[i].locationIds;
      var p := (x: string) => x != locationId;
      assert bookmarks[i] in bookmarks;
      FilterAppend(ids, [locationId], p);
      FilterKeepsAll(ids, p);
      assert Filter([locationId], p) == [];
    }
  }

  class TripStore {
    var savedLocations: seq<SavedLocation>
    var itinerary: seq<ItineraryStop>
    var aiItinerary: Option<AIItinerary>
    var searchParams: Option<TripSearchParams>
    var bookmarks: seq<Bookmark>

    /** The store as read back from storage. */
    constructor (saved: seq<SavedLocation>, stops: seq<ItineraryStop>, ai: Option<AIItinerary>,
                 params: Option<TripSearchParams>, folders: seq<Bookmark>)
      ensures savedLocations == saved && itinerary == stops && aiItinerary == ai
      ensures searchParams == params && bookmarks == folders
    {
      savedLocations := saved;
      itinerary := stops;
      aiItinerary := ai;
      searchParams := params;
      bookmarks := folders;
    }

    /** `isLocationSaved`: some saved entry carries the id. */
    function IsLocationSaved(id: string): (r: bool)
      reads this
      ensures r <==> exists i :: 0 <= i < |savedLocations| && savedLocations[i].id == id
    {
      assert forall l :: l in savedLocations ==> exists i :: 0 <= i < |savedLocations| && savedLocations[i] == l;
      HasLocation(savedLocations, id)
    }

    method AddLocation(location: SavedLocation)
      modifies this
      ensures savedLocations == Upsert(old(savedLocations), location)
      ensures IsLocationSaved(location.id)
      ensures DistinctIds(old(savedLocations)) ==> DistinctIds(savedLocations)
      ensures bookmarks == old(bookmarks) && itinerary == old(itinerary)
      ensures aiItinerary == old(aiItinerary) && searchParams == old(searchParams)
    {
      if DistinctIds(savedLocations) {
        UpsertKeepsDistinct(savedLocations, location);
      }
      savedLocations := Upsert(savedLocations, location);
    }

    method RemoveLocation(id: string)
      modifies this
      ensures savedLocations == WithoutLocation(old(savedLocations), id)
      ensures !IsLocationSaved(id)
      ensures DistinctIds(old(savedLocations)) ==> DistinctIds(savedLocations)
      ensures bookmarks == old(bookmarks) && itinerary == old(itinerary)
      ensures aiItinerary == old(aiItinerary) && searchParams == old(searchParams)
    {
      if DistinctIds(savedLocations) {
        RemoveKeepsDistinct(savedLocations, id);
      }
      savedLocations := WithoutLocation(savedLocations, id);
    }

    method ClearItinerary()
      modifies this
      ensures itinerary == [] && aiItinerary == None
      ensures savedLocations == old(savedLocations) && bookmarks == old(bookmarks)
      ensures searchParams == old(searchParams)
    {
      itinerary := [];
      aiItinerary := None;
    }

    /** `addBookmark`: the id (a timestamp in the application) is supplied by the caller. */
    method AddBookmark(id: string, name: string)
      modifies this
      ensures bookmarks == old(bookmarks) + [Bookmark(id, name, [])]
      ensures savedLocations == old(savedLocations) && itinerary == old(itinerary)
      ensures aiItinerary == old(aiItinerary) && searchParams == old(searchParams)
    {
      bookmarks := bookmarks + [Bookmark(id, name, [])];
    }

    method RemoveBookmark(id: string)
      modifies this
      ensures bookmarks == WithoutBookmark(old(bookmarks), id)
      ensures savedLocations == old(savedLocations) && itinerary == old(itinerary)
      ensures aiItinerary == old(aiItinerary) && searchParams == old(searchParams)
    {
      bookmarks := WithoutBookmark(bookmarks, id);
    }

    method RenameBookmark(id: string, name: string)
      modifies this
      ensures bookmarks == Renamed(old(bookmarks), id, name)
      ensures savedLocations == old(savedLocations) && itinerary == old(itinerary)
      ensures aiItinerary == old(aiItinerary) && searchParams == old(searchParams)
    {
      bookmarks := Renamed(bookmarks, id, name);
    }

    method AddLocationToBookmark(bookmarkId: string, locationId: string)
      modifies this
      ensures bookmarks == WithLocationId(old(bookmarks), bookmarkId, locationId)
      ensures savedLocations == old(savedLocations) && itinerary == old(itinerary)
      ensures aiItinerary == old(aiItinerary) && searchParams == old(searchParams)
    {
      bookmarks := WithLocationId(bookmarks, bookmarkId, locationId);
    }

    method RemoveLocationFromBookmark(bookmarkId: string, locationId: string)
      modifies this
      ensures bookmarks == WithoutLocationId(old(bookmarks), bookmarkId, locationId)
      ensures savedLocations == old(savedLocations) && itinerary == old(itinerary)
      ensures aiItinerary == old(aiItinerary) && searchParams == old(searchParams)
    {
      bookmarks := WithoutLocationId(bookmarks, bookmarkId, locationId);
    }

    method ClearAllSavedLocations()
      modifies this
      ensures savedLocations == [] && bookmarks == []
      ensures itinerary == old(itinerary) && aiItinerary == old(aiItinerary)
      ensures searchParams == old(searchParams)
    {
      savedLocations := [];
      bookmarks := [];
    }
  }
}
