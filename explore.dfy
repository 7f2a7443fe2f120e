/**
 * The explore page: category tags that toggle a search, the destination
 * search with its built-in fallback list, the list actually shown, and the
 * place record built from a destination that is opened or saved.
 */
module Explore {
  import opened Wrappers
  import opened Seqs
  import opened Text
  import opened TripContext

  datatype Destination = Destination(id: string, name: string, location: string, image: string, category: string)

  /** The built-in results shown when a search fails or answers with no list. */
  const Destinations: seq<Destination> := [
    Destination("1", "Chureito Pagoda", "Fujiyoshida, Japan", "https://images.unsplash.com/photo-1493976040374-85c8e12f0c0e?w=800&auto=format&fit=crop", "Landmarks"),
    Destination("2", "Japan Travel Guide", "Japan", "https://images.unsplash.com/photo-1528164344705-47542687000d?w=800&auto=format&fit=crop", "Travel"),
    Destination("3", "Kyoto Cafe", "Kyoto, Japan", "https://images.unsplash.com/photo-1514933651103-005eec06c04b?w=800&auto=format&fit=crop", "Caf\U{00E9}s"),
    Destination("4", "Sensoji Temple", "Tokyo, Japan", "https://images.unsplash.com/photo-1478436127897-769e1b3f0f36?w=800&auto=format&fit=crop", "Landmarks"),
    Destination("5", "Shibuya Crossing", "Tokyo, Japan", "https://images.unsplash.com/photo-1542051841857-5f90071e7989?w=800&auto=format&fit=crop", "Street"),
    Destination("6", "Mount Fuji Street", "Japan", "https://images.unsplash.com/photo-1590559899731-a382839e5549?w=800&auto=format&fit=crop", "Nature"),
    Destination("7", "Traditional Izakaya", "Tokyo, Japan", "https://images.unsplash.com/photo-1555396273-367ea4eb4db5?w=800&auto=format&fit=crop", "Restaurants"),
    Destination("8", "Cherry Blossoms", "Japan", "https://images.unsplash.com/photo-1522383225653-ed111181a951?w=800&auto=format&fit=crop", "Nature"),
    Destination("9", "Tokyo Tower", "Tokyo, Japan", "https://images.unsplash.com/photo-1536098561742-ca998e48cbcc?w=800&auto=format&fit=crop", "Landmarks"),
    Destination("10", "Lost in Japan", "Japan", "https://images.unsplash.com/photo-1528164344705-47542687000d?w=800&auto=format&fit=crop", "Travel"),
    Destination("11", "Traditional Streets", "Kyoto, Japan", "https://images.unsplash.com/photo-1480796927426-f609979314bd?w=800&auto=format&fit=crop", "Street"),
    Destination("12", "Cherry Blossom Alley", "Tokyo, Japan", "https://images.unsplash.com/photo-1554797589-7241bb691973?w=800&auto=format&fit=crop", "Nature"),
    Destination("13", "Neon Streets", "Tokyo, Japan", "https://images.unsplash.com/photo-1542051841857-5f90071e7989?w=800&auto=format&fit=crop", "Nightlife")]

  /** The list shown before any search has produced results: the first six built-in destinations. */
  const DefaultDestinations: seq<Destination> := Destinations[..6]

  /** What the destination search gave back: an error, an answer without a list, or a list. */
  datatype SearchReply = SearchFailed | NoList | Found(destinations: seq<Destination>)

  /** The results a search leaves behind: the answer's list, or the built-in list when there is none. */
  function ResultsOf(reply: SearchReply): (r: seq<Destination>)
    ensures reply.Found? ==> r == reply.destinations
    ensures !reply.Found? ==> r == Destinations
  {
    match reply
    case Found(ds) => ds
    case _ => Destinations
  }

  /** The shown list: the results in the selected category, else the results, else the default list. */
  function Displayed(selectedCategory: string, results: seq<Destination>): (r: seq<Destination>)
    ensures selectedCategory != "" ==> forall d :: d in r <==> d in results && d.category == selectedCategory
    ensures selectedCategory == "" && results != [] ==> r == results
    ensures selectedCategory == "" && results == [] ==> r == DefaultDestinations
  {
    if selectedCategory != "" then Filter(results, (d: Destination) => d.category == selectedCategory)
    else if |results| > 0 then results
    else DefaultDestinations
  }

  /** Without a category the page is never empty; with one, only results of that category show. */
  lemma DisplayedNeverEmptyWithoutCategory(results: seq<Destination>)
    ensures |Displayed("", results)| > 0
  {
  }

  /** A destination as a place record; `lat`/`lng` are the coordinates decided by the caller. */
  function ToSavedLocation(d: Destination, lat: real, lng: real): (r: SavedLocation)
    ensures r.id == d.id && r.name == d.name && r.description == d.location && r.tags == [d.category]
    ensures r.lat == Some(lat) && r.lng == Some(lng) && HasCoordinates(r)
    ensures r.kind == if d.category != "" then d.category else "landmark"
  {
    SavedLocation(d.id, d.name, d.image, d.location, [d.category], Some(lat), Some(lng),
                  if d.category != "" then d.category else "landmark", None, None, None)
  }

  /** JavaScript truthiness of a coordinate: present and not zero. */
  predicate Truthy(x: Option<real>) {
    x.Some? && x.value != 0.0
  }

  /** `x || 0`. */
  function OrZero(x: Option<real>): (r: real)
    ensures Truthy(x) ==> r == x.value
    ensures !Truthy(x) ==> r == 0.0
  {
    if Truthy(x) then x.value else 0.0
  }

  /**
   * The coordinates of a destination that is opened: its own when both are
   * truthy, else the geocoder's answer (a parameter, `None` when it found
   * nothing or failed), else whatever it had; anything still missing is 0.
   */
  function OpenedCoordinates(lat: Option<real>, lon: Option<real>, geocoded: Option<(real, real)>): (r: (real, real))
    ensures Truthy(lat) && Truthy(lon) ==> r == (lat.value, lon.value)
    ensures !(Truthy(lat) && Truthy(lon)) && geocoded.Some? ==> r == (OrZero(Some(geocoded.value.1)), OrZero(Some(geocoded.value.0)))
    ensures !(Truthy(lat) && Truthy(lon)) && geocoded.None? ==> r == (OrZero(lat), OrZero(lon))
  {
    if Truthy(lat) && Truthy(lon) then (lat.value, lon.value)
    else match geocoded
      case Some(coords) => (OrZero(Some(coords.1)), OrZero(Some(coords.0)))
      case None => (OrZero(lat), OrZero(lon))
  }

  /** A destination with no coordinates whose lookup fails opens at (0, 0); one with both keeps them. */
  lemma OpenedDefaults(lat: real, lon: real)
    requires lat != 0.0 && lon != 0.0
    ensures OpenedCoordinates(None, None, None) == (0.0, 0.0)
    ensures OpenedCoordinates(Some(lat), Some(lon), None) == (lat, lon)
    ensures OpenedCoordinates(Some(lat), None, None) == (lat, 0.0)
  {
  }

  /** Saving needs coordinates: a destination without both, whose lookup fails, is not saved. */
  function SaveRecord(d: Destination, lat: Option<real>, lon: Option<real>, geocoded: Option<(real, real)>): (r: Option<SavedLocation>)
    ensures r.None? <==> !(Truthy(lat) && Truthy(lon)) && geocoded.None?
    ensures r.Some? ==> r.value.id == d.id && HasCoordinates(r.value)
    ensures Truthy(lat) && Truthy(lon) ==> r == Some(ToSavedLocation(d, lat.value, lon.value))
  {
    if Truthy(lat) && Truthy(lon) then Some(ToSavedLocation(d, lat.value, lon.value))
    else match geocoded
      case Some(coords) => Some(ToSavedLocation(d, coords.1, coords.0))
      case None => None
  }

  class ExplorePage {
    var selectedCategory: string
    var searchResults: seq<Destination>
    var isSearching: bool

    constructor ()
      ensures selectedCategory == "" && searchResults == [] && !isSearching
      ensures Shown() == DefaultDestinations
    {
      selectedCategory := "";
      searchResults := [];
      isSearching := false;
    }

    function Shown(): (r: seq<Destination>)
      reads this
      ensures forall d :: d in r ==> d in searchResults || d in DefaultDestinations
      ensures selectedCategory != "" ==> forall d :: d in r ==> d.category == selectedCategory
    {
      Displayed(selectedCategory, searchResults)
    }

    /** A blank query does nothing; any other replaces the results with the reply's list or the built-in one. */
    method PerformSearch(query: string, reply: SearchReply)
      modifies this
      ensures Trim(query) == "" ==> searchResults == old(searchResults) && isSearching == old(isSearching)
      ensures Trim(query) != "" ==> searchResults == ResultsOf(reply) && !isSearching
      ensures selectedCategory == old(selectedCategory)
    {
      if Trim(query) != "" {
        Search(reply);
      }
    }

    /** The search itself: the loading flag is raised while it runs, and the results are replaced. */
    method Search(reply: SearchReply)
      modifies this
      ensures searchResults == ResultsOf(reply)
      ensures selectedCategory == old(selectedCategory) && !isSearching
    {
      isSearching := true;
      searchResults := ResultsOf(reply);
      isSearching := false;
    }

    /** The selected tag clicked again clears the category and does not search; another tag is selected and searched. */
    method TagClick(tag: string, reply: SearchReply)
      modifies this
      ensures tag == old(selectedCategory) ==> selectedCategory == "" && searchResults == old(searchResults)
      ensures tag != old(selectedCategory) ==> selectedCategory == tag
      ensures tag != old(selectedCategory) && Trim(tag) != "" ==> searchResults == ResultsOf(reply)
      ensures tag != old(selectedCategory) && Trim(tag) == "" ==> searchResults == old(searchResults)
      ensures tag != old(selectedCategory) && Trim(tag) != "" ==> !isSearching
      ensures tag == old(selectedCategory) || Trim(tag) == "" ==> isSearching == old(isSearching)
    {
      var previous := selectedCategory;
      selectedCategory := if tag == previous then "" else tag;
      if tag != previous {
        PerformSearch(tag, reply);
      }
    }
  }

  /** Clicking the same tag twice leaves no category selected, whatever was selected before. */
  method TagClickTwice(page: ExplorePage, tag: string, reply: SearchReply)
    requires tag != page.selectedCategory
    modifies page
    ensures page.selectedCategory == ""
    ensures page.Shown() == Displayed("", page.searchResults)
  {
    page.TagClick(tag, reply);
    page.TagClick(tag, reply);
  }
}
