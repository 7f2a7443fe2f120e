/**
 * The trip builder page: the ids of the places picked for a new trip, each
 * click adding or removing one, and the active category filter.
 */
module CreateTrip {
  import opened Seqs
  import opened Text

  /** `toggleLocation`: a picked id is dropped, every occurrence of it; any other is added at the end. */
  function ToggleId(ids: seq<string>, id: string): (r: seq<string>)
    ensures id in r <==> id !in ids
    ensures id in ids ==> forall x :: x in r <==> x in ids && x != id
    ensures id !in ids ==> r == ids + [id]
  {
    if id in ids then Filter(ids, (x: string) => x != id) else ids + [id]
  }

  /** Picking an id and picking it again leaves the list as it was. */
  lemma {:induction false} ToggleIdTwice(ids: seq<string>, id: string)
    requires id !in ids
    ensures ToggleId(ToggleId(ids, id), id) == ids
  {
    var p := (x: string) => x != id;
    FilterAppend(ids, [id], p);
    FilterKeepsAll(ids, p);
    assert Filter([id], p) == [];
  }

  /** A click never introduces a repeated id. */
  lemma ToggleIdKeepsNoDuplicates(ids: seq<string>, id: string)
    requires NoDuplicates(ids)
    ensures NoDuplicates(ToggleId(ids, id))
  {
    if id in ids {
      FilterNoDuplicates(ids, (x: string) => x != id);
    }
  }

  /** The picked ids after a series of clicks. */
  function AfterClicks(ids: seq<string>, clicks: seq<string>): seq<string>
    decreases |clicks|
  {
    if clicks == [] then ids else AfterClicks(ToggleId(ids, clicks[0]), clicks[1..])
  }

  /** Starting from nothing picked, no series of clicks picks an id twice. */
  lemma {:induction false} ClicksKeepNoDuplicates(ids: seq<string>, clicks: seq<string>)
    requires NoDuplicates(ids)
    ensures NoDuplicates(AfterClicks(ids, clicks))
    decreases |clicks|
  {
    if clicks != [] {
      ToggleIdKeepsNoDuplicates(ids, clicks[0]);
      ClicksKeepNoDuplicates(ToggleId(ids, clicks[0]), clicks[1..]);
    }
  }

  /** The filter badges, as labelled. */
  const Filters: seq<string> := ["All", "Popular", "Seasonal", "Hidden Gems", "Food", "Nature"]

  class TripBuilder {
    var activeFilter: string
    var selectedLocations: seq<string>

    /** Nothing picked and the `all` filter active. */
    constructor ()
      ensures activeFilter == "all" && selectedLocations == []
      ensures NoDuplicates(selectedLocations)
    {
      activeFilter := "all";
      selectedLocations := [];
    }

    method ToggleLocation(id: string)
      modifies this
      ensures selectedLocations == ToggleId(old(selectedLocations), id)
      ensures NoDuplicates(old(selectedLocations)) ==> NoDuplicates(selectedLocations)
      ensures activeFilter == old(activeFilter)
    {
      if NoDuplicates(selectedLocations) {
        ToggleIdKeepsNoDuplicates(selectedLocations, id);
      }
      selectedLocations := ToggleId(selectedLocations, id);
    }

    /** Clicking a badge makes its lowercased label the active filter. */
    method SelectFilter(filter: string)
      modifies this
      ensures activeFilter == ToLower(filter)
      ensures selectedLocations == old(selectedLocations)
    {
      activeFilter := ToLower(filter);
    }
  }

  /** The `All` badge brings back the initial filter. */
  lemma AllBadgeIsInitialFilter()
    ensures ToLower(Filters[0]) == "all"
  {
    assert LowerChar('A') == 'a' && LowerChar('l') == 'l';
  }
}
