/**
 * The favourites page: the saved places shown twelve to a page, with
 * previous/next navigation, removal that steps back from a page it empties,
 * and the guard in front of itinerary generation.
 */
module SavedPage {
  import TripContext

  const ItemsPerPage := 12

  /** `Math.ceil(n / 12)`. */
  function TotalPages(n: nat): (r: nat)
    ensures r * ItemsPerPage >= n
    ensures r > 0 ==> (r - 1) * ItemsPerPage < n
    ensures r == 0 <==> n == 0
  {
    (n + ItemsPerPage - 1) / ItemsPerPage
  }

  /** `slice(start, end)` for non-negative bounds: out-of-range bounds are clamped to the length. */
  function Slice<T>(s: seq<T>, start: nat, end: nat): (r: seq<T>)
    ensures |r| <= |s| && (start <= end ==> |r| <= end - start)
  {
    var hi := if end <= |s| then end else |s|;
    var lo := if start <= hi then start else hi;
    s[lo..hi]
  }

  /** The items shown on `page` (counted from 1): positions `(page - 1) * 12` up to `page * 12`. */
  function PageItems<T>(s: seq<T>, page: int): (r: seq<T>)
    requires page >= 1
    ensures |r| <= ItemsPerPage
    ensures (page - 1) * ItemsPerPage <= |s| ==>
              r == s[(page - 1) * ItemsPerPage..if page * ItemsPerPage <= |s| then page * ItemsPerPage else |s|]
    ensures (page - 1) * ItemsPerPage >= |s| ==> r == []
  {
    Slice(s, (page - 1) * ItemsPerPage, (page - 1) * ItemsPerPage + ItemsPerPage)
  }

  /** Pages 1 to `k`, one after the other. */
  function FirstPages<T>(s: seq<T>, k: nat): seq<T> {
    if k == 0 then [] else FirstPages(s, k - 1) + PageItems(s, k)
  }

  /** The first `k` pages are the first `12 k` items. */
  lemma {:induction false} FirstPagesPrefix<T>(s: seq<T>, k: nat)
    ensures FirstPages(s, k) == s[..if k * ItemsPerPage <= |s| then k * ItemsPerPage else |s|]
  {
    if k > 0 {
      FirstPagesPrefix(s, k - 1);
      var lo := if (k - 1) * ItemsPerPage <= |s| then (k - 1) * ItemsPerPage else |s|;
      var hi := if k * ItemsPerPage <= |s| then k * ItemsPerPage else |s|;
      assert s[..lo] + s[lo..hi] == s[..hi];
    }
  }

  /** Read page by page, the pages show every saved item once, in order. */
  lemma PagesCoverList<T>(s: seq<T>)
    ensures FirstPages(s, TotalPages(|s|)) == s
  {
    FirstPagesPrefix(s, TotalPages(|s|));
  }

  /** The pages the navigation can show: the first page always, later ones while they hold items. */
  predicate PageInRange(page: int, n: nat) {
    1 <= page && (page == 1 || page <= TotalPages(n))
  }

  /** `handlePrevPage`. */
  function PageBefore(page: int): (r: int)
    ensures page > 1 ==> r == page - 1
    ensures page <= 1 ==> r == page
  {
    if page > 1 then page - 1 else page
  }

  /** `handleNextPage`. */
  function PageAfter(page: int, n: nat): (r: int)
    ensures page < TotalPages(n) ==> r == page + 1
    ensures page >= TotalPages(n) ==> r == page
  {
    if page < TotalPages(n) then page + 1 else page
  }

  /** The page after a removal, from the number of items the page showed before it. */
  function PageAfterRemoval(page: int, shownBefore: nat): (r: int)
    ensures shownBefore == 1 && page > 1 ==> r == page - 1
    ensures !(shownBefore == 1 && page > 1) ==> r == page
  {
    if shownBefore == 1 && page > 1 then page - 1 else page
  }

  /** Navigation keeps the page among those that exist. */
  lemma NavigationStaysInRange(page: int, n: nat)
    requires PageInRange(page, n)
    ensures PageInRange(PageBefore(page), n) && PageInRange(PageAfter(page, n), n)
  {
  }

  /** Removing one item shown on the current page never leaves the page past the last one. */
  lemma RemovalStaysInRange<T>(s: seq<T>, page: int)
    requires PageInRange(page, |s|) && |PageItems(s, page)| >= 1
    ensures PageInRange(PageAfterRemoval(page, |PageItems(s, page)|), |s| - 1)
  {
    var shown := |PageItems(s, page)|;
    if shown == 1 && page > 1 {
      assert |s| == (page - 1) * ItemsPerPage + 1;
      assert TotalPages(|s| - 1) == page - 1;
    } else if page > 1 {
      assert |s| >= (page - 1) * ItemsPerPage + 2;
      assert (|s| - 1 + ItemsPerPage - 1) / ItemsPerPage >= page;
    }
  }

  datatype GenerateOutcome = NothingSaved | OpenMap

  /** `handleGenerateItinerary`: an error without saved places, the map otherwise. */
  function GenerateItinerary(saved: seq<TripContext.SavedLocation>): (r: GenerateOutcome)
    ensures r == NothingSaved <==> |saved| == 0
  {
    if |saved| == 0 then NothingSaved else OpenMap
  }

  class SavedView {
    var currentPage: int

    constructor ()
      ensures currentPage == 1
    {
      currentPage := 1;
    }

    method PrevPage()
      modifies this
      ensures currentPage == PageBefore(old(currentPage))
    {
      if currentPage > 1 {
        currentPage := currentPage - 1;
      }
    }

    method NextPage(saved: seq<TripContext.SavedLocation>)
      modifies this
      ensures currentPage == PageAfter(old(currentPage), |saved|)
    {
      if currentPage < TotalPages(|saved|) {
        currentPage := currentPage + 1;
      }
    }

    /** `handleRemoveLocation`: the store drops the place; the page steps back if this emptied it. */
    method RemoveLocation(store: TripContext.TripStore, id: string)
      requires currentPage >= 1
      modifies this, store
      ensures store.savedLocations == TripContext.WithoutLocation(old(store.savedLocations), id)
      ensures store.bookmarks == old(store.bookmarks)
      ensures currentPage == PageAfterRemoval(old(currentPage), |PageItems(old(store.savedLocations), old(currentPage))|)
    {
      var shown := PageItems(store.savedLocations, currentPage);
      store.RemoveLocation(id);
      if |shown| == 1 && currentPage > 1 {
        currentPage := currentPage - 1;
      }
    }
  }
}
