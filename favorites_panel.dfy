/**
 * The favourites side panel: bookmark folders that expand and collapse,
 * creation and renaming from text inputs, dragging a saved place onto a
 * folder, and the list of places no folder holds.
 */
module FavoritesPanel {
  import opened Wrappers
  import opened Seqs
  import opened Text
  import opened TripContext

  /** `toggleBookmark`: the folder's id leaves the expanded set if it was there, joins it otherwise. */
  function ToggleExpanded(expanded: set<string>, id: string): (r: set<string>)
    ensures id in r <==> id !in expanded
    ensures forall other :: other != id ==> (other in r <==> other in expanded)
  {
    if id in expanded then expanded - {id} else expanded + {id}
  }

  /** Toggling a folder twice restores the expanded set. */
  lemma ToggleExpandedTwice(expanded: set<string>, id: string)
    ensures ToggleExpanded(ToggleExpanded(expanded, id), id) == expanded
  {
  }

  predicate InSomeBookmark(bookmarks: seq<Bookmark>, locationId: string) {
    exists b :: b in bookmarks && locationId in b.locationIds
  }

  /** `unbookmarkedLocations`: the saved places no folder lists, in saved order. */
  function Unbookmarked(saved: seq<SavedLocation>, bookmarks: seq<Bookmark>): (r: seq<SavedLocation>)
    ensures forall l :: l in r <==> l in saved && !InSomeBookmark(bookmarks, l.id)
  {
    Filter(saved, (l: SavedLocation) => !InSomeBookmark(bookmarks, l.id))
  }

  /** The panel's two lists split the saved places: each is either in a folder or among the unbookmarked. */
  lemma UnbookmarkedPartition(saved: seq<SavedLocation>, bookmarks: seq<Bookmark>)
    ensures multiset(Unbookmarked(saved, bookmarks))
            + multiset(Filter(saved, (l: SavedLocation) => InSomeBookmark(bookmarks, l.id)))
            == multiset(saved)
  {
    FilterPartition(saved, (l: SavedLocation) => !InSomeBookmark(bookmarks, l.id),
                    (l: SavedLocation) => InSomeBookmark(bookmarks, l.id));
  }

  /** A folder's contents as listed: each id resolved to its saved place, ids with no saved place skipped. */
  function FolderContents(saved: seq<SavedLocation>, ids: seq<string>): (r: seq<SavedLocation>)
    ensures |r| <= |ids|
    ensures forall l :: l in r ==> l in saved && l.id in ids
    decreases |ids|
  {
    if ids == [] then []
    else
      var rest := FolderContents(saved, ids[1..]);
      match FindSaved(saved, ids[0])
      case None => rest
      case Some(l) => [l] + rest
  }

  /** What one listed id contributes: its first saved place, or nothing when no saved place has it. */
  function Resolved(saved: seq<SavedLocation>, id: string): seq<SavedLocation> {
    match FindSaved(saved, id)
    case None => []
    case Some(l) => [l]
  }

  /**
   * The folder's contents follow its ids in order: listing one more id adds
   * that id's first saved place, if any, at the end.
   */
  lemma {:induction false} FolderContentsAppend(saved: seq<SavedLocation>, ids: seq<string>, id: string)
    ensures FolderContents(saved, ids + [id]) == FolderContents(saved, ids) + Resolved(saved, id)
    decreases |ids|
  {
    if ids == [] {
      assert [] + [id] == [id];
    } else {
      FolderContentsAppend(saved, ids[1..], id);
      assert (ids + [id])[1..] == ids[1..] + [id];
    }
  }

  /** When every listed id is saved, the folder shows, position by position, the first saved place of each id. */
  lemma {:induction false} FolderContentsComplete(saved: seq<SavedLocation>, ids: seq<string>)
    requires forall id :: id in ids ==> HasLocation(saved, id)
    ensures |FolderContents(saved, ids)| == |ids|
    ensures forall k :: 0 <= k < |ids| ==> FindSaved(saved, ids[k]) == Some(FolderContents(saved, ids)[k])
    decreases |ids|
  {
    if ids != [] {
      assert forall id :: id in ids[1..] ==> id in ids;
      FolderContentsComplete(saved, ids[1..]);
      var r := FolderContents(saved, ids);
      assert r == [FindSaved(saved, ids[0]).value] + FolderContents(saved, ids[1..]);
      forall k | 0 <= k < |ids| ensures FindSaved(saved, ids[k]) == Some(r[k]) {
        if k > 0 {
          assert ids[k] == ids[1..][k - 1];
        }
      }
    }
  }

  /** `bookmarks.find(b => b.id === id)`: the first folder with the id. */
  function FindBookmark(bookmarks: seq<Bookmark>, id: string): (r: Option<Bookmark>)
    ensures r.Some? ==> exists k :: 0 <= k < |bookmarks| && bookmarks[k] == r.value && r.value.id == id
                          && forall j :: 0 <= j < k ==> bookmarks[j].id != id
    ensures r.None? ==> forall b :: b in bookmarks ==> b.id != id
    decreases |bookmarks|
  {
    if bookmarks == [] then None
    else if bookmarks[0].id == id then Some(bookmarks[0])
    else
      var r := FindBookmark(bookmarks[1..], id);
      if r.Some? then
        var k :| 0 <= k < |bookmarks[1..]| && bookmarks[1..][k] == r.value && r.value.id == id
                 && forall j :: 0 <= j < k ==> bookmarks[1..][j].id != id;
        assert bookmarks[k + 1] == r.value;
        assert forall j :: 0 <= j < k + 1 ==> bookmarks[j].id != id by {
          forall j | 0 <= j < k + 1 ensures bookmarks[j].id != id {
            if j > 0 { assert bookmarks[j] == bookmarks[1..][j - 1]; }
          }
        }
        r
      else r
  }

  /** Whether a drop adds the dragged place: the folder exists and does not list it yet. */
  predicate DropAdds(bookmarks: seq<Bookmark>, bookmarkId: string, locationId: string) {
    var found := FindBookmark(bookmarks, bookmarkId);
    found.Some? && locationId !in found.value.locationIds
  }

  /** After a successful drop the place is no longer among the unbookmarked ones. */
  lemma DropFilesLocation(saved: seq<SavedLocation>, bookmarks: seq<Bookmark>, bookmarkId: string, l: SavedLocation)
    requires DropAdds(bookmarks, bookmarkId, l.id)
    ensures l !in Unbookmarked(saved, WithLocationId(bookmarks, bookmarkId, l.id))
  {
    var after := WithLocationId(bookmarks, bookmarkId, l.id);
    var b := FindBookmark(bookmarks, bookmarkId).value;
    var i :| 0 <= i < |bookmarks| && bookmarks[i] == b;
    assert l.id in after[i].locationIds;
    assert after[i] in after;
  }

  class PanelState {
    var expandedBookmarks: set<string>
    var editingBookmarkId: Option<string>
    var editingName: string
    var newBookmarkName: string
    var draggedLocation: Option<SavedLocation>

    constructor ()
      ensures expandedBookmarks == {} && editingBookmarkId == None && editingName == ""
      ensures newBookmarkName == "" && draggedLocation == None
    {
      expandedBookmarks := {};
      editingBookmarkId := None;
      editingName := "";
      newBookmarkName := "";
      draggedLocation := None;
    }

    method ToggleBookmark(id: string)
      modifies this
      ensures expandedBookmarks == ToggleExpanded(old(expandedBookmarks), id)
      ensures editingBookmarkId == old(editingBookmarkId) && editingName == old(editingName)
      ensures newBookmarkName == old(newBookmarkName) && draggedLocation == old(draggedLocation)
    {
      expandedBookmarks := ToggleExpanded(expandedBookmarks, id);
    }

    /** `handleAddBookmark`: a folder named by the trimmed input, only when that is not empty. The id is supplied by the caller. */
    method AddBookmark(store: TripStore, newId: string)
      modifies this, store
      ensures IsBlank(old(newBookmarkName)) ==>
                store.bookmarks == old(store.bookmarks) && newBookmarkName == old(newBookmarkName)
      ensures !IsBlank(old(newBookmarkName)) ==>
                store.bookmarks == old(store.bookmarks) + [Bookmark(newId, Trim(old(newBookmarkName)), [])]
                && newBookmarkName == ""
      ensures store.savedLocations == old(store.savedLocations)
      ensures expandedBookmarks == old(expandedBookmarks) && editingBookmarkId == old(editingBookmarkId)
      ensures editingName == old(editingName) && draggedLocation == old(draggedLocation)
    {
      var name := Trim(newBookmarkName);
      if name != "" {
        store.AddBookmark(newId, name);
        newBookmarkName := "";
      }
    }

    /** `handleRenameBookmark`: renames to the trimmed input and leaves editing mode, only when that is not empty. */
    method RenameBookmark(store: TripStore, id: string)
      modifies this, store
      ensures IsBlank(old(editingName)) ==>
                store.bookmarks == old(store.bookmarks)
                && editingBookmarkId == old(editingBookmarkId) && editingName == old(editingName)
      ensures !IsBlank(old(editingName)) ==>
                store.bookmarks == Renamed(old(store.bookmarks), id, Trim(old(editingName)))
                && editingBookmarkId == None && editingName == ""
      ensures store.savedLocations == old(store.savedLocations)
      ensures expandedBookmarks == old(expandedBookmarks) && newBookmarkName == old(newBookmarkName)
      ensures draggedLocation == old(draggedLocation)
    {
      var name := Trim(editingName);
      if name != "" {
        store.RenameBookmark(id, name);
        editingBookmarkId := None;
        editingName := "";
      }
    }

    method DragStart(location: SavedLocation)
      modifies this
      ensures draggedLocation == Some(location)
      ensures expandedBookmarks == old(expandedBookmarks) && editingBookmarkId == old(editingBookmarkId)
      ensures editingName == old(editingName) && newBookmarkName == old(newBookmarkName)
    {
      draggedLocation := Some(location);
    }

    /** `handleDropOnBookmark`: files the dragged place when the folder exists and lacks it; any drop ends the drag. */
    method DropOnBookmark(store: TripStore, bookmarkId: string)
      modifies this, store
      ensures old(draggedLocation).None? ==> store.bookmarks == old(store.bookmarks) && draggedLocation == None
      ensures old(draggedLocation).Some? ==>
                draggedLocation == None
                && store.bookmarks == (if DropAdds(old(store.bookmarks), bookmarkId, old(draggedLocation).value.id)
                                       then WithLocationId(old(store.bookmarks), bookmarkId, old(draggedLocation).value.id)
                                       else old(store.bookmarks))
      ensures store.savedLocations == old(store.savedLocations)
      ensures expandedBookmarks == old(expandedBookmarks) && editingBookmarkId == old(editingBookmarkId)
      ensures editingName == old(editingName) && newBookmarkName == old(newBookmarkName)
    {
      if draggedLocation.Some? {
        var bookmark := FindBookmark(store.bookmarks, bookmarkId);
        if bookmark.Some? && draggedLocation.value.id !in bookmark.value.locationIds {
          store.AddLocationToBookmark(bookmarkId, draggedLocation.value.id);
        }
        draggedLocation := None;
      }
    }
  }
}
