/**
 * The state behind the two route-planning maps: the stops the traveller has
 * picked from the landmark clusters, the travel mode and the optimised route
 * derived from them, and, on the discovery map, the clusters revealed by
 * dropping a category icon and the search box. Map rendering is not modelled;
 * the distance from the drop point to a cluster is supplied by the caller.
 */
module TripMap {
  import opened Wrappers
  import opened Seqs
  import opened Text
  import opened RouteSequencer
  import TripContext

  /** A landmark cluster shown on the map. */
  datatype Cluster = Cluster(id: string, name: string, lat: real, lng: real, kind: string, tag: string,
                             visitDuration: Option<int>)

  /** The map location built from a clicked cluster; presentation fields are not modelled. */
  function ClusterStop(c: Cluster): (s: Stop)
    ensures s.id == c.id && s.name == c.name && s.lat == c.lat && s.lng == c.lng
    ensures s.kind == c.kind && s.visitDuration == c.visitDuration
  {
    Stop(c.id, c.name, c.lat, c.lng, c.kind, c.visitDuration)
  }

  predicate HasStop(selected: seq<Stop>, id: string) {
    exists s :: s in selected && s.id == id
  }

  /**
   * The selection after clicking `s`: if selected, every entry with its id is
   * removed and the others keep their order; else it is appended.
   */
  function ToggleStop(selected: seq<Stop>, s: Stop): (r: seq<Stop>)
    ensures HasStop(r, s.id) <==> !HasStop(selected, s.id)
    ensures HasStop(selected, s.id) ==> forall x :: x in r <==> x in selected && x.id != s.id
    ensures HasStop(selected, s.id) ==> r == Filter(selected, (x: Stop) => x.id != s.id)
    ensures !HasStop(selected, s.id) ==> r == selected + [s]
  {
    if HasStop(selected, s.id) then Filter(selected, (x: Stop) => x.id != s.id) else selected + [s]
  }

  /** Deselecting keeps the order of the remaining stops: removal distributes over any split of the selection. */
  lemma ToggleKeepsOrder(a: seq<Stop>, b: seq<Stop>, s: Stop)
    requires HasStop(a + b, s.id)
    ensures ToggleStop(a + b, s) == Filter(a, (x: Stop) => x.id != s.id) + Filter(b, (x: Stop) => x.id != s.id)
  {
    FilterAppend(a, b, (x: Stop) => x.id != s.id);
  }

  /** Deselecting any stop other than the first keeps the route's starting point. */
  lemma {:induction false} ToggleKeepsStart(selected: seq<Stop>, s: Stop)
    requires HasStop(selected, s.id) && selected[0].id != s.id
    ensures ToggleStop(selected, s) != [] && ToggleStop(selected, s)[0] == selected[0]
  {
    var p := (x: Stop) => x.id != s.id;
    assert selected == [selected[0]] + selected[1..];
    FilterAppend([selected[0]], selected[1..], p);
    assert Filter([selected[0]], p) == [selected[0]];
  }

  /** Clicking an unselected cluster twice leaves the selection as it was. */
  lemma {:induction false} ToggleTwice(selected: seq<Stop>, s: Stop)
    requires !HasStop(selected, s.id)
    ensures ToggleStop(ToggleStop(selected, s), s) == selected
  {
    var p := (x: Stop) => x.id != s.id;
    assert s in selected + [s];
    FilterAppend(selected, [s], p);
    FilterKeepsAll(selected, p);
    assert Filter([s], p) == [];
  }

  function Ids(clusters: seq<Cluster>): (r: seq<string>)
    ensures |r| == |clusters|
    ensures forall i :: 0 <= i < |r| ==> r[i] == clusters[i].id
  {
    seq(|clusters|, i requires 0 <= i < |clusters| => clusters[i].id)
  }

  /** The clusters a drop reveals: within 8000 metres of the drop point and of the dragged icon's category. */
  function NearbyClusters(clusters: seq<Cluster>, iconId: string, distanceFromDrop: Cluster -> real): (r: seq<Cluster>)
    ensures forall c :: c in r <==> c in clusters && distanceFromDrop(c) < 8000.0 && c.kind == iconId
  {
    Filter(clusters, (c: Cluster) => distanceFromDrop(c) < 8000.0 && c.kind == iconId)
  }

  /** `visibleClusters` after a drop: unchanged when nothing is near, else the union without repeats. */
  function Revealed(visible: seq<string>, nearby: seq<Cluster>): (r: seq<string>)
    ensures nearby == [] ==> r == visible
    ensures nearby != [] ==> NoDuplicates(r)
    ensures forall id :: id in visible ==> id in r
    ensures forall c :: c in nearby ==> c.id in r
    ensures forall id :: id in r ==> id in visible || exists c :: c in nearby && c.id == id
  {
    if nearby == [] then visible
    else
      var ids := Ids(nearby);
      assert forall c :: c in nearby ==> c.id in ids by {
        forall c | c in nearby ensures c.id in ids {
          var i :| 0 <= i < |nearby| && nearby[i] == c;
          assert ids[i] == c.id;
        }
      }
      assert forall id :: id in ids ==> exists c :: c in nearby && c.id == id by {
        forall id | id in ids ensures exists c :: c in nearby && c.id == id {
          var i :| 0 <= i < |ids| && ids[i] == id;
          assert nearby[i] in nearby;
        }
      }
      Dedupe(visible + ids)
  }

  /** Previously visible clusters keep their places at the front of the list. */
  lemma RevealedKeepsOrder(visible: seq<string>, nearby: seq<Cluster>)
    requires NoDuplicates(visible)
    ensures |visible| <= |Revealed(visible, nearby)| && Revealed(visible, nearby)[..|visible|] == visible
  {
    if nearby != [] {
      DedupeExtends(visible, Ids(nearby));
      DedupeNoDuplicates(visible);
    }
  }

  /** `validLocations`: the saved places with both coordinates present and non-zero. */
  function ValidLocations(saved: seq<TripContext.SavedLocation>): (r: seq<TripContext.SavedLocation>)
    ensures forall l :: l in r <==> l in saved && l.lat.Some? && l.lng.Some? && l.lat.value != 0.0 && l.lng.value != 0.0
  {
    Filter(saved, (l: TripContext.SavedLocation) => l.lat.Some? && l.lng.Some? && l.lat.value != 0.0 && l.lng.value != 0.0)
  }

  /**
   * The planning state of the map components. The route-planning map uses the
   * first three fields; the discovery map adds the drag-and-drop and search state.
   */
  class TripMapState {
    var selectedLocations: seq<Stop>
    var travelMode: TravelMode
    var optimizedRoute: seq<RouteStep>
    var visibleClusters: seq<string>
    var draggedIcon: Option<string>
    var searchQuery: string
    var showDiscoveryPrompt: bool

    constructor ()
      ensures selectedLocations == [] && travelMode == Driving && optimizedRoute == []
      ensures visibleClusters == [] && draggedIcon == None && searchQuery == "" && showDiscoveryPrompt
    {
      selectedLocations := [];
      travelMode := Driving;
      optimizedRoute := [];
      visibleClusters := [];
      draggedIcon := None;
      searchQuery := "";
      showDiscoveryPrompt := true;
    }

    /** The effect that reruns on a change of selection or mode: sequence two or more stops, otherwise clear the route. */
    method RefreshRoute(dist: Distance)
      modifies this
      ensures optimizedRoute == OptimizedRoute(selectedLocations, travelMode, dist)
      ensures selectedLocations == old(selectedLocations) && travelMode == old(travelMode)
      ensures visibleClusters == old(visibleClusters) && draggedIcon == old(draggedIcon)
      ensures searchQuery == old(searchQuery) && showDiscoveryPrompt == old(showDiscoveryPrompt)
    {
      if |selectedLocations| >= 2 {
        optimizedRoute := OptimizeRoute(selectedLocations, travelMode, dist);
      } else {
        optimizedRoute := [];
      }
    }

    /** `handleClusterClick`, followed by the effect it triggers. */
    method ClusterClick(c: Cluster, dist: Distance)
      modifies this
      ensures selectedLocations == ToggleStop(old(selectedLocations), ClusterStop(c))
      ensures optimizedRoute == OptimizedRoute(selectedLocations, travelMode, dist)
      ensures travelMode == old(travelMode) && visibleClusters == old(visibleClusters)
      ensures draggedIcon == old(draggedIcon)
      ensures searchQuery == old(searchQuery) && showDiscoveryPrompt == old(showDiscoveryPrompt)
    {
      selectedLocations := ToggleStop(selectedLocations, ClusterStop(c));
      RefreshRoute(dist);
    }

    /** Switching between driving and walking, followed by the effect it triggers. */
    method SetTravelMode(mode: TravelMode, dist: Distance)
      modifies this
      ensures travelMode == mode && selectedLocations == old(selectedLocations)
      ensures optimizedRoute == OptimizedRoute(selectedLocations, mode, dist)
      ensures visibleClusters == old(visibleClusters) && draggedIcon == old(draggedIcon)
      ensures searchQuery == old(searchQuery) && showDiscoveryPrompt == old(showDiscoveryPrompt)
    {
      travelMode := mode;
      RefreshRoute(dist);
    }

    /** `getTotalDuration`: travel minutes of the stored route plus visit minutes of the selected stops. */
    function TotalMinutes(): (r: int)
      reads this
      ensures r == TravelTime(optimizedRoute) + VisitTime(selectedLocations)
    {
      TotalDuration(optimizedRoute, selectedLocations)
    }

    method DragStart(iconId: string)
      modifies this
      ensures draggedIcon == Some(iconId)
      ensures selectedLocations == old(selectedLocations) && travelMode == old(travelMode)
      ensures optimizedRoute == old(optimizedRoute) && visibleClusters == old(visibleClusters)
      ensures searchQuery == old(searchQuery) && showDiscoveryPrompt == old(showDiscoveryPrompt)
    {
      draggedIcon := Some(iconId);
    }

    /**
     * `handleDrop`. Without a dragged icon or before the map is ready nothing
     * changes; otherwise the nearby clusters of the icon's category become
     * visible and the drag ends.
     */
    method Drop(mapReady: bool, clusters: seq<Cluster>, distanceFromDrop: Cluster -> real)
      modifies this
      ensures old(draggedIcon).None? || !mapReady ==>
                visibleClusters == old(visibleClusters) && draggedIcon == old(draggedIcon)
      ensures old(draggedIcon).Some? && mapReady ==>
                && visibleClusters == Revealed(old(visibleClusters), NearbyClusters(clusters, old(draggedIcon).value, distanceFromDrop))
                && draggedIcon == None
      ensures selectedLocations == old(selectedLocations) && travelMode == old(travelMode)
      ensures optimizedRoute == old(optimizedRoute)
      ensures searchQuery == old(searchQuery) && showDiscoveryPrompt == old(showDiscoveryPrompt)
    {
      if draggedIcon.None? || !mapReady {
        return;
      }
      var nearby := NearbyClusters(clusters, draggedIcon.value, distanceFromDrop);
      if |nearby| > 0 {
        visibleClusters := Revealed(visibleClusters, nearby);
      }
      draggedIcon := None;
    }

    /** `handleSearchChange`: the discovery prompt shows exactly while the query is blank. */
    method SearchChange(value: string)
      modifies this
      ensures searchQuery == value
      ensures showDiscoveryPrompt <==> AllSpace(value)
      ensures selectedLocations == old(selectedLocations) && travelMode == old(travelMode)
      ensures optimizedRoute == old(optimizedRoute) && visibleClusters == old(visibleClusters)
      ensures draggedIcon == old(draggedIcon)
    {
      searchQuery := value;
      TrimEmptyIffBlank(value);
      showDiscoveryPrompt := Trim(value) == "";
    }

    /** `handleTagClick`: the tag becomes the query and the prompt hides. */
    method TagClick(tag: string)
      modifies this
      ensures searchQuery == tag && !showDiscoveryPrompt
      ensures selectedLocations == old(selectedLocations) && travelMode == old(travelMode)
      ensures optimizedRoute == old(optimizedRoute) && visibleClusters == old(visibleClusters)
      ensures draggedIcon == old(draggedIcon)
    {
      searchQuery := tag;
      showDiscoveryPrompt := false;
    }
  }
}
