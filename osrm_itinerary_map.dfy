/**
 * The single-day road map: the day's places as numbered points, the guard
 * before a road route is requested, and the lookup of the highlighted place
 * by name.
 */
module OSRMItineraryMap {
  import opened Wrappers
  import opened Seqs
  import opened TripContext

  /** A point on the day's map: coordinates under the routing service's names. */
  datatype MapPoint = MapPoint(lat: real, lon: real, name: string, image: string)

  function ToPoint(l: SavedLocation): MapPoint
    requires HasCoordinates(l)
  {
    MapPoint(l.lat.value, l.lng.value, l.name, l.image)
  }

  /** `.map(...)` over places that all have coordinates: one point per place, in order. */
  function Points(ls: seq<SavedLocation>): (r: seq<MapPoint>)
    requires forall l :: l in ls ==> HasCoordinates(l)
    ensures |r| == |ls|
    ensures forall i :: 0 <= i < |r| ==>
      Some(r[i].lat) == ls[i].lat && Some(r[i].lon) == ls[i].lng && r[i].name == ls[i].name && r[i].image == ls[i].image
  {
    if ls == [] then [] else [ToPoint(ls[0])] + Points(ls[1..])
  }

  /** The day's points: the slots' places in slot order, those without coordinates dropped. */
  function DayPoints(day: DayItinerary): (r: seq<MapPoint>)
    ensures |r| <= 3
    ensures |r| == |Filter(SlotLocations(day), HasCoordinates)|
    ensures forall i :: 0 <= i < |r| ==>
      var l := Filter(SlotLocations(day), HasCoordinates)[i];
      && l in SlotLocations(day)
      && Some(r[i].lat) == l.lat && Some(r[i].lon) == l.lng && r[i].name == l.name
  {
    var ls := Filter(SlotLocations(day), HasCoordinates);
    assert forall i :: 0 <= i < |ls| ==> ls[i] in SlotLocations(day) by {
      forall i | 0 <= i < |ls| ensures ls[i] in SlotLocations(day) {
        assert ls[i] in ls;
      }
    }
    Points(ls)
  }

  /** A day whose three slots all hold places with coordinates shows them as points 1, 2 and 3, morning first. */
  lemma FullDayPoints(day: DayItinerary, m: SavedLocation, a: SavedLocation, e: SavedLocation)
    requires day.morning.Some? && day.morning.value.location == Some(m) && HasCoordinates(m)
    requires day.afternoon.Some? && day.afternoon.value.location == Some(a) && HasCoordinates(a)
    requires day.evening.Some? && day.evening.value.location == Some(e) && HasCoordinates(e)
    ensures DayPoints(day) == [ToPoint(m), ToPoint(a), ToPoint(e)]
  {
    var ls := SlotLocations(day);
    assert ls == [m, a, e];
    FilterKeepsAll(ls, HasCoordinates);
    ThreePoints(m, a, e);
  }

  lemma ThreePoints(m: SavedLocation, a: SavedLocation, e: SavedLocation)
    requires HasCoordinates(m) && HasCoordinates(a) && HasCoordinates(e)
    ensures Points([m, a, e]) == [ToPoint(m), ToPoint(a), ToPoint(e)]
  {
    assert [m, a, e][1..] == [a, e] && [a, e][1..] == [e];
    assert Points([e]) == [ToPoint(e)];
  }

  /** Marker i carries the label i + 1. */
  function Labels(points: seq<MapPoint>): (r: seq<nat>)
    ensures |r| == |points|
    ensures forall i :: 0 <= i < |r| ==> r[i] == i + 1
  {
    seq(|points|, i requires 0 <= i < |points| => i + 1)
  }

  /** The labels count up from 1 without a gap, ending at the number of points. */
  lemma LabelsCountUp(points: seq<MapPoint>)
    requires |points| > 0
    ensures Labels(points)[0] == 1 && Labels(points)[|points| - 1] == |points|
    ensures forall i :: 0 < i < |points| ==> Labels(points)[i] == Labels(points)[i - 1] + 1
  {
  }

  /** A road route is requested only for at least two points, that is, once there is a marker numbered 2. */
  predicate RequestsRoute(points: seq<MapPoint>)
    ensures RequestsRoute(points) <==> |points| > 0 && Labels(points)[|points| - 1] >= 2
  {
    |points| >= 2
  }

  /** `findIndex(loc => loc.name === name)`. */
  function IndexOfName(points: seq<MapPoint>, name: string): (r: Option<nat>)
    ensures r.Some? ==> r.value < |points| && points[r.value].name == name
                        && forall j :: 0 <= j < r.value ==> points[j].name != name
    ensures r.None? <==> forall j :: 0 <= j < |points| ==> points[j].name != name
    decreases |points|
  {
    if points == [] then None
    else if points[0].name == name then Some(0)
    else
      match IndexOfName(points[1..], name)
      case None => None
      case Some(k) => Some(k + 1)
  }

  /** `find(loc => loc.name === name)`. */
  function FindByName(points: seq<MapPoint>, name: string): (r: Option<MapPoint>)
    ensures r.Some? ==> r.value in points && r.value.name == name
    ensures r.None? ==> forall p :: p in points ==> p.name != name
    decreases |points|
  {
    if points == [] then None
    else if points[0].name == name then Some(points[0])
    else FindByName(points[1..], name)
  }

  /**
   * The point the map centres on and the marker whose popup opens are the
   * same: `find` and `findIndex` with one test pick the same position.
   */
  lemma {:induction false} FindAgreesWithIndex(points: seq<MapPoint>, name: string)
    ensures FindByName(points, name).None? <==> IndexOfName(points, name).None?
    ensures IndexOfName(points, name).Some? ==>
      FindByName(points, name) == Some(points[IndexOfName(points, name).value])
    decreases |points|
  {
    if points != [] && points[0].name != name {
      FindAgreesWithIndex(points[1..], name);
    }
  }

  datatype Highlight = Highlight(center: MapPoint, marker: nat)

  /**
   * What highlighting a place by name does: nothing without a name (a missing
   * or empty one is falsy) or for an unknown name, else centre on it and open
   * its marker.
   */
  function HighlightFor(points: seq<MapPoint>, name: string): (r: Option<Highlight>)
    ensures name == "" ==> r.None?
    ensures r.Some? ==> r.value.marker < |points| && points[r.value.marker] == r.value.center
                        && r.value.center.name == name
    ensures name != "" ==> (r.None? <==> forall j :: 0 <= j < |points| ==> points[j].name != name)
  {
    if name == "" then None
    else
      FindAgreesWithIndex(points, name);
      match FindByName(points, name)
      case None => None
      case Some(p) => Some(Highlight(p, IndexOfName(points, name).value))
  }
}
