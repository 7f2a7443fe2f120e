/**
 * The itinerary's overview map: every planned place, day by day, as a
 * numbered marker with its day, the highlighted marker, and the dashed line
 * joining the markers in order.
 */
module ItineraryFlatMap {
  import opened Wrappers
  import opened Seqs
  import opened TripContext

  /** The places the days name, day by day, before any is dropped for missing coordinates. */
  function Pushed(days: seq<DayItinerary>): (r: seq<SavedLocation>)
    ensures |r| <= 3 * |days|
    decreases |days|
  {
    if days == [] then [] else Pushed(days[..|days| - 1]) + SlotLocations(days[|days| - 1])
  }

  /** The map's places: those of `Pushed` that have both coordinates, in the same order. */
  function AllLocations(days: seq<DayItinerary>): (r: seq<SavedLocation>)
    ensures forall l :: l in r <==> l in Pushed(days) && HasCoordinates(l)
    ensures |r| <= |Pushed(days)|
  {
    Filter(Pushed(days), HasCoordinates)
  }

  /** Every place on the map has coordinates and belongs to one of the days. */
  lemma {:induction false} AllLocationsFromDays(days: seq<DayItinerary>)
    ensures |AllLocations(days)| <= 3 * |days|
    ensures forall l :: l in AllLocations(days) ==>
      HasCoordinates(l) && exists d :: 0 <= d < |days| && l in SlotLocations(days[d])
    decreases |days|
  {
    if days != [] {
      var front := days[..|days| - 1];
      AllLocationsFromDays(front);
      forall l | l in Pushed(days)
        ensures exists d :: 0 <= d < |days| && l in SlotLocations(days[d])
      {
        if l in Pushed(front) {
          assert l in AllLocations(front) || !HasCoordinates(l);
          PushedFromDays(front, l);
          var d :| 0 <= d < |front| && l in SlotLocations(front[d]);
          assert front[d] == days[d];
        } else {
          assert l in SlotLocations(days[|days| - 1]);
        }
      }
    }
  }

  lemma {:induction false} PushedFromDays(days: seq<DayItinerary>, l: SavedLocation)
    requires l in Pushed(days)
    ensures exists d :: 0 <= d < |days| && l in SlotLocations(days[d])
    decreases |days|
  {
    var front := days[..|days| - 1];
    if l in Pushed(front) {
      PushedFromDays(front, l);
      var d :| 0 <= d < |front| && l in SlotLocations(front[d]);
      assert front[d] == days[d];
    } else {
      assert l in SlotLocations(days[|days| - 1]);
    }
  }

  /** The overview's `forEach` over the days pushing each slot's place, then the coordinate filter. */
  method CollectLocations(days: seq<DayItinerary>) returns (locs: seq<SavedLocation>)
    ensures locs == AllLocations(days)
  {
    var pushed: seq<SavedLocation> := [];
    var i := 0;
    while i < |days|
      invariant 0 <= i <= |days|
      invariant pushed == Pushed(days[..i])
    {
      pushed := PushSlots(pushed, days[i]);
      assert days[..i + 1][..i] == days[..i];
      i := i + 1;
    }
    assert days[..i] == days;
    locs := Filter(pushed, HasCoordinates);
  }

  /** One day of the `forEach`: its morning, afternoon and evening places pushed when present. */
  method PushSlots(before: seq<SavedLocation>, day: DayItinerary) returns (pushed: seq<SavedLocation>)
    ensures pushed == before + SlotLocations(day)
  {
    pushed := before;
    if day.morning.Some? && day.morning.value.location.Some? {
      pushed := pushed + [day.morning.value.location.value];
    }
    if day.afternoon.Some? && day.afternoon.value.location.Some? {
      pushed := pushed + [day.afternoon.value.location.value];
    }
    if day.evening.Some? && day.evening.value.location.Some? {
      pushed := pushed + [day.evening.value.location.value];
    }
  }

  /** A map place together with the position, from 1, of the day it belongs to. */
  datatype Pin = Pin(location: SavedLocation, day: nat)

  function DayPins(day: DayItinerary, n: nat): (r: seq<Pin>)
    ensures |r| == |Filter(SlotLocations(day), HasCoordinates)|
    ensures forall i :: 0 <= i < |r| ==> r[i] == Pin(Filter(SlotLocations(day), HasCoordinates)[i], n)
  {
    var ls := Filter(SlotLocations(day), HasCoordinates);
    seq(|ls|, i requires 0 <= i < |ls| => Pin(ls[i], n))
  }

  /** The map's places, each tagged with its own day. */
  function Pins(days: seq<DayItinerary>): seq<Pin>
    decreases |days|
  {
    if days == [] then [] else Pins(days[..|days| - 1]) + DayPins(days[|days| - 1], |days|)
  }

  /** The tagged places are the map's places, in the map's order. */
  lemma {:induction false} PinsFollowLocations(days: seq<DayItinerary>)
    ensures |Pins(days)| == |AllLocations(days)|
    ensures forall i :: 0 <= i < |Pins(days)| ==> Pins(days)[i].location == AllLocations(days)[i]
    decreases |days|
  {
    if days != [] {
      var front := days[..|days| - 1];
      var last := days[|days| - 1];
      PinsFollowLocations(front);
      FilterAppend(Pushed(front), SlotLocations(last), HasCoordinates);
      var p, q := Pins(front), DayPins(last, |days|);
      var a, b := AllLocations(front), Filter(SlotLocations(last), HasCoordinates);
      assert Pins(days) == p + q;
      assert AllLocations(days) == a + b;
      LocationsOfConcat(p, q, a, b);
    }
  }

  lemma LocationsOfConcat(p: seq<Pin>, q: seq<Pin>, a: seq<SavedLocation>, b: seq<SavedLocation>)
    requires |p| == |a| && forall i :: 0 <= i < |p| ==> p[i].location == a[i]
    requires |q| == |b| && forall i :: 0 <= i < |q| ==> q[i].location == b[i]
    ensures |p + q| == |a + b| && forall i :: 0 <= i < |p + q| ==> (p + q)[i].location == (a + b)[i]
  {
    forall i | 0 <= i < |p + q| ensures (p + q)[i].location == (a + b)[i] {
      if i >= |p| {
        assert (p + q)[i] == q[i - |p|];
      }
    }
  }

  /** The pin's day is one of the days, and that day names the pin's place. */
  predicate FromItsDay(days: seq<DayItinerary>, pin: Pin) {
    1 <= pin.day <= |days| && pin.location in SlotLocations(days[pin.day - 1])
  }

  lemma FromItsDayExtends(days: seq<DayItinerary>, pin: Pin)
    requires |days| > 0 && FromItsDay(days[..|days| - 1], pin)
    ensures FromItsDay(days, pin)
  {
    assert days[..|days| - 1][pin.day - 1] == days[pin.day - 1];
  }

  /** Each place is tagged with a day that names it. */
  lemma {:induction false} PinsFromTheirDay(days: seq<DayItinerary>)
    ensures forall i :: 0 <= i < |Pins(days)| ==> FromItsDay(days, Pins(days)[i])
    decreases |days|
  {
    if days != [] {
      var front := days[..|days| - 1];
      var last := days[|days| - 1];
      PinsFromTheirDay(front);
      var p, q := Pins(front), DayPins(last, |days|);
      assert Pins(days) == p + q;
      forall i | 0 <= i < |Pins(days)|
        ensures FromItsDay(days, Pins(days)[i])
      {
        if i < |p| {
          assert Pins(days)[i] == p[i];
          FromItsDayExtends(days, p[i]);
        } else {
          var ls := Filter(SlotLocations(last), HasCoordinates);
          assert Pins(days)[i] == q[i - |p|] == Pin(ls[i - |p|], |days|);
          assert ls[i - |p|] in ls;
        }
      }
    }
  }

  /** The tagged days never go back: a later marker belongs to the same or a later day. */
  lemma {:induction false} PinsInDayOrder(days: seq<DayItinerary>)
    ensures forall i, j :: 0 <= i < j < |Pins(days)| ==> Pins(days)[i].day <= Pins(days)[j].day
    decreases |days|
  {
    if days != [] {
      var front := days[..|days| - 1];
      PinsInDayOrder(front);
      PinsFromTheirDay(front);
      var p, q := Pins(front), DayPins(days[|days| - 1], |days|);
      PinsSnoc(days);
      assert forall i :: 0 <= i < |p| ==> p[i].day <= |front| by {
        forall i | 0 <= i < |p| ensures p[i].day <= |front| {
          assert FromItsDay(front, p[i]);
        }
      }
      OrderedConcat(p, q, |days|);
    }
  }

  /** Pins in day order, all from days before `n`, followed by pins of day `n`, are in day order. */
  lemma OrderedConcat(p: seq<Pin>, q: seq<Pin>, n: nat)
    requires forall i, j :: 0 <= i < j < |p| ==> p[i].day <= p[j].day
    requires forall i :: 0 <= i < |p| ==> p[i].day <= n
    requires forall k :: 0 <= k < |q| ==> q[k].day == n
    ensures forall i, j :: 0 <= i < j < |p + q| ==> (p + q)[i].day <= (p + q)[j].day
  {
    forall i, j | 0 <= i < j < |p + q| ensures (p + q)[i].day <= (p + q)[j].day {
      if j >= |p| {
        assert (p + q)[j] == q[j - |p|];
        if i >= |p| {
          assert (p + q)[i] == q[i - |p|];
        }
      }
    }
  }

  datatype Marker = Marker(location: SavedLocation, orderNumber: nat, dayNumber: nat, highlighted: bool)

  /** `highlightedLocation?.id === location.id`. */
  predicate IsHighlighted(highlighted: Option<SavedLocation>, l: SavedLocation) {
    highlighted.Some? && highlighted.value.id == l.id
  }

  /** The markers as the overview numbers them: the day is derived from the marker's index, three to a day. */
  function MarkersAsWritten(days: seq<DayItinerary>, highlighted: Option<SavedLocation>): (r: seq<Marker>)
    ensures |r| == |AllLocations(days)|
    ensures forall i :: 0 <= i < |r| ==> r[i].dayNumber == i / 3 + 1
  {
    var locs := AllLocations(days);
    seq(|locs|, i requires 0 <= i < |locs| => Marker(locs[i], i + 1, i / 3 + 1, IsHighlighted(highlighted, locs[i])))
  }

  /**
   * One day whose only place is in the morning, then a second such day: the
   * second day's place is the second marker, numbered as day 1.
   */
  lemma AsWrittenMisnumbersDays(a: SavedLocation, b: SavedLocation, slot: TimeSlot)
    requires HasCoordinates(a) && HasCoordinates(b) && a != b
    ensures var days := [DayItinerary(1, "", Some(slot.(location := Some(a))), None, None),
                         DayItinerary(2, "", Some(slot.(location := Some(b))), None, None)];
      && AllLocations(days) == [a, b]
      && b !in SlotLocations(days[0])
      && MarkersAsWritten(days, None)[1].dayNumber == 1
      && Markers(days, None)[1].dayNumber == 2
  {
    var d1 := DayItinerary(1, "", Some(slot.(location := Some(a))), None, None);
    var d2 := DayItinerary(2, "", Some(slot.(location := Some(b))), None, None);
    var days := [d1, d2];
    assert SlotLocations(d1) == [a];
    assert SlotLocations(d2) == [b];
    assert days[..1] == [d1] && [d1][..0] == [];
    assert Pushed([d1]) == [a];
    assert Pushed(days) == [a, b];
    assert Filter([b], HasCoordinates) == [b];
    assert Filter([a, b], HasCoordinates) == [a] + Filter([b], HasCoordinates);
    assert Filter(SlotLocations(d1), HasCoordinates) == [a];
    assert Pins([d1]) == [Pin(a, 1)];
    assert Pins(days) == [Pin(a, 1), Pin(b, 2)];
  }

  /** The markers with each place's own day, in the overview's order; the rest of the model uses these. */
  function Markers(days: seq<DayItinerary>, highlighted: Option<SavedLocation>): (r: seq<Marker>)
    ensures |r| == |AllLocations(days)|
    ensures forall i :: 0 <= i < |r| ==>
      && r[i].location == AllLocations(days)[i]
      && r[i].orderNumber == i + 1
      && (r[i].highlighted <==> IsHighlighted(highlighted, r[i].location))
      && FromItsDay(days, Pin(r[i].location, r[i].dayNumber))
  {
    PinsFollowLocations(days);
    PinsFromTheirDay(days);
    var pins := Pins(days);
    seq(|pins|, i requires 0 <= i < |pins| =>
      Marker(pins[i].location, i + 1, pins[i].day, IsHighlighted(highlighted, pins[i].location)))
  }

  /** A full day: three places, each with coordinates. */
  predicate FullDay(day: DayItinerary) {
    |Filter(SlotLocations(day), HasCoordinates)| == 3
  }

  lemma FullPins(days: seq<DayItinerary>)
    requires forall d :: 0 <= d < |days| ==> FullDay(days[d])
    ensures |Pins(days)| == 3 * |days|
    ensures forall i :: 0 <= i < |Pins(days)| ==> Pins(days)[i].day == i / 3 + 1
  {
    AllFullIntro(days);
    AllFullPins(days);
  }

  /** Every day is full, stated the way the days are built up: the earlier days, then the last one. */
  predicate AllFull(days: seq<DayItinerary>)
    decreases |days|
  {
    days == [] || (AllFull(days[..|days| - 1]) && FullDay(days[|days| - 1]))
  }

  lemma {:induction false} AllFullIntro(days: seq<DayItinerary>)
    requires forall d :: 0 <= d < |days| ==> FullDay(days[d])
    ensures AllFull(days)
    decreases |days|
  {
    if days != [] {
      var front := days[..|days| - 1];
      forall d | 0 <= d < |front| ensures FullDay(front[d]) {
        assert front[d] == days[d];
      }
      AllFullIntro(front);
    }
  }

  lemma {:induction false} AllFullPins(days: seq<DayItinerary>)
    requires AllFull(days)
    ensures |Pins(days)| == 3 * |days|
    ensures forall i :: 0 <= i < |Pins(days)| ==> Pins(days)[i].day == i / 3 + 1
    decreases |days|
  {
    if days != [] {
      AllFullPins(days[..|days| - 1]);
      FullPinsStep(days);
    }
  }

  /** The last full day's three pins continue the numbering of the days before it. */
  lemma FullPinsStep(days: seq<DayItinerary>)
    requires days != [] && FullDay(days[|days| - 1])
    requires var p := Pins(days[..|days| - 1]);
      |p| == 3 * (|days| - 1) && forall i :: 0 <= i < |p| ==> p[i].day == i / 3 + 1
    ensures |Pins(days)| == 3 * |days|
    ensures forall i :: 0 <= i < |Pins(days)| ==> Pins(days)[i].day == i / 3 + 1
  {
    PinsSnoc(days);
    ThreeToADay(Pins(days[..|days| - 1]), days[|days| - 1], |days|);
  }

  lemma PinsSnoc(days: seq<DayItinerary>)
    requires days != []
    ensures Pins(days) == Pins(days[..|days| - 1]) + DayPins(days[|days| - 1], |days|)
  {
  }

  /** Appending a day's three pins to 3(n-1) pins numbered three to a day keeps the numbering. */
  lemma ThreeToADay(p: seq<Pin>, day: DayItinerary, n: nat)
    requires n >= 1 && |p| == 3 * (n - 1) && forall i :: 0 <= i < |p| ==> p[i].day == i / 3 + 1
    requires FullDay(day)
    ensures var q := DayPins(day, n);
      |p + q| == 3 * n && forall i :: 0 <= i < |p + q| ==> (p + q)[i].day == i / 3 + 1
  {
    var q := DayPins(day, n);
    forall i | 0 <= i < |p + q| ensures (p + q)[i].day == i / 3 + 1 {
      if i >= |p| {
        assert (p + q)[i] == q[i - |p|];
        var r := i - 3 * (n - 1);
        assert 0 <= r < 3 && i == 3 * (n - 1) + r;
        assert i / 3 == n - 1;
      }
    }
  }

  /** When every day has three places with coordinates, the index-derived day numbers are right. */
  lemma AsWrittenRightForFullDays(days: seq<DayItinerary>, highlighted: Option<SavedLocation>)
    requires forall d :: 0 <= d < |days| ==> FullDay(days[d])
    ensures MarkersAsWritten(days, highlighted) == Markers(days, highlighted)
  {
    FullPins(days);
    var w, m := MarkersAsWritten(days, highlighted), Markers(days, highlighted);
    forall i | 0 <= i < |w|
      ensures w[i] == m[i]
    {
      assert Pins(days)[i].day == i / 3 + 1;
    }
  }

  /** The dashed line's points, drawn only for more than one place. */
  function RouteLine(days: seq<DayItinerary>): (r: seq<(real, real)>)
    ensures |r| != 1
    ensures r == [] <==> |AllLocations(days)| <= 1
    ensures r != [] ==> |r| == |AllLocations(days)|
    ensures r != [] ==> forall i :: 0 <= i < |r| ==>
      Some(r[i].0) == AllLocations(days)[i].lat && Some(r[i].1) == AllLocations(days)[i].lng
  {
    var locs := AllLocations(days);
    if |locs| <= 1 then []
    else
      assert forall i :: 0 <= i < |locs| ==> HasCoordinates(locs[i]) by {
        forall i | 0 <= i < |locs| ensures HasCoordinates(locs[i]) {
          assert locs[i] in locs;
        }
      }
      seq(|locs|, i requires 0 <= i < |locs| => (locs[i].lat.value, locs[i].lng.value))
  }
}
