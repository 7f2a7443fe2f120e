/**
 * The greedy nearest-neighbour route sequencer of the trip maps, with the
 * travel-time estimate it attaches to each leg, the duration label and the
 * trip's total time. The great-circle distance between two stops is a
 * parameter `dist`; the trigonometry behind it is not modelled.
 */
module RouteSequencer {
  import opened Wrappers

  datatype TravelMode = Driving | Walking

  /** A stop on the map: the fields of a map location that sequencing and the totals read. */
  datatype Stop = Stop(id: string, name: string, lat: real, lng: real, kind: string, visitDuration: Option<int>)

  datatype RouteStep = RouteStep(from: string, to: string, distance: real, duration: int, order: nat)

  /** Distance in kilometres between two stops. */
  type Distance = (Stop, Stop) -> real

  ghost predicate NonNegative(dist: Distance) {
    forall a, b :: dist(a, b) >= 0.0
  }

  /** `Math.round`: the nearest integer, a half rounding up. */
  function Round(x: real): (r: int)
    ensures x - 0.5 < r as real <= x + 0.5
  {
    (x + 0.5).Floor
  }

  lemma RoundMonotone(x: real, y: real)
    requires x <= y
    ensures Round(x) <= Round(y)
  {
  }

  /** `calculateDuration`: minutes for a leg of `distance` kilometres at 40 km/h by car or 5 km/h on foot. */
  function CalculateDuration(distance: real, mode: TravelMode): (r: int)
    ensures distance >= 0.0 ==> r >= 0
  {
    if mode == Driving then Round(distance / 40.0 * 60.0) else Round(distance / 5.0 * 60.0)
  }

  /** On foot a leg never takes fewer minutes than by car. */
  lemma WalkingTakesAtLeastAsLong(distance: real)
    requires distance >= 0.0
    ensures CalculateDuration(distance, Walking) >= CalculateDuration(distance, Driving)
  {
    RoundMonotone(distance / 40.0 * 60.0, distance / 5.0 * 60.0);
  }

  /** `k` is where a left-to-right scan with a strict `<` settles: a minimum, and strictly below everything before it. */
  predicate IsFirstMin(current: Stop, u: seq<Stop>, k: int, dist: Distance) {
    && 0 <= k < |u|
    && (forall j :: 0 <= j < |u| ==> dist(current, u[k]) <= dist(current, u[j]))
    && (forall j :: 0 <= j < k ==> dist(current, u[k]) < dist(current, u[j]))
  }

  /** The stop the inner scan picks as `nearest`. */
  function FirstMinIndex(current: Stop, u: seq<Stop>, dist: Distance): (k: nat)
    requires |u| > 0
    ensures IsFirstMin(current, u, k, dist)
    decreases |u|
  {
    if |u| == 1 then 0
    else
      var k := FirstMinIndex(current, u[..|u| - 1], dist);
      if dist(current, u[|u| - 1]) < dist(current, u[k]) then |u| - 1 else k
  }

  /** `u.indexOf(x)`. */
  function IndexOfStop(u: seq<Stop>, x: Stop): (r: int)
    ensures -1 <= r < |u|
    ensures r == -1 <==> x !in u
    ensures r >= 0 ==> u[r] == x && forall j :: 0 <= j < r ==> u[j] != x
    decreases |u|
  {
    if u == [] then -1
    else if u[0] == x then 0
    else
      var r := IndexOfStop(u[1..], x);
      if r == -1 then -1 else r + 1
  }

  /** The chosen stop is found again by `indexOf` at the position it was chosen from. */
  lemma IndexOfFirstMin(current: Stop, u: seq<Stop>, k: int, dist: Distance)
    requires IsFirstMin(current, u, k, dist)
    ensures IndexOfStop(u, u[k]) == k
  {
  }

  /** `splice(k, 1)`: the stops without the one at `k`. */
  function Remove(u: seq<Stop>, k: nat): (r: seq<Stop>)
    requires k < |u|
    ensures |r| == |u| - 1
  {
    u[..k] + u[k + 1..]
  }

  /** Splicing out one stop removes exactly one occurrence of it. */
  lemma RemoveMultiset(u: seq<Stop>, k: nat)
    requires k < |u|
    ensures multiset(Remove(u, k)) == multiset(u) - multiset{u[k]}
  {
    assert u == u[..k] + [u[k]] + u[k + 1..];
  }

  /** The stops in the order the sequencer visits them, starting from `current`. */
  function VisitOrder(current: Stop, unvisited: seq<Stop>, dist: Distance): (v: seq<Stop>)
    ensures |v| == |unvisited|
    decreases |unvisited|
  {
    if unvisited == [] then []
    else
      var k := FirstMinIndex(current, unvisited, dist);
      [unvisited[k]] + VisitOrder(unvisited[k], Remove(unvisited, k), dist)
  }

  /** Every unvisited stop is visited, as often as it occurs. */
  lemma {:induction false} VisitOrderPermutation(current: Stop, unvisited: seq<Stop>, dist: Distance)
    ensures multiset(VisitOrder(current, unvisited, dist)) == multiset(unvisited)
    decreases |unvisited|
  {
    if unvisited != [] {
      var k := FirstMinIndex(current, unvisited, dist);
      VisitOrderPermutation(unvisited[k], Remove(unvisited, k), dist);
      RemoveMultiset(unvisited, k);
    }
  }

  /** The legs the loop emits from `current` onwards, numbered from `order`. */
  function RouteFrom(current: Stop, unvisited: seq<Stop>, order: nat, mode: TravelMode, dist: Distance): seq<RouteStep>
    decreases |unvisited|
  {
    if unvisited == [] then []
    else
      var k := FirstMinIndex(current, unvisited, dist);
      var next := unvisited[k];
      var d := dist(current, next);
      [RouteStep(current.name, next.name, d, CalculateDuration(d, mode), order)]
        + RouteFrom(next, Remove(unvisited, k), order + 1, mode, dist)
  }

  /** The route `optimizeRoute` stores: none below two stops, otherwise the legs from the first selected stop. */
  function OptimizedRoute(selected: seq<Stop>, mode: TravelMode, dist: Distance): (r: seq<RouteStep>)
    ensures |selected| >= 2 ==> |r| == |selected| - 1
  {
    if |selected| < 2 then []
    else
      RouteFromLength(selected[0], selected[1..], 1, mode, dist);
      RouteFrom(selected[0], selected[1..], 1, mode, dist)
  }

  /** One leg per unvisited stop. */
  lemma {:induction false} RouteFromLength(current: Stop, unvisited: seq<Stop>, order: nat, mode: TravelMode, dist: Distance)
    ensures |RouteFrom(current, unvisited, order, mode, dist)| == |unvisited|
    decreases |unvisited|
  {
    if unvisited != [] {
      var k := FirstMinIndex(current, unvisited, dist);
      RouteFromLength(unvisited[k], Remove(unvisited, k), order + 1, mode, dist);
    }
  }

  function Visits(selected: seq<Stop>, dist: Distance): seq<Stop> {
    if |selected| < 2 then [] else VisitOrder(selected[0], selected[1..], dist)
  }

  /** Where leg `i` starts: the start for the first leg, the previous destination after that. */
  function Prev(current: Stop, v: seq<Stop>, i: nat): Stop
    requires i <= |v|
  {
    if i == 0 then current else v[i - 1]
  }

  /** Leg `i` goes from `Prev(i)` to the `i`-th visited stop, carries its distance and travel time, and is numbered `order + i`. */
  ghost predicate LegsFollow(current: Stop, v: seq<Stop>, route: seq<RouteStep>, order: nat, mode: TravelMode, dist: Distance) {
    && |route| == |v|
    && forall i :: 0 <= i < |route| ==>
         && route[i].order == order + i
         && route[i].to == v[i].name
         && route[i].from == Prev(current, v, i).name
         && route[i].distance == dist(Prev(current, v, i), v[i])
         && route[i].duration == CalculateDuration(route[i].distance, mode)
  }

  lemma LegsFollowCons(current: Stop, next: Stop, v: seq<Stop>, route: seq<RouteStep>, order: nat, mode: TravelMode, dist: Distance)
    requires LegsFollow(next, v, route, order + 1, mode, dist)
    ensures var d := dist(current, next);
            LegsFollow(current, [next] + v, [RouteStep(current.name, next.name, d, CalculateDuration(d, mode), order)] + route, order, mode, dist)
  {
    var v1 := [next] + v;
    var d := dist(current, next);
    var r1 := [RouteStep(current.name, next.name, d, CalculateDuration(d, mode), order)] + route;
    forall i | 0 <= i < |r1|
      ensures r1[i].order == order + i && r1[i].to == v1[i].name
      ensures r1[i].from == Prev(current, v1, i).name && r1[i].distance == dist(Prev(current, v1, i), v1[i])
      ensures r1[i].duration == CalculateDuration(r1[i].distance, mode)
    {
      if i > 0 {
        assert r1[i] == route[i - 1];
        assert v1[i] == v[i - 1];
        assert Prev(current, v1, i) == Prev(next, v, i - 1);
      }
    }
  }

  lemma {:induction false} RouteFromShape(current: Stop, unvisited: seq<Stop>, order: nat, mode: TravelMode, dist: Distance)
    ensures |RouteFrom(current, unvisited, order, mode, dist)| == |unvisited|
    ensures LegsFollow(current, VisitOrder(current, unvisited, dist), RouteFrom(current, unvisited, order, mode, dist), order, mode, dist)
    decreases |unvisited|
  {
    if unvisited != [] {
      var k := FirstMinIndex(current, unvisited, dist);
      var next := unvisited[k];
      var rest := Remove(unvisited, k);
      RouteFromShape(next, rest, order + 1, mode, dist);
      LegsFollowCons(current, next, VisitOrder(next, rest, dist), RouteFrom(next, rest, order + 1, mode, dist), order, mode, dist);
    }
  }

  /** No stop in `candidates` is closer to `from` than `x`. */
  ghost predicate IsNearest(from: Stop, x: Stop, candidates: seq<Stop>, dist: Distance) {
    forall y :: y in candidates ==> dist(from, x) <= dist(from, y)
  }

  /** Each visited stop is a nearest one, from where the route stands, among the stops visited from then on. */
  ghost predicate NearestFirst(current: Stop, v: seq<Stop>, dist: Distance) {
    forall i :: 0 <= i < |v| ==> IsNearest(Prev(current, v, i), v[i], v[i..], dist)
  }

  lemma NearestFirstCons(current: Stop, next: Stop, v: seq<Stop>, dist: Distance)
    requires NearestFirst(next, v, dist)
    requires IsNearest(current, next, v, dist)
    ensures NearestFirst(current, [next] + v, dist)
  {
    var v1 := [next] + v;
    forall i | 0 <= i < |v1|
      ensures IsNearest(Prev(current, v1, i), v1[i], v1[i..], dist)
    {
      if i == 0 {
        assert v1[0..] == v1;
      } else {
        assert v1[i] == v[i - 1] && v1[i..] == v[i - 1..];
        assert Prev(current, v1, i) == Prev(next, v, i - 1);
      }
    }
  }

  /** Every leg goes to a nearest stop among those still unvisited at that point. */
  lemma {:induction false} GreedyChoice(current: Stop, unvisited: seq<Stop>, dist: Distance)
    ensures NearestFirst(current, VisitOrder(current, unvisited, dist), dist)
    decreases |unvisited|
  {
    if unvisited != [] {
      var k := FirstMinIndex(current, unvisited, dist);
      var next := unvisited[k];
      var rest := Remove(unvisited, k);
      GreedyChoice(next, rest, dist);
      var v' := VisitOrder(next, rest, dist);
      VisitOrderPermutation(next, rest, dist);
      RemoveMultiset(unvisited, k);
      forall x | x in v'
        ensures dist(current, next) <= dist(current, x)
      {
        assert x in multiset(v');
        assert x in multiset(unvisited);
        var idx :| 0 <= idx < |unvisited| && unvisited[idx] == x;
      }
      NearestFirstCons(current, next, v', dist);
    }
  }

  /** The contract of `optimizeRoute` over the selected stops. */
  lemma OptimizedRouteContract(selected: seq<Stop>, mode: TravelMode, dist: Distance)
    ensures var route := OptimizedRoute(selected, mode, dist);
            var v := Visits(selected, dist);
            && (|selected| < 2 ==> route == [])
            && (|selected| >= 2 ==>
                  && |route| == |selected| - 1 == |v|
                  && multiset(v) == multiset(selected[1..])
                  && route[0].from == selected[0].name
                  && (forall i :: 0 <= i < |route| - 1 ==> route[i + 1].from == route[i].to)
                  && (forall i :: 0 <= i < |route| ==>
                        route[i].order == i + 1 && route[i].to == v[i].name
                        && route[i].distance == dist(Prev(selected[0], v, i), v[i])))
  {
    if |selected| >= 2 {
      RouteFromShape(selected[0], selected[1..], 1, mode, dist);
      VisitOrderPermutation(selected[0], selected[1..], dist);
      var route := OptimizedRoute(selected, mode, dist);
      var v := Visits(selected, dist);
      forall i | 0 <= i < |route| - 1
        ensures route[i + 1].from == route[i].to
      {
        assert route[i + 1].from == Prev(selected[0], v, i + 1).name;
      }
    }
  }

  /** Each leg is as short as any leg to a stop visited later from the same place. */
  lemma OptimizedRouteIsGreedy(selected: seq<Stop>, mode: TravelMode, dist: Distance)
    requires |selected| >= 2
    ensures var route := OptimizedRoute(selected, mode, dist);
            var v := Visits(selected, dist);
            && |route| == |v|
            && forall i, j :: 0 <= i <= j < |v| ==> route[i].distance <= dist(Prev(selected[0], v, i), v[j])
  {
    RouteFromShape(selected[0], selected[1..], 1, mode, dist);
    GreedyChoice(selected[0], selected[1..], dist);
    var route := OptimizedRoute(selected, mode, dist);
    var v := Visits(selected, dist);
    forall i, j | 0 <= i <= j < |v|
      ensures route[i].distance <= dist(Prev(selected[0], v, i), v[j])
    {
      assert route[i].distance == dist(Prev(selected[0], v, i), v[i]);
      assert IsNearest(Prev(selected[0], v, i), v[i], v[i..], dist);
      assert v[j] == v[i..][j - i];
    }
  }

  /** Distance along the equator, in degrees of longitude: it orders the stops below as the great-circle distance does. */
  function EquatorDistance(a: Stop, b: Stop): real {
    if a.lng <= b.lng then b.lng - a.lng else a.lng - b.lng
  }

  const ExampleA := Stop("a", "A", 0.0, 0.0, "attraction", None)
  const ExampleB := Stop("b", "B", 0.0, 1.0, "attraction", None)
  const ExampleC := Stop("c", "C", 0.0, 10.0, "attraction", None)
  const ExampleD := Stop("d", "D", 0.0, 2.0, "attraction", None)

  lemma ExampleFirstChoice()
    ensures FirstMinIndex(ExampleA, [ExampleB, ExampleC, ExampleD], EquatorDistance) == 0
  {
    assert [ExampleB, ExampleC, ExampleD][..2] == [ExampleB, ExampleC];
    assert [ExampleB, ExampleC][..1] == [ExampleB];
  }

  lemma ExampleSecondChoice()
    ensures FirstMinIndex(ExampleB, [ExampleC, ExampleD], EquatorDistance) == 1
  {
    assert [ExampleC, ExampleD][..1] == [ExampleC];
  }

  lemma ExampleVisits()
    ensures VisitOrder(ExampleA, [ExampleB, ExampleC, ExampleD], EquatorDistance) == [ExampleB, ExampleD, ExampleC]
  {
    ExampleFirstChoice();
    ExampleSecondChoice();
    assert Remove([ExampleB, ExampleC, ExampleD], 0) == [ExampleC, ExampleD];
    assert Remove([ExampleC, ExampleD], 1) == [ExampleC];
    assert VisitOrder(ExampleD, [ExampleC], EquatorDistance) == [ExampleC];
  }

  /** Starting at A(0,0) with B(0,1), C(0,10) and D(0,2) selected, the legs go to B, then D, then C. */
  lemma WorkedExample()
    ensures var route := OptimizedRoute([ExampleA, ExampleB, ExampleC, ExampleD], Driving, EquatorDistance);
            |route| == 3 && route[0].to == "B" && route[1].to == "D" && route[2].to == "C"
  {
    ExampleVisits();
    RouteFromShape(ExampleA, [ExampleB, ExampleC, ExampleD], 1, Driving, EquatorDistance);
    assert [ExampleA, ExampleB, ExampleC, ExampleD][1..] == [ExampleB, ExampleC, ExampleD];
  }

  /** With non-negative distances every leg has a non-negative travel time. */
  lemma RouteDurationsNonNegative(selected: seq<Stop>, mode: TravelMode, dist: Distance)
    requires NonNegative(dist)
    ensures forall s :: s in OptimizedRoute(selected, mode, dist) ==> s.duration >= 0
  {
    if |selected| >= 2 {
      RouteFromShape(selected[0], selected[1..], 1, mode, dist);
      var route := OptimizedRoute(selected, mode, dist);
      var v := Visits(selected, dist);
      forall s | s in route ensures s.duration >= 0 {
        var i :| 0 <= i < |route| && route[i] == s;
        assert route[i].distance == dist(Prev(selected[0], v, i), v[i]);
      }
    }
  }

  /** The inner `for (const loc of unvisited)` scan: the first stop at minimum distance from `current`. */
  method FindNearest(current: Stop, unvisited: seq<Stop>, dist: Distance) returns (nearest: Stop, minDistance: real)
    requires |unvisited| > 0
    ensures nearest == unvisited[FirstMinIndex(current, unvisited, dist)]
    ensures minDistance == dist(current, nearest)
  {
    nearest := unvisited[0];
    minDistance := dist(current, nearest);
    ghost var k := 0;
    var j := 0;
    while j < |unvisited|
      invariant 0 <= j <= |unvisited|
      invariant 0 <= k < |unvisited| && nearest == unvisited[k] && minDistance == dist(current, nearest)
      invariant j == 0 ==> k == 0
      invariant j > 0 ==> k == FirstMinIndex(current, unvisited[..j], dist)
    {
      var distance := dist(current, unvisited[j]);
      if distance < minDistance {
        minDistance := distance;
        nearest := unvisited[j];
        k := j;
      }
      assert unvisited[..j + 1][..j] == unvisited[..j];
      j := j + 1;
    }
    assert unvisited[..|unvisited|] == unvisited;
  }

  /** `optimizeRoute`: the start is the first selected stop, the remaining ones are visited nearest first. */
  method OptimizeRoute(selected: seq<Stop>, mode: TravelMode, dist: Distance) returns (route: seq<RouteStep>)
    ensures route == OptimizedRoute(selected, mode, dist)
  {
    route := [];
    if |selected| < 2 {
      return;
    }
    var current := selected[0];
    var unvisited := selected[1..];
    var order := 1;
    ghost var target := OptimizedRoute(selected, mode, dist);
    while |unvisited| > 0
      invariant order == |route| + 1
      invariant route + RouteFrom(current, unvisited, order, mode, dist) == target
      decreases |unvisited|
    {
      var step, nearest, remaining := NextLeg(current, unvisited, order, mode, dist);
      AppendStep(route, step, RouteFrom(nearest, remaining, order + 1, mode, dist));
      route := route + [step];
      order := order + 1;
      unvisited := remaining;
      current := nearest;
    }
  }

  lemma AppendStep(route: seq<RouteStep>, step: RouteStep, tail: seq<RouteStep>)
    ensures route + [step] + tail == route + ([step] + tail)
  {
  }

  /** One pass of the outer loop: the leg to the nearest unvisited stop, which is then spliced out. */
  method NextLeg(current: Stop, unvisited: seq<Stop>, order: nat, mode: TravelMode, dist: Distance)
    returns (step: RouteStep, nearest: Stop, remaining: seq<Stop>)
    requires |unvisited| > 0
    ensures |remaining| == |unvisited| - 1
    ensures [step] + RouteFrom(nearest, remaining, order + 1, mode, dist) == RouteFrom(current, unvisited, order, mode, dist)
  {
    var minDistance;
    nearest, minDistance := FindNearest(current, unvisited, dist);
    ghost var k := FirstMinIndex(current, unvisited, dist);
    var duration := CalculateDuration(minDistance, mode);
    step := RouteStep(current.name, nearest.name, minDistance, duration, order);
    IndexOfFirstMin(current, unvisited, k, dist);
    var idx := IndexOfStop(unvisited, nearest);
    remaining := unvisited[..idx] + unvisited[idx + 1..];
    assert remaining == Remove(unvisited, k);
  }

  /** `visitDuration || 60`: a missing or zero visit length counts as an hour. */
  function VisitMinutes(s: Stop): (r: int)
    ensures s.visitDuration.None? ==> r == 60
    ensures s.visitDuration == Some(0) ==> r == 60
    ensures s.visitDuration.Some? && s.visitDuration.value != 0 ==> r == s.visitDuration.value
  {
    match s.visitDuration
    case None => 60
    case Some(m) => if m == 0 then 60 else m
  }

  /** The sum of the legs' travel minutes, accumulated left to right; legs of non-negative length add up to a non-negative time. */
  function TravelTime(route: seq<RouteStep>): (r: int)
    ensures (forall s :: s in route ==> s.duration >= 0) ==> r >= 0
    decreases |route|
  {
    if route == [] then 0
    else
      assert forall s :: s in route[..|route| - 1] ==> s in route;
      TravelTime(route[..|route| - 1]) + route[|route| - 1].duration
  }

  /** The sum of the stops' visit minutes, accumulated left to right; stops without a (non-zero) visit length count an hour each. */
  function VisitTime(stops: seq<Stop>): (r: int)
    ensures (forall s :: s in stops ==> s.visitDuration.None? || s.visitDuration == Some(0)) ==> r == 60 * |stops|
    decreases |stops|
  {
    if stops == [] then 0
    else
      assert forall s :: s in stops[..|stops| - 1] ==> s in stops;
      VisitTime(stops[..|stops| - 1]) + VisitMinutes(stops[|stops| - 1])
  }

  /** `getTotalDuration`: travel plus visits, never less than the visits when no leg is negative. */
  function TotalDuration(route: seq<RouteStep>, stops: seq<Stop>): (r: int)
    ensures (forall s :: s in route ==> s.duration >= 0) ==> r >= VisitTime(stops)
  {
    TravelTime(route) + VisitTime(stops)
  }

  /** Travel time adds up over consecutive parts of a route. */
  lemma {:induction false} TravelTimeAppend(a: seq<RouteStep>, b: seq<RouteStep>)
    ensures TravelTime(a + b) == TravelTime(a) + TravelTime(b)
    decreases |b|
  {
    if b == [] {
      assert a + b == a;
    } else {
      TravelTimeAppend(a, b[..|b| - 1]);
      assert (a + b)[..|a + b| - 1] == a + b[..|b| - 1];
    }
  }

  /** Visit time adds up over consecutive groups of stops. */
  lemma {:induction false} VisitTimeAppend(a: seq<Stop>, b: seq<Stop>)
    ensures VisitTime(a + b) == VisitTime(a) + VisitTime(b)
    decreases |b|
  {
    if b == [] {
      assert a + b == a;
    } else {
      VisitTimeAppend(a, b[..|b| - 1]);
      assert (a + b)[..|a + b| - 1] == a + b[..|b| - 1];
    }
  }


  /** The total never falls below the visit time of the selected stops. */
  lemma TotalAtLeastVisits(selected: seq<Stop>, mode: TravelMode, dist: Distance)
    requires NonNegative(dist)
    ensures TotalDuration(OptimizedRoute(selected, mode, dist), selected) >= VisitTime(selected)
  {
    RouteDurationsNonNegative(selected, mode, dist);
  }

  /** The two renderings of `formatDuration`: `"m min"` and `"Hh Mm"`. */
  datatype DurationLabel = Minutes(minutes: int) | HoursMinutes(hours: int, mins: int)

  function LabelMinutes(shown: DurationLabel): int {
    match shown
    case Minutes(m) => m
    case HoursMinutes(h, m) => h * 60 + m
  }

  /** `formatDuration`: plain minutes below an hour, otherwise whole hours and the remaining minutes. */
  function FormatDuration(minutes: int): (r: DurationLabel)
    ensures r.Minutes? <==> minutes < 60
    ensures LabelMinutes(r) == minutes
    ensures r.HoursMinutes? ==> r.hours >= 1 && 0 <= r.mins < 60
  {
    if minutes < 60 then Minutes(minutes) else HoursMinutes(minutes / 60, minutes % 60)
  }
}
