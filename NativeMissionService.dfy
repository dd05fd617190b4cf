/**
 * The React Native mission service (ios-native/src/services/MissionService.ts):
 * the stored mission list with lookup, upsert and delete by id, and the
 * statistics recomputed from every stored mission. AsyncStorage is modelled
 * by the two fields of `MissionService`; a missing or unreadable entry reads
 * as nothing stored.
 */
module NativeMissionService {
  import opened Common
  import RouteCounts

  datatype FlightLeg = FlightLeg(
    id: string, legNumber: int, departure: string, arrival: string,
    departureTime: string, arrivalTime: string, flightHours: real,
    distanceNm: Option<real>, pax: Option<int>, cargo: Option<real>)

  datatype Mission = Mission(
    id: int, missionNumber: string, missionType: string, status: string,
    legs: int, pax: int, cargo: real, flightLegs: Option<seq<FlightLeg>>,
    totalFlightHours: Option<real>)

  datatype FlightStatistics = FlightStatistics(
    totalFlightHours: real, totalDistanceNm: real, totalCargoMoved: real, totalPaxMoved: int,
    missionsCompleted: nat, averageFlightHours: real, longestFlight: real, mostFrequentRoute: string)

  const NoRoute: string := "None"

  const DefaultStatistics: FlightStatistics :=
    FlightStatistics(0.0, 0.0, 0.0, 0, 0, 0.0, 0.0, NoRoute)

  // ---------------------------------------------------------------------
  // Lookup and upsert by id (ios-native/src/services/MissionService.ts:22-55).

  /** missions.find(m => m.id === id) */
  function FindById(ms: seq<Mission>, id: int): Option<Mission>
  {
    if ms == [] then None
    else if ms[0].id == id then Some(ms[0])
    else FindById(ms[1..], id)
  }

  /** missions.findIndex(m => m.id === id), -1 when absent. */
  function IndexOfId(ms: seq<Mission>, id: int): (r: int)
    ensures -1 <= r < |ms|
    ensures r >= 0 ==> ms[r].id == id && forall i :: 0 <= i < r ==> ms[i].id != id
    ensures r == -1 ==> forall i :: 0 <= i < |ms| ==> ms[i].id != id
  {
    if ms == [] then -1
    else if ms[0].id == id then 0
    else
      var r := IndexOfId(ms[1..], id);
      if r == -1 then -1 else r + 1
  }

  /** find returns the mission at findIndex's position. */
  lemma {:induction false} FindByIdSpec(ms: seq<Mission>, id: int)
    ensures FindById(ms, id) == if IndexOfId(ms, id) == -1 then None else Some(ms[IndexOfId(ms, id)])
  {
    if ms != [] && ms[0].id != id {
      FindByIdSpec(ms[1..], id);
    }
  }

  /** saveMission on the list: replace the first mission with the id in
      place, else append. */
  function Upsert(ms: seq<Mission>, m: Mission): seq<Mission>
  {
    var i := IndexOfId(ms, m.id);
    if i >= 0 then ms[i := m] else ms + [m]
  }

  /** After saving m, looking up m's id gives m; missions with other ids
      keep their places; the list grows only when the id was new. */
  lemma UpsertSpec(ms: seq<Mission>, m: Mission)
    ensures FindById(Upsert(ms, m), m.id) == Some(m)
    ensures |Upsert(ms, m)| == if IndexOfId(ms, m.id) >= 0 then |ms| else |ms| + 1
    ensures forall i :: 0 <= i < |ms| && ms[i].id != m.id ==> Upsert(ms, m)[i] == ms[i]
  {
    var r := Upsert(ms, m);
    FindByIdSpec(r, m.id);
    var i := IndexOfId(ms, m.id);
    if i < 0 {
      assert r[|ms|] == m;
      assert forall j :: 0 <= j < |ms| ==> r[j] == ms[j];
      assert IndexOfId(r, m.id) == |ms|;
    } else {
      assert forall j :: 0 <= j < i ==> r[j] == ms[j];
      assert r[i] == m;
      assert IndexOfId(r, m.id) == i;
    }
  }

  function WithoutId(ms: seq<Mission>, id: int): seq<Mission>
  {
    Filter(ms, (m: Mission) => m.id != id)
  }

  /** deleteMission removes every mission with the id and keeps the others
      in their order. */
  lemma DeleteSpec(ms: seq<Mission>, id: int)
    ensures FindById(WithoutId(ms, id), id) == None
    ensures IsSubsequence(WithoutId(ms, id), ms)
    ensures forall i :: 0 <= i < |ms| && ms[i].id != id ==> ms[i] in WithoutId(ms, id)
  {
    FilterIsSubsequence(ms, (m: Mission) => m.id != id);
    FindByIdSpec(WithoutId(ms, id), id);
  }

  // ---------------------------------------------------------------------
  // Statistics specification (ios-native/src/services/MissionService.ts:94-155).
  // Each sum runs over the missions in order, as the forEach does.

  predicate HoursTruthy(m: Mission)
  {
    m.totalFlightHours.Some? && m.totalFlightHours.value != 0.0
  }

  function Last<T>(s: seq<T>): T requires s != [] { s[|s| - 1] }
  function Init<T>(s: seq<T>): seq<T> requires s != [] { s[..|s| - 1] }

  function LegsOf(m: Mission): seq<FlightLeg>
  {
    if m.flightLegs.Some? then m.flightLegs.value else []
  }

  function RouteKey(leg: FlightLeg): string { leg.departure + "-" + leg.arrival }

  function LegRoutes(legs: seq<FlightLeg>): seq<string>
  {
    if legs == [] then [] else LegRoutes(Init(legs)) + [RouteKey(Last(legs))]
  }

  /** Only legs with a truthy distance count towards the distance total. */
  function LegDistance(legs: seq<FlightLeg>): real
  {
    if legs == [] then 0.0
    else
      var d := Last(legs).distanceNm;
      LegDistance(Init(legs)) + (if d.Some? && d.value != 0.0 then d.value else 0.0)
  }

  /** The running values of the forEach over the missions. */
  datatype Totals = Totals(
    hours: real, distance: real, cargo: real, pax: int, completed: nat, longest: real)

  /** What one mission adds: hours and the maximum only when its hours are
      truthy, mission-level cargo and pax, and the truthy leg distances. */
  function AddMission(t: Totals, m: Mission): Totals
  {
    var h := if HoursTruthy(m) then m.totalFlightHours.value else 0.0;
    Totals(
      t.hours + h,
      t.distance + LegDistance(LegsOf(m)),
      t.cargo + m.cargo,
      t.pax + m.pax,
      t.completed + (if m.status == "Completed" then 1 else 0),
      if HoursTruthy(m) && m.totalFlightHours.value > t.longest then m.totalFlightHours.value else t.longest)
  }

  function TotalsOf(ms: seq<Mission>): Totals
  {
    if ms == [] then Totals(0.0, 0.0, 0.0, 0, 0, 0.0) else AddMission(TotalsOf(Init(ms)), Last(ms))
  }

  function Routes(ms: seq<Mission>): seq<string>
  {
    if ms == [] then [] else Routes(Init(ms)) + LegRoutes(LegsOf(Last(ms)))
  }

  function StatisticsOf(ms: seq<Mission>): FlightStatistics
  {
    var t := TotalsOf(ms);
    FlightStatistics(
      t.hours, t.distance, t.cargo, t.pax, t.completed,
      if t.completed > 0 then t.hours / (t.completed as real) else 0.0,
      t.longest, RouteCounts.MostFrequentRoute(Routes(ms), NoRoute))
  }

  /** The longest flight is non-negative, at least every truthy total, and
      either 0 or one of them. */
  lemma {:induction false} LongestSpec(ms: seq<Mission>)
    ensures TotalsOf(ms).longest >= 0.0
    ensures forall i :: 0 <= i < |ms| && HoursTruthy(ms[i]) ==> ms[i].totalFlightHours.value <= TotalsOf(ms).longest
    ensures TotalsOf(ms).longest == 0.0 || exists i :: 0 <= i < |ms| && HoursTruthy(ms[i]) && ms[i].totalFlightHours.value == TotalsOf(ms).longest
  {
    if ms != [] {
      var init := Init(ms);
      LongestSpec(init);
      assert forall i :: 0 <= i < |init| ==> ms[i] == init[i];
      if TotalsOf(ms).longest != 0.0 && TotalsOf(ms).longest == TotalsOf(init).longest {
        var i :| 0 <= i < |init| && HoursTruthy(init[i]) && init[i].totalFlightHours.value == TotalsOf(init).longest;
        assert ms[i] == init[i];
      }
    }
  }

  /** The completed count never exceeds the number of missions. */
  lemma {:induction false} CompletedBounded(ms: seq<Mission>)
    ensures TotalsOf(ms).completed <= |ms|
  {
    if ms != [] {
      CompletedBounded(Init(ms));
    }
  }

  /** The average is the hours total over the completed count, and 0 with
      none completed. */
  lemma AverageSpec(ms: seq<Mission>)
    ensures TotalsOf(ms).completed == 0 ==> StatisticsOf(ms).averageFlightHours == 0.0
    ensures TotalsOf(ms).completed > 0 ==>
              StatisticsOf(ms).averageFlightHours * (TotalsOf(ms).completed as real) == TotalsOf(ms).hours
  {
  }

  /** The most frequent route is 'None' exactly when no mission has legs,
      and otherwise a route of some leg with a count no route exceeds. */
  lemma MostFrequentRouteSpec(ms: seq<Mission>)
    ensures Routes(ms) == [] ==> StatisticsOf(ms).mostFrequentRoute == NoRoute
    ensures Routes(ms) != [] ==>
              var best := StatisticsOf(ms).mostFrequentRoute;
              best in Routes(ms)
              && forall k :: RouteCounts.Occurrences(Routes(ms), k) <= RouteCounts.Occurrences(Routes(ms), best)
  {
    RouteCounts.MostFrequentRouteSpec(Routes(ms), NoRoute);
  }

  // ---------------------------------------------------------------------
  // The service.

  class MissionService {
    var missions: seq<Mission>
    var statistics: Option<FlightStatistics>

    constructor()
      ensures missions == [] && statistics == None
    {
      missions := [];
      statistics := None;
    }

    function GetAllMissions(): seq<Mission>
      reads this
    {
      missions
    }

    function GetMission(id: int): (r: Option<Mission>)
      reads this
      ensures r.Some? ==> r.value in missions && r.value.id == id
      ensures r.None? <==> forall i :: 0 <= i < |missions| ==> missions[i].id != id
    {
      FindByIdSpec(missions, id);
      FindById(missions, id)
    }

    method SaveMission(m: Mission)
      modifies this
      ensures missions == Upsert(old(missions), m)
      ensures statistics == old(statistics)
    {
      var existingIndex := IndexOfId(missions, m.id);
      if existingIndex >= 0 {
        missions := missions[existingIndex := m];
      } else {
        missions := missions + [m];
      }
    }

    method DeleteMission(id: int)
      modifies this
      ensures missions == WithoutId(old(missions), id)
      ensures statistics == old(statistics)
    {
      missions := WithoutId(missions, id);
    }

    /** The stored statistics, or the all-zero record with 'None'. */
    function GetStatistics(): (st: FlightStatistics)
      reads this
      ensures statistics.Some? ==> st == statistics.value
      ensures statistics.None? ==> st.totalFlightHours == 0.0 && st.totalDistanceNm == 0.0
                                   && st.totalCargoMoved == 0.0 && st.totalPaxMoved == 0
                                   && st.missionsCompleted == 0 && st.averageFlightHours == 0.0
                                   && st.longestFlight == 0.0 && st.mostFrequentRoute == "None"
    {
      if statistics.Some? then statistics.value else DefaultStatistics
    }

    /** updateStatistics: the argument is not used; everything is
        recomputed from the stored missions. */
    method UpdateStatistics(mission: Mission)
      modifies this
      ensures missions == old(missions)
      ensures statistics == Some(StatisticsOf(missions))
    {
      var ms := missions;
      var totalFlightHours := 0.0;
      var totalDistanceNm := 0.0;
      var totalCargoMoved := 0.0;
      var totalPaxMoved := 0;
      var missionsCompleted := 0;
      var longestFlight := 0.0;
      var keys: seq<string> := [];
      var freq: map<string, nat> := map[];
      ghost var routes: seq<string> := [];
      var i := 0;
      while i < |ms|
        invariant 0 <= i <= |ms|
        invariant missions == ms
        invariant Totals(totalFlightHours, totalDistanceNm, totalCargoMoved, totalPaxMoved,
                         missionsCompleted, longestFlight) == TotalsOf(ms[..i])
        invariant routes == Routes(ms[..i])
        invariant RouteCounts.Tallies(keys, freq, routes)
      {
        var m := ms[i];
        PrefixStep(ms, i);
        totalFlightHours, longestFlight, totalCargoMoved, totalPaxMoved, missionsCompleted :=
          CountMission(m, totalFlightHours, longestFlight, totalCargoMoved, totalPaxMoved, missionsCompleted);
        keys, freq, totalDistanceNm := TallyLegs(LegsOf(m), keys, freq, totalDistanceNm, routes);
        routes := routes + LegRoutes(LegsOf(m));
        i := i + 1;
      }
      assert ms[..i] == ms;
      var mostFrequentRoute := RouteCounts.PickMostFrequent(keys, freq, NoRoute, routes);
      var averageFlightHours := if missionsCompleted > 0 then totalFlightHours / (missionsCompleted as real) else 0.0;
      statistics := Some(FlightStatistics(
        totalFlightHours, totalDistanceNm, totalCargoMoved, totalPaxMoved, missionsCompleted,
        averageFlightHours, longestFlight, mostFrequentRoute));
    }
  }

  /** The mission-level part of one forEach step. */
  method CountMission(m: Mission, hours: real, longest: real, cargo: real, pax: int, completed: nat)
    returns (hours': real, longest': real, cargo': real, pax': int, completed': nat)
    ensures var t := AddMission(Totals(hours, 0.0, cargo, pax, completed, longest), m);
            hours' == t.hours && longest' == t.longest && cargo' == t.cargo && pax' == t.pax
            && completed' == t.completed
  {
    hours', longest', cargo', pax', completed' := hours, longest, cargo, pax, completed;
    if m.totalFlightHours.Some? && m.totalFlightHours.value != 0.0 {
      hours' := hours' + m.totalFlightHours.value;
      if m.totalFlightHours.value > longest' {
        longest' := m.totalFlightHours.value;
      }
    }
    cargo' := cargo' + m.cargo;
    pax' := pax' + m.pax;
    if m.status == "Completed" {
      completed' := completed' + 1;
    }
  }

  /** One step of each per-mission sum. */
  lemma PrefixStep(ms: seq<Mission>, i: nat)
    requires i < |ms|
    ensures var p := ms[..i + 1];
            && Init(p) == ms[..i] && Last(p) == ms[i]
  {
    assert ms[..i + 1][..i] == ms[..i];
  }

  /** The inner forEach over one mission's legs: count each route and add
      each truthy distance. */
  method TallyLegs(legs: seq<FlightLeg>, keys: seq<string>, freq: map<string, nat>, distance: real,
                   ghost routes: seq<string>)
    returns (keys': seq<string>, freq': map<string, nat>, distance': real)
    requires RouteCounts.Tallies(keys, freq, routes)
    ensures RouteCounts.Tallies(keys', freq', routes + LegRoutes(legs))
    ensures distance' == distance + LegDistance(legs)
  {
    keys', freq', distance' := keys, freq, distance;
    ghost var seen := routes;
    var j := 0;
    while j < |legs|
      invariant 0 <= j <= |legs|
      invariant seen == routes + LegRoutes(legs[..j])
      invariant distance' == distance + LegDistance(legs[..j])
      invariant RouteCounts.Tallies(keys', freq', seen)
    {
      var leg := legs[j];
      assert legs[..j + 1][..j] == legs[..j];
      var route := leg.departure + "-" + leg.arrival;
      keys', freq' := RouteCounts.Tally(keys', freq', route, seen);
      seen := seen + [route];
      if leg.distanceNm.Some? && leg.distanceNm.value != 0.0 {
        distance' := distance' + leg.distanceNm.value;
      }
      j := j + 1;
    }
    assert legs[..j] == legs;
  }
}
