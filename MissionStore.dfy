/**
 * The client's mission store (client/src/lib/mission-store.ts): the mission
 * list, its derived statistics, and the actions that replace the list. The
 * HTTP calls are parameters: the outcome of the DELETE request, and the
 * decoded reply of GET /api/missions (None when the request fails).
 */
module MissionStore {
  import opened Common

  datatype StoreLeg = StoreLeg(
    id: string, legNumber: int, departure: string, arrival: string,
    departureTime: string, arrivalTime: string, flightHours: real, distanceNm: real,
    tailNumber: string, remarks: string, pax: int, cargo: real)

  /** `totalFlightHours` and `aircraftType` are optional in the store. */
  datatype Mission = Mission(
    id: int, missionNumber: string, missionType: string, status: string, dateRange: string,
    legs: int, pax: int, cargo: real, aircraftType: Option<string>, createdAt: string,
    flightLegs: Option<seq<StoreLeg>>, totalFlightHours: Option<real>)

  datatype MissionStats = MissionStats(
    totalMissions: nat, totalLegs: int, totalPax: int, totalCargo: real, totalFlightHours: real,
    inProgress: nat, completed: nat, planning: nat, uniqueAircraft: nat)

  // ---------------------------------------------------------------------
  // calculateMissionStats (client/src/lib/mission-store.ts:62-74).

  function SumLegs(ms: seq<Mission>): int
  {
    if ms == [] then 0 else ms[0].legs + SumLegs(ms[1..])
  }

  function SumPax(ms: seq<Mission>): int
  {
    if ms == [] then 0 else ms[0].pax + SumPax(ms[1..])
  }

  function SumCargo(ms: seq<Mission>): real
  {
    if ms == [] then 0.0 else ms[0].cargo + SumCargo(ms[1..])
  }

  /** `mission.totalFlightHours || 0` */
  function HoursOrZero(m: Mission): real
  {
    if m.totalFlightHours.Some? then m.totalFlightHours.value else 0.0
  }

  function SumHours(ms: seq<Mission>): real
  {
    if ms == [] then 0.0 else HoursOrZero(ms[0]) + SumHours(ms[1..])
  }

  function CountStatus(ms: seq<Mission>, status: string): nat
  {
    Count(ms, (m: Mission) => m.status == status)
  }

  /** A truthy aircraft type: present and not empty. */
  predicate HasAircraft(m: Mission)
  {
    m.aircraftType.Some? && m.aircraftType.value != ""
  }

  /** new Set(missions.map(m => m.aircraftType).filter(Boolean)) */
  function AircraftSet(ms: seq<Mission>): set<string>
  {
    if ms == [] then {}
    else (if HasAircraft(ms[0]) then {ms[0].aircraftType.value} else {}) + AircraftSet(ms[1..])
  }

  function CalculateMissionStats(ms: seq<Mission>): MissionStats
  {
    MissionStats(|ms|, SumLegs(ms), SumPax(ms), SumCargo(ms), SumHours(ms),
                 CountStatus(ms, "In Progress"), CountStatus(ms, "Completed"),
                 CountStatus(ms, "Planning"), |AircraftSet(ms)|)
  }

  const EmptyStats: MissionStats := MissionStats(0, 0, 0, 0.0, 0.0, 0, 0, 0, 0)

  /** The aircraft set holds exactly the truthy aircraft types of the list,
      so it has no more members than the list has missions. */
  lemma {:induction false} AircraftSetSpec(ms: seq<Mission>)
    ensures |AircraftSet(ms)| <= |ms|
    ensures forall a :: a in AircraftSet(ms) <==> exists i :: 0 <= i < |ms| && HasAircraft(ms[i]) && ms[i].aircraftType.value == a
  {
    if ms != [] {
      AircraftSetSpec(ms[1..]);
      forall a | a in AircraftSet(ms[1..])
        ensures exists i :: 0 <= i < |ms| && HasAircraft(ms[i]) && ms[i].aircraftType.value == a
      {
        var j :| 0 <= j < |ms[1..]| && HasAircraft(ms[1..][j]) && ms[1..][j].aircraftType.value == a;
        assert ms[j + 1] == ms[1..][j];
      }
      forall a, i | 0 <= i < |ms| && HasAircraft(ms[i]) && ms[i].aircraftType.value == a
        ensures a in AircraftSet(ms)
      {
        if i > 0 {
          assert ms[1..][i - 1] == ms[i];
        }
      }
    }
  }

  /** The three status counts together never exceed the number of missions. */
  lemma {:induction false} StatusCountsBounded(ms: seq<Mission>)
    ensures CountStatus(ms, "In Progress") + CountStatus(ms, "Completed") + CountStatus(ms, "Planning") <= |ms|
  {
    if ms != [] {
      StatusCountsBounded(ms[1..]);
    }
  }

  lemma {:induction false} SumsAppend(ms: seq<Mission>, m: Mission)
    ensures SumLegs(ms + [m]) == SumLegs(ms) + m.legs
    ensures SumPax(ms + [m]) == SumPax(ms) + m.pax
    ensures SumCargo(ms + [m]) == SumCargo(ms) + m.cargo
    ensures SumHours(ms + [m]) == SumHours(ms) + HoursOrZero(m)
  {
    if ms == [] {
      assert [] + [m] == [m];
    } else {
      assert (ms + [m])[1..] == ms[1..] + [m];
      SumsAppend(ms[1..], m);
    }
  }

  /** Appending a mission adds one to the count and its own legs, pax,
      cargo and hours to the totals. */
  lemma AddedMissionStats(ms: seq<Mission>, m: Mission)
    ensures var before := CalculateMissionStats(ms);
            var after := CalculateMissionStats(ms + [m]);
            && after.totalMissions == before.totalMissions + 1
            && after.totalLegs == before.totalLegs + m.legs
            && after.totalPax == before.totalPax + m.pax
            && after.totalCargo == before.totalCargo + m.cargo
            && after.totalFlightHours == before.totalFlightHours + HoursOrZero(m)
  {
    SumsAppend(ms, m);
  }

  // ---------------------------------------------------------------------
  // Partial updates: `{ ...mission, ...updates }`.

  datatype MissionUpdate = MissionUpdate(
    id: Option<int>, missionNumber: Option<string>, missionType: Option<string>,
    status: Option<string>, dateRange: Option<string>, legs: Option<int>, pax: Option<int>,
    cargo: Option<real>, aircraftType: Option<Option<string>>, createdAt: Option<string>,
    flightLegs: Option<Option<seq<StoreLeg>>>, totalFlightHours: Option<Option<real>>)

  function Pick<T>(update: Option<T>, current: T): T
  {
    if update.Some? then update.value else current
  }

  function Merge(m: Mission, u: MissionUpdate): Mission
  {
    Mission(Pick(u.id, m.id), Pick(u.missionNumber, m.missionNumber), Pick(u.missionType, m.missionType),
            Pick(u.status, m.status), Pick(u.dateRange, m.dateRange), Pick(u.legs, m.legs),
            Pick(u.pax, m.pax), Pick(u.cargo, m.cargo), Pick(u.aircraftType, m.aircraftType),
            Pick(u.createdAt, m.createdAt), Pick(u.flightLegs, m.flightLegs),
            Pick(u.totalFlightHours, m.totalFlightHours))
  }

  /** An empty update changes nothing, and a field is changed only by an
      update that names it. */
  lemma MergeSpec(m: Mission, u: MissionUpdate)
    ensures u == MissionUpdate(None, None, None, None, None, None, None, None, None, None, None, None)
            ==> Merge(m, u) == m
    ensures var r := Merge(m, u);
            && (if u.id.Some? then r.id == u.id.value else r.id == m.id)
            && (if u.missionNumber.Some? then r.missionNumber == u.missionNumber.value
                else r.missionNumber == m.missionNumber)
            && (if u.missionType.Some? then r.missionType == u.missionType.value
                else r.missionType == m.missionType)
            && (if u.status.Some? then r.status == u.status.value else r.status == m.status)
            && (if u.dateRange.Some? then r.dateRange == u.dateRange.value else r.dateRange == m.dateRange)
            && (if u.legs.Some? then r.legs == u.legs.value else r.legs == m.legs)
            && (if u.pax.Some? then r.pax == u.pax.value else r.pax == m.pax)
            && (if u.cargo.Some? then r.cargo == u.cargo.value else r.cargo == m.cargo)
            && (if u.aircraftType.Some? then r.aircraftType == u.aircraftType.value
                else r.aircraftType == m.aircraftType)
            && (if u.createdAt.Some? then r.createdAt == u.createdAt.value else r.createdAt == m.createdAt)
            && (if u.flightLegs.Some? then r.flightLegs == u.flightLegs.value
                else r.flightLegs == m.flightLegs)
            && (if u.totalFlightHours.Some? then r.totalFlightHours == u.totalFlightHours.value
                else r.totalFlightHours == m.totalFlightHours)
  {
  }

  // ---------------------------------------------------------------------
  // fetchMissions conversion (client/src/lib/mission-store.ts:146-174).

  datatype ApiLeg = ApiLeg(
    id: Option<int>, departureIcao: Option<string>, arrivalIcao: Option<string>,
    departureTime: Option<string>, arrivalTime: Option<string>, flightHours: Option<real>,
    distanceNm: Option<real>, tailNumber: Option<string>, specialHandling: Option<string>,
    pax: Option<int>, cargoWeight: Option<real>, aircraftType: Option<string>)

  datatype ApiMission = ApiMission(
    id: int, name: Option<string>, missionType: Option<string>, status: Option<string>,
    startDate: Option<string>, endDate: Option<string>, legs: Option<seq<ApiLeg>>,
    createdAt: Option<string>)

  function SumLegPax(legs: seq<ApiLeg>): int
  {
    if legs == [] then 0 else OrZeroInt(legs[0].pax) + SumLegPax(legs[1..])
  }

  function SumLegCargo(legs: seq<ApiLeg>): real
  {
    if legs == [] then 0.0 else OrZero(legs[0].cargoWeight) + SumLegCargo(legs[1..])
  }

  function SumLegHours(legs: seq<ApiLeg>): real
  {
    if legs == [] then 0.0 else OrZero(legs[0].flightHours) + SumLegHours(legs[1..])
  }

  /** One API leg in the store's shape; `nowText` is Date.now() as text. */
  function ConvertLeg(leg: ApiLeg, nowText: string): StoreLeg
  {
    StoreLeg(
      if leg.id.Some? then IntToString(leg.id.value) else "leg-" + nowText,
      if leg.id.Some? && leg.id.value != 0 then leg.id.value else 1,
      OrText(leg.departureIcao, ""), OrText(leg.arrivalIcao, ""),
      OrText(leg.departureTime, ""), OrText(leg.arrivalTime, ""),
      OrZero(leg.flightHours), OrZero(leg.distanceNm), OrText(leg.tailNumber, ""),
      OrText(leg.specialHandling, ""), OrZeroInt(leg.pax), OrZero(leg.cargoWeight))
  }

  /** One API mission in the store's shape. `formatRange` is the locale
      date formatting, `nowIso` and `nowText` the current time. */
  function ConvertMission(m: ApiMission, formatRange: (string, string) -> string,
                          nowIso: string, nowText: string): Mission
  {
    var legs := if m.legs.Some? then m.legs.value else [];
    Mission(
      m.id,
      OrText(m.name, "AMC-" + IntToString(m.id)),
      OrText(m.missionType, "TDY"),
      OrText(m.status, "Planning"),
      if m.startDate.Some? && m.startDate.value != "" && m.endDate.Some? && m.endDate.value != ""
      then formatRange(m.startDate.value, m.endDate.value) else "TBD",
      |legs|, SumLegPax(legs), SumLegCargo(legs),
      if |legs| > 0 && legs[0].aircraftType.Some? && legs[0].aircraftType.value != ""
      then Some(legs[0].aircraftType.value) else None,
      OrText(m.createdAt, nowIso),
      Some(seq(|legs|, i requires 0 <= i < |legs| => ConvertLeg(legs[i], nowText))),
      Some(SumLegHours(legs)))
  }

  /** The converted mission counts the API legs, sums their pax, cargo and
      hours with missing values as 0, keeps every leg in order, and names a
      mission without a name "AMC-<id>". */
  lemma ConvertMissionSpec(m: ApiMission, formatRange: (string, string) -> string, nowIso: string, nowText: string)
    ensures var c := ConvertMission(m, formatRange, nowIso, nowText);
            var legs := if m.legs.Some? then m.legs.value else [];
            && c.id == m.id
            && c.legs == |legs| && c.pax == SumLegPax(legs) && c.cargo == SumLegCargo(legs)
            && c.totalFlightHours == Some(SumLegHours(legs))
            && c.flightLegs.Some? && |c.flightLegs.value| == |legs|
            && (forall i :: 0 <= i < |legs| ==> c.flightLegs.value[i].pax == OrZeroInt(legs[i].pax))
            && (m.name.None? || m.name == Some("") ==> c.missionNumber == "AMC-" + IntToString(m.id))
            && (m.legs.None? ==> c.legs == 0 && c.pax == 0 && c.aircraftType.None?)
  {
    var c := ConvertMission(m, formatRange, nowIso, nowText);
    var legs := if m.legs.Some? then m.legs.value else [];
    assert c.flightLegs.value == seq(|legs|, i requires 0 <= i < |legs| => ConvertLeg(legs[i], nowText));
  }

  // ---------------------------------------------------------------------
  // The store.

  class Store {
    var missions: seq<Mission>
    var stats: MissionStats
    var isLoading: bool

    /** Every action that replaces the list recomputes the statistics. */
    ghost predicate Valid()
      reads this
    {
      stats == CalculateMissionStats(missions)
    }

    constructor()
      ensures Valid() && missions == [] && stats == EmptyStats && !isLoading
    {
      missions := [];
      stats := EmptyStats;
      isLoading := false;
    }

    method SetMissions(ms: seq<Mission>)
      modifies this
      ensures Valid() && missions == ms && isLoading == old(isLoading)
    {
      var s := CalculateMissionStats(ms);
      missions, stats := ms, s;
    }

    /** Every mission with the id gets the updates; the others, the order
        and the length are kept. */
    method UpdateMission(id: int, updates: MissionUpdate)
      modifies this
      ensures Valid() && isLoading == old(isLoading)
      ensures |missions| == |old(missions)|
      ensures forall i :: 0 <= i < |missions| ==>
                missions[i] == if old(missions)[i].id == id then Merge(old(missions)[i], updates) else old(missions)[i]
    {
      var ms := seq(|missions|, i requires 0 <= i < |missions| reads this =>
                      if missions[i].id == id then Merge(missions[i], updates) else missions[i]);
      SetMissions(ms);
    }

    method AddMission(m: Mission)
      modifies this
      ensures Valid() && isLoading == old(isLoading)
      ensures missions == old(missions) + [m]
    {
      SetMissions(missions + [m]);
    }

    /** `deleted` is the outcome of the DELETE request: Some(true) for an ok
        response, Some(false) for an error status, None when fetch threw. */
    method DeleteMission(id: int, deleted: Option<bool>) returns (ok: bool)
      requires Valid()
      modifies this
      ensures Valid() && isLoading == old(isLoading)
      ensures ok <==> deleted == Some(true)
      ensures ok ==> missions == WithoutId(old(missions), id)
      ensures !ok ==> missions == old(missions)
    {
      if deleted == Some(true) {
        SetMissions(WithoutId(missions, id));
        return true;
      }
      return false;
    }

    method SetLoading(loading: bool)
      modifies this
      ensures missions == old(missions) && stats == old(stats) && isLoading == loading
    {
      isLoading := loading;
    }

    method CalculateStats()
      modifies this
      ensures Valid() && missions == old(missions) && isLoading == old(isLoading)
    {
      stats := CalculateMissionStats(missions);
    }

    /** fetchMissions: a reply replaces the list with its conversion, any
        failure empties it; loading ends either way. */
    method FetchMissions(reply: Option<seq<ApiMission>>, formatRange: (string, string) -> string,
                         nowIso: string, nowText: string)
      modifies this
      ensures Valid() && !isLoading
      ensures reply.None? ==> missions == [] && stats == EmptyStats
      ensures reply.Some? ==>
                && |missions| == |reply.value|
                && forall i :: 0 <= i < |missions| ==>
                     missions[i] == ConvertMission(reply.value[i], formatRange, nowIso, nowText)
    {
      isLoading := true;
      if reply.Some? {
        var api := reply.value;
        var ms := seq(|api|, i requires 0 <= i < |api| => ConvertMission(api[i], formatRange, nowIso, nowText));
        SetMissions(ms);
      } else {
        SetMissions([]);
      }
      isLoading := false;
    }
  }

  /** missions.filter(m => m.id !== id) */
  function WithoutId(ms: seq<Mission>, id: int): seq<Mission>
  {
    Filter(ms, (m: Mission) => m.id != id)
  }

  /** Deleting keeps exactly the missions with other ids, in order. */
  lemma DeleteKeepsOthers(ms: seq<Mission>, id: int)
    ensures IsSubsequence(WithoutId(ms, id), ms)
    ensures forall i :: 0 <= i < |WithoutId(ms, id)| ==> WithoutId(ms, id)[i].id != id
    ensures forall i :: 0 <= i < |ms| && ms[i].id != id ==> ms[i] in WithoutId(ms, id)
  {
    FilterIsSubsequence(ms, (m: Mission) => m.id != id);
  }
}
