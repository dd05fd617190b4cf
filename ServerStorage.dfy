/**
 * The server's database storage (server/storage.ts): flight statistics
 * over the flight-leg table, the user-profile accumulation, the
 * airport-visit upsert, leg creation, mission deletion and mission
 * extension. Each table is a sequence of rows in table order; `nextId`
 * stands for the serial key columns, and `now` for `new Date()`.
 */
module ServerStorage {
  import opened Common
  import RouteCounts

  datatype LegRow = LegRow(
    id: int, missionId: Option<int>, departureIcao: string, arrivalIcao: string,
    flightHours: Option<real>, distanceNm: Option<real>, pax: Option<int>, cargoWeight: Option<real>)

  datatype ChangeType = Extension | Reduction

  /** One entry of a mission's dateChangeHistory. */
  datatype DateChange = DateChange(
    oldDate: Option<int>, newDate: int, reason: string, changedBy: string, timestamp: int,
    changeType: ChangeType)

  datatype MissionRow = MissionRow(
    id: int, name: string, endDate: Option<int>, extensionReason: Option<string>,
    dateChangeHistory: Option<seq<DateChange>>, updatedAt: int)

  datatype ProfileRow = ProfileRow(
    id: int, userId: string, totalFlightHours: Option<real>, totalDistanceNm: Option<real>,
    totalCargoMoved: Option<real>, totalPaxMoved: Option<int>, missionsCompleted: Option<int>)

  datatype VisitRow = VisitRow(
    id: int, userId: string, icao: string, visitCount: Option<int>, firstVisit: int, lastVisit: int,
    totalFlightHours: Option<real>, totalCargo: Option<real>, totalPax: Option<int>)

  datatype FlightStatistics = FlightStatistics(
    totalFlightHours: real, totalDistanceNm: real, totalCargoMoved: real, totalPaxMoved: int,
    missionsCompleted: int, averageFlightHours: real, longestFlight: real, mostFrequentRoute: string)

  const ZeroStatistics := FlightStatistics(0.0, 0.0, 0.0, 0, 0, 0.0, 0.0, "")

  // ---------------------------------------------------------------------
  // getFlightStatistics (storage.ts:238-287).

  function RouteKey(leg: LegRow): (r: string)
    ensures r != ""
  {
    leg.departureIcao + "-" + leg.arrivalIcao
  }

  function LegRoutes(legs: seq<LegRow>): (r: seq<string>)
    ensures |r| == |legs|
    ensures forall i :: 0 <= i < |legs| ==> r[i] == RouteKey(legs[i])
  {
    if legs == [] then [] else LegRoutes(legs[..|legs| - 1]) + [RouteKey(legs[|legs| - 1])]
  }

  function SumHours(legs: seq<LegRow>): real
  {
    if legs == [] then 0.0 else SumHours(legs[..|legs| - 1]) + OrZero(legs[|legs| - 1].flightHours)
  }

  function SumDistance(legs: seq<LegRow>): real
  {
    if legs == [] then 0.0 else SumDistance(legs[..|legs| - 1]) + OrZero(legs[|legs| - 1].distanceNm)
  }

  function SumCargo(legs: seq<LegRow>): real
  {
    if legs == [] then 0.0 else SumCargo(legs[..|legs| - 1]) + OrZero(legs[|legs| - 1].cargoWeight)
  }

  function SumPax(legs: seq<LegRow>): int
  {
    if legs == [] then 0 else SumPax(legs[..|legs| - 1]) + OrZeroInt(legs[|legs| - 1].pax)
  }

  /** Math.max(...hours, 0) */
  function Longest(legs: seq<LegRow>): real
  {
    if legs == [] then 0.0
    else
      var prev := Longest(legs[..|legs| - 1]);
      var h := OrZero(legs[|legs| - 1].flightHours);
      if h > prev then h else prev
  }

  /** The longest flight is at least 0 and every leg's hours, and it is 0
      or one of them. */
  lemma {:induction false} LongestSpec(legs: seq<LegRow>)
    ensures Longest(legs) >= 0.0
    ensures forall i :: 0 <= i < |legs| ==> OrZero(legs[i].flightHours) <= Longest(legs)
    ensures Longest(legs) == 0.0 || exists i :: 0 <= i < |legs| && OrZero(legs[i].flightHours) == Longest(legs)
  {
    if legs != [] {
      var init := legs[..|legs| - 1];
      LongestSpec(init);
      assert forall i :: 0 <= i < |init| ==> legs[i] == init[i];
      if Longest(legs) != 0.0 && Longest(legs) == Longest(init) {
        var i :| 0 <= i < |init| && OrZero(init[i].flightHours) == Longest(init);
        assert legs[i] == init[i];
      }
    }
  }

  /** The first row of the profile table for the user. */
  function FirstProfile(profiles: seq<ProfileRow>, userId: string): (r: Option<ProfileRow>)
    ensures r.Some? ==> r.value in profiles && r.value.userId == userId
    ensures r.None? ==> forall i :: 0 <= i < |profiles| ==> profiles[i].userId != userId
  {
    if profiles == [] then None
    else if profiles[0].userId == userId then Some(profiles[0])
    else FirstProfile(profiles[1..], userId)
  }

  /** The statistics the source computes from the user's profile and every
      leg of the leg table. */
  function StatisticsOf(profile: Option<ProfileRow>, legs: seq<LegRow>): FlightStatistics
  {
    if profile.None? then ZeroStatistics
    else
      var total := SumHours(legs);
      FlightStatistics(total, SumDistance(legs), SumCargo(legs), SumPax(legs),
        OrZeroInt(profile.value.missionsCompleted),
        if |legs| > 0 then total / (|legs| as real) else 0.0,
        Longest(legs), RouteCounts.MostFrequentRoute(LegRoutes(legs), ""))
  }

  /** Without a profile everything is zero and the route is "". With one,
      the average times the leg count is the total, and the longest flight
      is at least 0 and bounds every leg. */
  lemma StatisticsTotalsSpec(profile: Option<ProfileRow>, legs: seq<LegRow>)
    ensures profile.None? ==> StatisticsOf(profile, legs) == ZeroStatistics
    ensures profile.Some? ==>
              var s := StatisticsOf(profile, legs);
              && (|legs| > 0 ==> IsAverage(s.averageFlightHours, s.totalFlightHours, |legs|))
              && (|legs| == 0 ==> s.averageFlightHours == 0.0 && s.totalFlightHours == 0.0)
              && s.longestFlight >= 0.0
              && (forall i :: 0 <= i < |legs| ==> OrZero(legs[i].flightHours) <= s.longestFlight)
  {
    LongestSpec(legs);
    if profile.Some? {
      StatisticsFields(profile.value, legs);
      if |legs| > 0 {
        AverageTimesCount(StatisticsOf(profile, legs), |legs|);
      }
    }
  }

  lemma StatisticsFields(profile: ProfileRow, legs: seq<LegRow>)
    ensures var s := StatisticsOf(Some(profile), legs);
            && s.totalFlightHours == SumHours(legs)
            && s.longestFlight == Longest(legs)
            && s.averageFlightHours == if |legs| > 0 then SumHours(legs) / (|legs| as real) else 0.0
  {
  }

  /** `avg` is the mean of `n` values whose sum is `total`. */
  predicate IsAverage(avg: real, total: real, n: nat)
  {
    avg * (n as real) == total
  }

  lemma AverageTimesCount(s: FlightStatistics, n: nat)
    requires n > 0 && s.averageFlightHours == s.totalFlightHours / (n as real)
    ensures IsAverage(s.averageFlightHours, s.totalFlightHours, n)
  {
  }

  /** With a profile, the most frequent route is "" exactly when there are
      no legs; otherwise it is a route of some leg that no other route
      outnumbers. */
  lemma StatisticsRouteSpec(profile: ProfileRow, legs: seq<LegRow>)
    ensures var best := StatisticsOf(Some(profile), legs).mostFrequentRoute;
            && (best == "" <==> legs == [])
            && (legs != [] ==>
                  (best in LegRoutes(legs)
                   && forall k :: RouteCounts.Occurrences(LegRoutes(legs), k)
                                  <= RouteCounts.Occurrences(LegRoutes(legs), best)))
  {
    RouteCounts.MostFrequentRouteSpec(LegRoutes(legs), "");
  }

  // ---------------------------------------------------------------------
  // updateFlightStatistics (storage.ts:289-310).

  /** `row` with the totals of `p` plus the leg's values. */
  function WithLegTotals(row: ProfileRow, p: ProfileRow, leg: LegRow): ProfileRow
  {
    row.(totalFlightHours := Some(OrZero(p.totalFlightHours) + OrZero(leg.flightHours)),
         totalDistanceNm := Some(OrZero(p.totalDistanceNm) + OrZero(leg.distanceNm)),
         totalCargoMoved := Some(OrZero(p.totalCargoMoved) + OrZero(leg.cargoWeight)),
         totalPaxMoved := Some(OrZeroInt(p.totalPaxMoved) + OrZeroInt(leg.pax)))
  }

  /** UPDATE user_profile SET ... WHERE user_id = userId */
  function ApplyLeg(table: seq<ProfileRow>, userId: string, p: ProfileRow, leg: LegRow): seq<ProfileRow>
  {
    seq(|table|, i requires 0 <= i < |table| =>
      if table[i].userId == userId then WithLegTotals(table[i], p, leg) else table[i])
  }

  function ZeroProfile(id: int, userId: string): ProfileRow
  {
    ProfileRow(id, userId, Some(0.0), Some(0.0), Some(0.0), Some(0), Some(0))
  }

  /** The profile table after a leg is added to the user's totals: a
      zeroed profile is inserted first when the user has none, and every
      row of the user receives the totals of the first one plus the leg. */
  function ProfilesAfterLeg(profiles: seq<ProfileRow>, userId: string, leg: LegRow, newId: int): seq<ProfileRow>
  {
    var before := FirstProfile(profiles, userId);
    if before.Some? then ApplyLeg(profiles, userId, before.value, leg)
    else ApplyLeg(profiles + [ZeroProfile(newId, userId)], userId, ZeroProfile(newId, userId), leg)
  }

  lemma {:induction false} FirstProfileAppend(profiles: seq<ProfileRow>, row: ProfileRow, userId: string)
    requires FirstProfile(profiles, userId).None?
    ensures FirstProfile(profiles + [row], userId) == if row.userId == userId then Some(row) else None
  {
    if profiles != [] {
      assert (profiles + [row])[1..] == profiles[1..] + [row];
      FirstProfileAppend(profiles[1..], row, userId);
    }
  }

  /** FirstProfile is the first row with that user id. */
  lemma {:induction false} FirstProfileIndex(profiles: seq<ProfileRow>, userId: string)
    requires FirstProfile(profiles, userId).Some?
    ensures exists k :: 0 <= k < |profiles| && profiles[k] == FirstProfile(profiles, userId).value
                        && forall i :: 0 <= i < k ==> profiles[i].userId != userId
  {
    if profiles[0].userId != userId {
      FirstProfileIndex(profiles[1..], userId);
      var k :| 0 <= k < |profiles[1..]| && profiles[1..][k] == FirstProfile(profiles[1..], userId).value
               && forall i :: 0 <= i < k ==> profiles[1..][i].userId != userId;
      assert profiles[k + 1] == FirstProfile(profiles, userId).value;
    } else {
      assert profiles[0] == FirstProfile(profiles, userId).value;
    }
  }

  /** A row-wise update that keeps every user id finds the same first row
      position. */
  lemma {:induction false} FirstProfileOfUpdate(table: seq<ProfileRow>, r: seq<ProfileRow>, userId: string)
    requires |r| == |table|
    requires forall i :: 0 <= i < |table| ==> r[i].userId == table[i].userId
    requires forall i :: 0 <= i < |table| && table[i].userId != userId ==> r[i] == table[i]
    ensures FirstProfile(table, userId).None? ==> FirstProfile(r, userId).None?
    ensures forall u :: u != userId ==> FirstProfile(r, u) == FirstProfile(table, u)
    ensures FirstProfile(table, userId).Some? ==> FirstProfile(r, userId).Some? && r[0].userId == userId ==> FirstProfile(r, userId) == Some(r[0])
  {
    if table != [] {
      FirstProfileOfUpdate(table[1..], r[1..], userId);
    }
  }

  /** The update leaves the first row of the user at its place with the
      new totals, and every other user's first row as it was. */
  lemma ApplyLegFirst(table: seq<ProfileRow>, userId: string, p: ProfileRow, leg: LegRow)
    requires FirstProfile(table, userId) == Some(p)
    ensures FirstProfile(ApplyLeg(table, userId, p, leg), userId) == Some(WithLegTotals(p, p, leg))
    ensures forall u :: u != userId ==> FirstProfile(ApplyLeg(table, userId, p, leg), u) == FirstProfile(table, u)
  {
    var r := ApplyLeg(table, userId, p, leg);
    FirstProfileOfUpdate(table, r, userId);
    FirstProfileIndex(table, userId);
    var k :| 0 <= k < |table| && table[k] == p
             && forall i :: 0 <= i < k ==> table[i].userId != userId;
    FirstProfileAt(r, userId, k);
  }

  /** The profile the totals are taken from: the user's first, or the
      zeroed one inserted for them. */
  function BaseProfile(profiles: seq<ProfileRow>, userId: string, newId: int): ProfileRow
  {
    var before := FirstProfile(profiles, userId);
    if before.Some? then before.value else ZeroProfile(newId, userId)
  }

  /** The table the update runs on holds the base profile as the user's
      first row, and every other user's first row as before. */
  lemma ProfileTableSpec(profiles: seq<ProfileRow>, userId: string, newId: int)
    ensures var table := if FirstProfile(profiles, userId).Some? then profiles else profiles + [ZeroProfile(newId, userId)];
            && FirstProfile(table, userId) == Some(BaseProfile(profiles, userId, newId))
            && forall u :: u != userId ==> FirstProfile(table, u) == FirstProfile(profiles, u)
  {
    if FirstProfile(profiles, userId).None? {
      var zeroed := ZeroProfile(newId, userId);
      FirstProfileAppend(profiles, zeroed, userId);
      forall u | u != userId
        ensures FirstProfile(profiles + [zeroed], u) == FirstProfile(profiles, u)
      {
        FirstProfileAppendOther(profiles, zeroed, u);
      }
    }
  }

  /** After a leg is added, the user's first profile holds the previous
      totals (0 when there was no profile) plus the leg's values. */
  lemma ProfilesAfterLegSpec(profiles: seq<ProfileRow>, userId: string, leg: LegRow, newId: int)
    ensures var base := BaseProfile(profiles, userId, newId);
            FirstProfile(ProfilesAfterLeg(profiles, userId, leg, newId), userId) == Some(WithLegTotals(base, base, leg))
    ensures FirstProfile(profiles, userId).None? ==>
              OrZero(BaseProfile(profiles, userId, newId).totalFlightHours) == 0.0
              && OrZeroInt(BaseProfile(profiles, userId, newId).totalPaxMoved) == 0
  {
    ProfileTableSpec(profiles, userId, newId);
    var base := BaseProfile(profiles, userId, newId);
    var table := if FirstProfile(profiles, userId).Some? then profiles else profiles + [ZeroProfile(newId, userId)];
    ApplyLegFirst(table, userId, base, leg);
  }

  /** Adding a leg to one user's totals leaves every other user's profile
      as it was. */
  lemma ProfilesAfterLegOthers(profiles: seq<ProfileRow>, userId: string, leg: LegRow, newId: int, u: string)
    requires u != userId
    ensures FirstProfile(ProfilesAfterLeg(profiles, userId, leg, newId), u) == FirstProfile(profiles, u)
  {
    ProfileTableSpec(profiles, userId, newId);
    var base := BaseProfile(profiles, userId, newId);
    var table := if FirstProfile(profiles, userId).Some? then profiles else profiles + [ZeroProfile(newId, userId)];
    ApplyLegFirst(table, userId, base, leg);
  }

  lemma {:induction false} FirstProfileAppendOther(profiles: seq<ProfileRow>, row: ProfileRow, u: string)
    requires row.userId != u
    ensures FirstProfile(profiles + [row], u) == FirstProfile(profiles, u)
  {
    if profiles == [] {
      assert FirstProfile([row], u) == FirstProfile([row][1..], u);
    } else {
      assert (profiles + [row])[1..] == profiles[1..] + [row];
      FirstProfileAppendOther(profiles[1..], row, u);
    }
  }

  /** The first row of the user is the one at `k` when no earlier row is
      theirs. */
  lemma {:induction false} FirstProfileAt(rows: seq<ProfileRow>, userId: string, k: nat)
    requires k < |rows| && rows[k].userId == userId
    requires forall i :: 0 <= i < k ==> rows[i].userId != userId
    ensures FirstProfile(rows, userId) == Some(rows[k])
  {
    if k > 0 {
      FirstProfileAt(rows[1..], userId, k - 1);
    }
  }

  // ---------------------------------------------------------------------
  // updateAirportVisit (storage.ts:333-360).

  datatype VisitData = VisitData(hours: real, cargo: real, pax: int)

  predicate IsVisitOf(row: VisitRow, userId: string, icao: string)
  {
    row.userId == userId && row.icao == icao
  }

  /** The position of the first row of (userId, icao). */
  function FirstVisitIndex(visits: seq<VisitRow>, userId: string, icao: string): (r: Option<nat>)
    ensures r.Some? ==> r.value < |visits| && IsVisitOf(visits[r.value], userId, icao)
                        && forall i :: 0 <= i < r.value ==> !IsVisitOf(visits[i], userId, icao)
    ensures r.None? ==> forall i :: 0 <= i < |visits| ==> !IsVisitOf(visits[i], userId, icao)
  {
    if visits == [] then None
    else if IsVisitOf(visits[0], userId, icao) then Some(0)
    else
      var r := FirstVisitIndex(visits[1..], userId, icao);
      if r.Some? then Some(r.value + 1) else None
  }

  /** The visit count of (userId, icao): that of its first row, 0 without
      one. */
  function VisitCount(visits: seq<VisitRow>, userId: string, icao: string): int
  {
    var k := FirstVisitIndex(visits, userId, icao);
    if k.Some? then OrZeroInt(visits[k.value].visitCount) else 0
  }

  predicate UniqueIds(visits: seq<VisitRow>)
  {
    forall i, j :: 0 <= i < j < |visits| ==> visits[i].id != visits[j].id
  }

  predicate IdsBelow(visits: seq<VisitRow>, n: int)
  {
    forall i :: 0 <= i < |visits| ==> visits[i].id < n
  }

  /** `row` with the counters of `existing` advanced by one visit. */
  function Bumped(row: VisitRow, existing: VisitRow, data: VisitData, now: int): VisitRow
  {
    row.(visitCount := Some(OrZeroInt(existing.visitCount) + 1), lastVisit := now,
         totalFlightHours := Some(OrZero(existing.totalFlightHours) + data.hours),
         totalCargo := Some(OrZero(existing.totalCargo) + data.cargo),
         totalPax := Some(OrZeroInt(existing.totalPax) + data.pax))
  }

  /** The visit a leg records at each of its airports: its hours, cargo and
      passengers, each `|| 0`. */
  function LegVisitData(leg: LegRow): VisitData
  {
    VisitData(OrZero(leg.flightHours), OrZero(leg.cargoWeight), OrZeroInt(leg.pax))
  }

  /** The visit table after one visit of `icao` by `userId`: the rows with
      the id of the first matching row are advanced, or a first row is
      inserted. */
  function VisitsAfter(visits: seq<VisitRow>, userId: string, icao: string, data: VisitData, now: int, newId: int)
    : seq<VisitRow>
  {
    var k := FirstVisitIndex(visits, userId, icao);
    if k.Some? then
      var existing := visits[k.value];
      seq(|visits|, i requires 0 <= i < |visits| =>
        if visits[i].id == existing.id then Bumped(visits[i], existing, data, now) else visits[i])
    else
      visits + [VisitRow(newId, userId, icao, Some(1), now, now, Some(data.hours), Some(data.cargo), Some(data.pax))]
  }

  /** Rows whose keys agree position by position have the same first rows. */
  lemma {:induction false} FirstVisitIndexSameKeys(a: seq<VisitRow>, b: seq<VisitRow>, userId: string, icao: string)
    requires |a| == |b|
    requires forall i :: 0 <= i < |a| ==> a[i].userId == b[i].userId && a[i].icao == b[i].icao
    ensures FirstVisitIndex(a, userId, icao) == FirstVisitIndex(b, userId, icao)
  {
    if a != [] {
      FirstVisitIndexSameKeys(a[1..], b[1..], userId, icao);
    }
  }

  lemma {:induction false} FirstVisitIndexAppend(visits: seq<VisitRow>, row: VisitRow, userId: string, icao: string)
    ensures FirstVisitIndex(visits, userId, icao).Some? ==>
              FirstVisitIndex(visits + [row], userId, icao) == FirstVisitIndex(visits, userId, icao)
    ensures FirstVisitIndex(visits, userId, icao).None? ==>
              FirstVisitIndex(visits + [row], userId, icao) == if IsVisitOf(row, userId, icao) then Some(|visits|) else None
  {
    if visits != [] {
      assert (visits + [row])[1..] == visits[1..] + [row];
      FirstVisitIndexAppend(visits[1..], row, userId, icao);
    }
  }

  /** One visit adds exactly one to the visit count of (userId, icao). */
  lemma VisitsAfterCount(visits: seq<VisitRow>, userId: string, icao: string, data: VisitData, now: int, newId: int)
    ensures VisitCount(VisitsAfter(visits, userId, icao, data, now, newId), userId, icao) == VisitCount(visits, userId, icao) + 1
  {
    var after := VisitsAfter(visits, userId, icao, data, now, newId);
    var k := FirstVisitIndex(visits, userId, icao);
    if k.Some? {
      FirstVisitIndexSameKeys(visits, after, userId, icao);
    } else {
      FirstVisitIndexAppend(visits, after[|visits|], userId, icao);
    }
  }

  /** With unique ids, a visit leaves every other (user, airport) count as
      it was. */
  lemma VisitsAfterOthers(visits: seq<VisitRow>, userId: string, icao: string, data: VisitData, now: int, newId: int,
                          u: string, c: string)
    requires UniqueIds(visits)
    requires u != userId || c != icao
    ensures VisitCount(VisitsAfter(visits, userId, icao, data, now, newId), u, c) == VisitCount(visits, u, c)
  {
    var after := VisitsAfter(visits, userId, icao, data, now, newId);
    var k := FirstVisitIndex(visits, userId, icao);
    if k.Some? {
      FirstVisitIndexSameKeys(visits, after, u, c);
      var j := FirstVisitIndex(visits, u, c);
      if j.Some? {
        assert j.value != k.value;
        assert visits[j.value].id != visits[k.value].id;
      }
    } else {
      FirstVisitIndexAppend(visits, after[|visits|], u, c);
    }
  }

  /** Ids stay unique when the new id is above every id in the table. */
  lemma VisitsAfterIds(visits: seq<VisitRow>, userId: string, icao: string, data: VisitData, now: int, newId: int)
    requires UniqueIds(visits) && IdsBelow(visits, newId)
    ensures UniqueIds(VisitsAfter(visits, userId, icao, data, now, newId))
    ensures IdsBelow(VisitsAfter(visits, userId, icao, data, now, newId), newId + 1)
  {
  }

  // ---------------------------------------------------------------------
  // deleteMission and extendMission (storage.ts:136-173).

  function FirstMission(missions: seq<MissionRow>, id: int): (r: Option<MissionRow>)
    ensures r.Some? <==> exists i :: 0 <= i < |missions| && missions[i].id == id
    ensures r.Some? ==> r.value.id == id
  {
    if missions == [] then None
    else if missions[0].id == id then Some(missions[0])
    else FirstMission(missions[1..], id)
  }

  /** The history entry for a change of end date: an extension when the new
      end is later than the old one, or than `now` when there is none. */
  function ChangeEntry(m: MissionRow, newEndDate: int, reason: string, now: int): DateChange
  {
    var previous := if m.endDate.Some? then m.endDate.value else now;
    DateChange(m.endDate, newEndDate, reason, "System", now,
      if newEndDate > previous then Extension else Reduction)
  }

  /** `mission.dateChangeHistory || []` */
  function HistoryOf(m: MissionRow): seq<DateChange>
  {
    if m.dateChangeHistory.Some? then m.dateChangeHistory.value else []
  }

  /** The mission table after updateMission(id, { endDate, extensionReason,
      dateChangeHistory }) with the history of the first row plus one
      entry. */
  function Extended(missions: seq<MissionRow>, m: MissionRow, newEndDate: int, reason: string, now: int)
    : seq<MissionRow>
  {
    var history := HistoryOf(m) + [ChangeEntry(m, newEndDate, reason, now)];
    seq(|missions|, i requires 0 <= i < |missions| =>
      if missions[i].id == m.id then
        missions[i].(endDate := Some(newEndDate), extensionReason := Some(reason),
                     dateChangeHistory := Some(history), updatedAt := now)
      else missions[i])
  }

  lemma {:induction false} FirstMissionOfExtended(missions: seq<MissionRow>, m: MissionRow, newEndDate: int, reason: string, now: int)
    requires FirstMission(missions, m.id) == Some(m)
    ensures FirstMission(Extended(missions, m, newEndDate, reason, now), m.id)
            == Some(m.(endDate := Some(newEndDate), extensionReason := Some(reason),
                       dateChangeHistory := Some(HistoryOf(m) + [ChangeEntry(m, newEndDate, reason, now)]),
                       updatedAt := now))
  {
    var r := Extended(missions, m, newEndDate, reason, now);
    if missions[0].id != m.id {
      assert r[1..] == Extended(missions[1..], m, newEndDate, reason, now);
      FirstMissionOfExtended(missions[1..], m, newEndDate, reason, now);
    }
  }

  /** Extending a mission sets its end date and appends exactly one history
      entry, typed by the direction of the change. */
  lemma ExtendSpec(missions: seq<MissionRow>, m: MissionRow, newEndDate: int, reason: string, now: int)
    requires FirstMission(missions, m.id) == Some(m)
    ensures var after := FirstMission(Extended(missions, m, newEndDate, reason, now), m.id);
            && after.Some? && after.value.endDate == Some(newEndDate)
            && after.value.extensionReason == Some(reason)
            && |HistoryOf(after.value)| == |HistoryOf(m)| + 1
            && HistoryOf(after.value)[..|HistoryOf(m)|] == HistoryOf(m)
            && var entry := HistoryOf(after.value)[|HistoryOf(m)|];
               entry.oldDate == m.endDate && entry.newDate == newEndDate
               && (entry.changeType == Extension <==>
                     newEndDate > (if m.endDate.Some? then m.endDate.value else now))
  {
    FirstMissionOfExtended(missions, m, newEndDate, reason, now);
    var h := HistoryOf(m) + [ChangeEntry(m, newEndDate, reason, now)];
    assert h[..|HistoryOf(m)|] == HistoryOf(m);
  }

  /** A delete of the mission rows with `id` removes some row exactly when
      one has that id. */
  lemma {:induction false} DeleteRemovesIff(missions: seq<MissionRow>, id: int)
    ensures |Filter(missions, (m: MissionRow) => m.id != id)| < |missions|
            <==> exists i :: 0 <= i < |missions| && missions[i].id == id
  {
    if missions != [] {
      DeleteRemovesIff(missions[1..], id);
      if missions[0].id != id {
        if exists i :: 0 <= i < |missions[1..]| && missions[1..][i].id == id {
          var i :| 0 <= i < |missions[1..]| && missions[1..][i].id == id;
          assert missions[i + 1].id == id;
        }
        if exists i :: 0 <= i < |missions| && missions[i].id == id {
          var i :| 0 <= i < |missions| && missions[i].id == id;
          assert missions[1..][i - 1].id == id;
        }
      }
    }
  }

  // ---------------------------------------------------------------------
  // The storage object.

  class DatabaseStorage {
    var missions: seq<MissionRow>
    var flightLegs: seq<LegRow>
    var profiles: seq<ProfileRow>
    var airportVisits: seq<VisitRow>
    /** The next value of the serial key columns. */
    var nextId: int

    ghost predicate Valid()
      reads this
    {
      UniqueIds(airportVisits) && IdsBelow(airportVisits, nextId)
    }

    constructor()
      ensures Valid()
      ensures missions == [] && flightLegs == [] && profiles == [] && airportVisits == []
    {
      missions, flightLegs, profiles, airportVisits := [], [], [], [];
      nextId := 1;
    }

    /** getFlightStatistics: the route frequencies are counted in a Map in
        leg order, and the entries scanned for the first strictly largest
        count. */
    method GetFlightStatistics(userId: string) returns (stats: FlightStatistics)
      ensures stats == StatisticsOf(FirstProfile(profiles, userId), flightLegs)
    {
      var profile := FirstProfile(profiles, userId);
      var userLegs := flightLegs;
      if profile.None? {
        return ZeroStatistics;
      }
      var keys: seq<string> := [];
      var freq: map<string, nat> := map[];
      var i := 0;
      while i < |userLegs|
        invariant 0 <= i <= |userLegs|
        invariant RouteCounts.Tallies(keys, freq, LegRoutes(userLegs[..i]))
      {
        assert userLegs[..i + 1][..i] == userLegs[..i];
        var route := userLegs[i].departureIcao + "-" + userLegs[i].arrivalIcao;
        keys, freq := RouteCounts.Tally(keys, freq, route, LegRoutes(userLegs[..i]));
        i := i + 1;
      }
      assert userLegs[..i] == userLegs;
      var mostFrequentRoute := RouteCounts.PickMostFrequent(keys, freq, "", LegRoutes(userLegs));
      var totalFlightHours := SumHours(userLegs);
      stats := FlightStatistics(totalFlightHours, SumDistance(userLegs), SumCargo(userLegs), SumPax(userLegs),
        OrZeroInt(profile.value.missionsCompleted),
        if |userLegs| > 0 then totalFlightHours / (|userLegs| as real) else 0.0,
        Longest(userLegs), mostFrequentRoute);
    }

    /** updateFlightStatistics: a zeroed profile is created when the user has
        none; then the user's totals gain the leg's values. */
    method UpdateFlightStatistics(userId: string, leg: LegRow)
      requires Valid()
      modifies this
      ensures Valid()
      ensures profiles == ProfilesAfterLeg(old(profiles), userId, leg, old(nextId))
      ensures missions == old(missions) && flightLegs == old(flightLegs) && airportVisits == old(airportVisits)
    {
      var profile := FirstProfile(profiles, userId);
      if profile.None? {
        var created := ZeroProfile(nextId, userId);
        profiles := profiles + [created];
        nextId := nextId + 1;
        profile := Some(created);
      }
      var p := profile.value;
      profiles := ApplyLeg(profiles, userId, p, leg);
    }

    /** updateAirportVisit. One counter hands out the ids of every table; it
        advances on every call, which only keeps ids fresh: a skipped value
        is never observed. */
    method UpdateAirportVisit(userId: string, icao: string, data: VisitData, now: int)
      requires Valid()
      modifies this
      ensures Valid()
      ensures airportVisits == VisitsAfter(old(airportVisits), userId, icao, data, now, old(nextId))
      ensures nextId == old(nextId) + 1
      ensures missions == old(missions) && flightLegs == old(flightLegs) && profiles == old(profiles)
    {
      VisitsAfterIds(airportVisits, userId, icao, data, now, nextId);
      var k := FirstVisitIndex(airportVisits, userId, icao);
      if k.Some? {
        var visits := airportVisits;
        var existing := visits[k.value];
        airportVisits := seq(|visits|, i requires 0 <= i < |visits| =>
          if visits[i].id == existing.id then Bumped(visits[i], existing, data, now) else visits[i]);
      } else {
        airportVisits := airportVisits + [VisitRow(nextId, userId, icao, Some(1), now, now,
                                                   Some(data.hours), Some(data.cargo), Some(data.pax))];
      }
      nextId := nextId + 1;
    }

    /** createFlightLeg: the leg row is inserted, then its departure and its
        arrival each count as a visit by 'system', carrying the leg's hours,
        cargo and passengers (`|| 0`); other users' visits are untouched. */
    method CreateFlightLeg(leg: LegRow, now: int) returns (row: LegRow)
      requires Valid()
      modifies this
      ensures Valid()
      ensures row == leg.(id := old(nextId))
      ensures flightLegs == old(flightLegs) + [row]
      ensures airportVisits
              == VisitsAfter(VisitsAfter(old(airportVisits), "system", leg.departureIcao, LegVisitData(leg), now,
                                         old(nextId) + 1),
                             "system", leg.arrivalIcao, LegVisitData(leg), now, old(nextId) + 2)
      ensures forall x :: VisitCount(airportVisits, "system", x)
                == VisitCount(old(airportVisits), "system", x)
                   + (if leg.departureIcao == x then 1 else 0) + (if leg.arrivalIcao == x then 1 else 0)
      ensures forall u, x :: u != "system" ==> VisitCount(airportVisits, u, x) == VisitCount(old(airportVisits), u, x)
      ensures nextId == old(nextId) + 3
      ensures missions == old(missions) && profiles == old(profiles)
    {
      row := leg.(id := nextId);
      flightLegs := flightLegs + [row];
      nextId := nextId + 1;
      var data := LegVisitData(leg);
      LegVisitCounts(airportVisits, leg.departureIcao, leg.arrivalIcao, data, now, nextId);
      UpdateAirportVisit("system", leg.departureIcao, data, now);
      UpdateAirportVisit("system", leg.arrivalIcao, data, now);
    }

    /** deleteMission: the mission's legs go first, then its rows; the
        answer is whether a mission row was removed. */
    method DeleteMission(id: int) returns (deleted: bool)
      modifies this
      ensures deleted <==> exists i :: 0 <= i < |old(missions)| && old(missions)[i].id == id
      ensures flightLegs == Filter(old(flightLegs), (l: LegRow) => l.missionId != Some(id))
      ensures missions == Filter(old(missions), (m: MissionRow) => m.id != id)
      ensures profiles == old(profiles) && airportVisits == old(airportVisits) && nextId == old(nextId)
    {
      flightLegs := Filter(flightLegs, (l: LegRow) => l.missionId != Some(id));
      var before := |missions|;
      DeleteRemovesIff(missions, id);
      missions := Filter(missions, (m: MissionRow) => m.id != id);
      deleted := before - |missions| > 0;
    }

    /** extendMission: undefined for an unknown id; otherwise the mission
        row as updated. */
    method ExtendMission(id: int, newEndDate: int, reason: string, now: int) returns (r: Option<MissionRow>)
      modifies this
      ensures FirstMission(old(missions), id).None? ==> r.None? && missions == old(missions)
      ensures FirstMission(old(missions), id).Some? ==>
                missions == Extended(old(missions), FirstMission(old(missions), id).value, newEndDate, reason, now)
                && r == FirstMission(missions, id)
      ensures flightLegs == old(flightLegs) && profiles == old(profiles) && airportVisits == old(airportVisits)
      ensures nextId == old(nextId)
    {
      var mission := FirstMission(missions, id);
      if mission.None? {
        return None;
      }
      var m := mission.value;
      var dateChangeHistory := HistoryOf(m);
      dateChangeHistory := dateChangeHistory + [ChangeEntry(m, newEndDate, reason, now)];
      var rows := missions;
      missions := seq(|rows|, i requires 0 <= i < |rows| =>
        if rows[i].id == id then
          rows[i].(endDate := Some(newEndDate), extensionReason := Some(reason),
                   dateChangeHistory := Some(dateChangeHistory), updatedAt := now)
        else rows[i]);
      r := FirstMission(missions, id);
    }
  }

  /** Two 'system' visits, one per airport of a leg: each airport's count
      grows by one per time it is named, and other users' counts stay. */
  lemma LegVisitCounts(visits: seq<VisitRow>, dep: string, arr: string, data: VisitData, now: int, id: int)
    requires UniqueIds(visits) && IdsBelow(visits, id)
    ensures var after := VisitsAfter(VisitsAfter(visits, "system", dep, data, now, id), "system", arr, data, now, id + 1);
            && (forall x :: VisitCount(after, "system", x)
                  == VisitCount(visits, "system", x) + (if dep == x then 1 else 0) + (if arr == x then 1 else 0))
            && (forall u, x :: u != "system" ==> VisitCount(after, u, x) == VisitCount(visits, u, x))
  {
    var mid := VisitsAfter(visits, "system", dep, data, now, id);
    VisitsAfterIds(visits, "system", dep, data, now, id);
    forall x
      ensures VisitCount(VisitsAfter(mid, "system", arr, data, now, id + 1), "system", x)
              == VisitCount(visits, "system", x) + (if dep == x then 1 else 0) + (if arr == x then 1 else 0)
    {
      VisitCountStep(visits, "system", dep, data, now, id, x);
      VisitCountStep(mid, "system", arr, data, now, id + 1, x);
    }
    forall u, x | u != "system"
      ensures VisitCount(VisitsAfter(mid, "system", arr, data, now, id + 1), u, x) == VisitCount(visits, u, x)
    {
      VisitsAfterOthers(visits, "system", dep, data, now, id, u, x);
      VisitsAfterOthers(mid, "system", arr, data, now, id + 1, u, x);
    }
  }

  lemma VisitCountStep(visits: seq<VisitRow>, userId: string, icao: string, data: VisitData, now: int, newId: int, x: string)
    requires UniqueIds(visits)
    ensures VisitCount(VisitsAfter(visits, userId, icao, data, now, newId), userId, x)
            == VisitCount(visits, userId, x) + (if icao == x then 1 else 0)
  {
    if icao == x {
      VisitsAfterCount(visits, userId, icao, data, now, newId);
    } else {
      VisitsAfterOthers(visits, userId, icao, data, now, newId, userId, x);
    }
  }
}
