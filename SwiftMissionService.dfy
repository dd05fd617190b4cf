/**
 * The SwiftUI app's mission service (swift-ios-app/AMCMissionTracker/
 * Services/MissionService.swift): the published mission array, its
 * add / update / delete / lookup operations, and the statistics getters.
 * UserDefaults is the `stored` argument of the initialiser; saving is not
 * modelled.
 */
module SwiftMissionService {
  import opened Common
  import opened SwiftModels

  /** missions.firstIndex(where: { $0.id == id }) */
  function FirstIndex(ms: seq<Mission>, id: Uuid): (r: Option<nat>)
    ensures r.Some? ==> r.value < |ms| && ms[r.value].id == id && forall i :: 0 <= i < r.value ==> ms[i].id != id
    ensures r.None? ==> forall i :: 0 <= i < |ms| ==> ms[i].id != id
  {
    if ms == [] then None
    else if ms[0].id == id then Some(0)
    else
      var r := FirstIndex(ms[1..], id);
      if r.None? then None else Some(r.value + 1)
  }

  function SumFlightHours(ms: seq<Mission>): real
  {
    if ms == [] then 0.0 else SumFlightHours(ms[..|ms| - 1]) + TotalFlightHours(ms[|ms| - 1])
  }

  function SumMissionDistance(ms: seq<Mission>): real
  {
    if ms == [] then 0.0 else SumMissionDistance(ms[..|ms| - 1]) + TotalDistance(ms[|ms| - 1])
  }

  function SumCargo(ms: seq<Mission>): real
  {
    if ms == [] then 0.0 else SumCargo(ms[..|ms| - 1]) + ms[|ms| - 1].cargo
  }

  function SumPax(ms: seq<Mission>): int
  {
    if ms == [] then 0 else SumPax(ms[..|ms| - 1]) + ms[|ms| - 1].pax
  }

  /** missions.map { $0.totalFlightHours }.max() ?? 0 */
  function MaxHours(ms: seq<Mission>): real
  {
    if ms == [] then 0.0
    else if |ms| == 1 then TotalFlightHours(ms[0])
    else
      var prev := MaxHours(ms[..|ms| - 1]);
      var h := TotalFlightHours(ms[|ms| - 1]);
      if h > prev then h else prev
  }

  /** The longest flight is at least every mission's hours and is one of
      them; with no missions it is 0. */
  lemma {:induction false} MaxHoursSpec(ms: seq<Mission>)
    ensures ms == [] ==> MaxHours(ms) == 0.0
    ensures forall i :: 0 <= i < |ms| ==> TotalFlightHours(ms[i]) <= MaxHours(ms)
    ensures ms != [] ==> exists i :: 0 <= i < |ms| && TotalFlightHours(ms[i]) == MaxHours(ms)
  {
    if |ms| > 1 {
      var init := ms[..|ms| - 1];
      MaxHoursSpec(init);
      assert forall i :: 0 <= i < |init| ==> ms[i] == init[i];
      if MaxHours(ms) == MaxHours(init) {
        var i :| 0 <= i < |init| && TotalFlightHours(init[i]) == MaxHours(init);
        assert ms[i] == init[i];
      }
    }
  }

  function CompletedCount(ms: seq<Mission>): (n: nat)
    ensures n <= |ms|
  {
    if ms == [] then 0 else CompletedCount(ms[..|ms| - 1]) + (if ms[|ms| - 1].status == Completed then 1 else 0)
  }

  /** Removing a mission's id from the list. */
  function WithoutId(ms: seq<Mission>, id: Uuid): seq<Mission>
  {
    Filter(ms, (m: Mission) => m.id != id)
  }

  /** The totals of a list with one more mission. */
  lemma AppendedTotals(ms: seq<Mission>, m: Mission)
    ensures SumFlightHours(ms + [m]) == SumFlightHours(ms) + TotalFlightHours(m)
    ensures SumPax(ms + [m]) == SumPax(ms) + m.pax
    ensures SumCargo(ms + [m]) == SumCargo(ms) + m.cargo
    ensures CompletedCount(ms + [m]) == CompletedCount(ms) + (if m.status == Completed then 1 else 0)
  {
    assert (ms + [m])[..|ms|] == ms;
  }

  /** The sample mission loadMissions installs when nothing is stored. */
  function SampleMission(id: Uuid, legIds: (Uuid, Uuid), now: int): Mission
  {
    Mission(id, "AMC001-25", "Airlift", InProgress, now, now + 5 * Day,
      [FlightLeg(legIds.0, 1, "KDOV", "EDDF", now, now + 8 * Hour, 8.5, 3650.0, "03-3124",
                 "Initial leg to Frankfurt", 45, 12500.0),
       FlightLeg(legIds.1, 2, "EDDF", "LTAG", now + Day, now + Day + 4 * Hour, 4.2, 1850.0, "03-3124",
                 "Continuation to Incirlik", 45, 12500.0)],
      45, 12500.0, "C-17A Globemaster III", "Strategic airlift mission supporting NATO operations", [])
  }

  /** The sample's two legs total 12.7 hours and 5500 nm, and its end date
      is five days after its start. */
  lemma SampleMissionTotals(id: Uuid, legIds: (Uuid, Uuid), now: int)
    ensures TotalFlightHours(SampleMission(id, legIds, now)) == 12.7
    ensures TotalDistance(SampleMission(id, legIds, now)) == 5500.0
    ensures SampleMission(id, legIds, now).endDate - SampleMission(id, legIds, now).startDate == 5 * Day
    ensures SampleMission(id, legIds, now).legs[0].arrivalIcao == SampleMission(id, legIds, now).legs[1].departureIcao
  {
    var legs := SampleMission(id, legIds, now).legs;
    assert legs[..1][..0] == [];
    assert legs[..1] == [legs[0]];
    assert legs[..|legs| - 1] == legs[..1];
    assert SumHours(legs[..1]) == 8.5;
    assert SumDistance(legs[..1]) == 3650.0;
  }

  class MissionService {
    var missions: seq<Mission>
    var isLoading: bool

    /** init / loadMissions: the decoded stored list, or the sample. */
    constructor(stored: Option<seq<Mission>>, sampleId: Uuid, legIds: (Uuid, Uuid), now: int)
      ensures missions == if stored.Some? then stored.value else [SampleMission(sampleId, legIds, now)]
      ensures !isLoading
    {
      isLoading := true;
      if stored.Some? {
        missions := stored.value;
      } else {
        missions := [SampleMission(sampleId, legIds, now)];
      }
      isLoading := false;
    }

    method AddMission(m: Mission)
      modifies this
      ensures missions == old(missions) + [m]
      ensures isLoading == old(isLoading)
    {
      missions := missions + [m];
    }

    /** Replaces the first mission with the same id; without one, nothing
        changes. */
    method UpdateMission(m: Mission)
      modifies this
      ensures |missions| == |old(missions)|
      ensures FirstIndex(old(missions), m.id).Some? ==>
                missions == old(missions)[FirstIndex(old(missions), m.id).value := m]
      ensures FirstIndex(old(missions), m.id).None? ==> missions == old(missions)
      ensures isLoading == old(isLoading)
    {
      var index := FirstIndex(missions, m.id);
      if index.Some? {
        missions := missions[index.value := m];
      }
    }

    method DeleteMission(m: Mission)
      modifies this
      ensures missions == WithoutId(old(missions), m.id)
      ensures isLoading == old(isLoading)
    {
      missions := WithoutId(missions, m.id);
    }

    /** missions.first { $0.id == id } */
    function GetMission(id: Uuid): (r: Option<Mission>)
      reads this
      ensures r.Some? <==> exists i :: 0 <= i < |missions| && missions[i].id == id
      ensures r.Some? ==> r == Some(missions[FirstIndex(missions, id).value])
    {
      var i := FirstIndex(missions, id);
      if i.Some? then Some(missions[i.value]) else None
    }

    function GetTotalFlightHours(): real reads this { SumFlightHours(missions) }
    function GetTotalDistance(): real reads this { SumMissionDistance(missions) }
    function GetTotalCargoMoved(): real reads this { SumCargo(missions) }
    function GetTotalPaxMoved(): int reads this { SumPax(missions) }

    function GetCompletedMissionsCount(): (n: nat)
      reads this
      ensures n <= |missions|
    {
      CompletedCount(missions)
    }

    /** Total hours over all missions (not only completed ones). */
    function GetAverageFlightHours(): (avg: real)
      reads this
      ensures |missions| == 0 ==> avg == 0.0
      ensures |missions| > 0 ==> avg * (|missions| as real) == GetTotalFlightHours()
    {
      if |missions| > 0 then GetTotalFlightHours() / (|missions| as real) else 0.0
    }

    /** The largest mission total, 0 when there are no missions. */
    function GetLongestFlightHours(): (longest: real)
      reads this
      ensures |missions| == 0 ==> longest == 0.0
      ensures forall i :: 0 <= i < |missions| ==> TotalFlightHours(missions[i]) <= longest
      ensures |missions| > 0 ==> exists i :: 0 <= i < |missions| && TotalFlightHours(missions[i]) == longest
    {
      MaxHoursSpec(missions);
      MaxHours(missions)
    }
  }

  /** Deleting removes exactly the missions with that id, in order. */
  lemma DeleteSpec(ms: seq<Mission>, id: Uuid)
    ensures IsSubsequence(WithoutId(ms, id), ms)
    ensures FirstIndex(WithoutId(ms, id), id).None?
    ensures forall i :: 0 <= i < |ms| && ms[i].id != id ==> ms[i] in WithoutId(ms, id)
  {
    FilterIsSubsequence(ms, (m: Mission) => m.id != id);
  }

  /** Updating never changes the count and after an update of a present id
      the lookup finds the new mission. */
  lemma UpdateThenGet(ms: seq<Mission>, m: Mission)
    requires FirstIndex(ms, m.id).Some?
    ensures var r := ms[FirstIndex(ms, m.id).value := m];
            FirstIndex(r, m.id) == FirstIndex(ms, m.id)
  {
    var k := FirstIndex(ms, m.id).value;
    var r := ms[k := m];
    assert forall i :: 0 <= i < k ==> r[i] == ms[i];
    assert r[k].id == m.id;
    var j := FirstIndex(r, m.id);
    assert j.Some?;
    assert !(j.value < k);
  }
}
