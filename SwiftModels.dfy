/**
 * The SwiftUI app's value types (swift-ios-app/AMCMissionTracker/Models/
 * Mission.swift and FlightLeg.swift): mission and leg records, the
 * computed totals, the duration text and the status enumeration. Dates are
 * seconds since an epoch, identifiers are integers standing for UUIDs, and
 * calendar arithmetic is plain addition.
 */
module SwiftModels {
  import opened Common

  type Uuid = int

  datatype MissionStatus = Planning | InProgress | Completed | Deployment

  function RawValue(s: MissionStatus): string
  {
    match s
    case Planning => "Planning"
    case InProgress => "In Progress"
    case Completed => "Completed"
    case Deployment => "Deployment"
  }

  /** MissionStatus(rawValue:), used when decoding. */
  function FromRawValue(raw: string): Option<MissionStatus>
  {
    if raw == "Planning" then Some(Planning)
    else if raw == "In Progress" then Some(InProgress)
    else if raw == "Completed" then Some(Completed)
    else if raw == "Deployment" then Some(Deployment)
    else None
  }

  function Color(s: MissionStatus): string
  {
    match s
    case Planning => "yellow"
    case InProgress => "blue"
    case Completed => "green"
    case Deployment => "red"
  }

  /** The four raw values are distinct and decode back to their case; no
      other text decodes. The four colours are distinct too. */
  lemma RawValueRoundTrip(s: MissionStatus, t: MissionStatus, raw: string)
    ensures FromRawValue(RawValue(s)) == Some(s)
    ensures s != t ==> RawValue(s) != RawValue(t) && Color(s) != Color(t)
    ensures FromRawValue(raw).Some? ==> RawValue(FromRawValue(raw).value) == raw
  {
  }

  datatype FlightLeg = FlightLeg(
    id: Uuid, legNumber: int, departureIcao: string, arrivalIcao: string,
    departureTime: int, arrivalTime: int, flightHours: real, distanceNm: real,
    tailNumber: string, remarks: string, pax: int, cargo: real)

  datatype Mission = Mission(
    id: Uuid, missionNumber: string, missionType: string, status: MissionStatus,
    startDate: int, endDate: int, legs: seq<FlightLeg>, pax: int, cargo: real,
    aircraftType: string, notes: string, photos: seq<string>)

  const Day: int := 24 * 60 * 60
  const Hour: int := 60 * 60

  // ---------------------------------------------------------------------
  // Computed totals (Mission.swift:18-24).

  function TotalFlightHours(m: Mission): real
  {
    SumHours(m.legs)
  }

  function TotalDistance(m: Mission): real
  {
    SumDistance(m.legs)
  }

  function SumHours(legs: seq<FlightLeg>): real
  {
    if legs == [] then 0.0 else SumHours(legs[..|legs| - 1]) + legs[|legs| - 1].flightHours
  }

  function SumDistance(legs: seq<FlightLeg>): real
  {
    if legs == [] then 0.0 else SumDistance(legs[..|legs| - 1]) + legs[|legs| - 1].distanceNm
  }

  /** Appending a leg raises each total by exactly that leg's value; with
      no legs both are 0. */
  lemma AppendLegTotals(m: Mission, leg: FlightLeg)
    ensures TotalFlightHours(m.(legs := m.legs + [leg])) == TotalFlightHours(m) + leg.flightHours
    ensures TotalDistance(m.(legs := m.legs + [leg])) == TotalDistance(m) + leg.distanceNm
    ensures m.legs == [] ==> TotalFlightHours(m) == 0.0 && TotalDistance(m) == 0.0
  {
    assert (m.legs + [leg])[..|m.legs|] == m.legs;
  }

  /** Totals of non-negative leg values are non-negative and bound each leg. */
  lemma {:induction false} TotalsBoundLegs(legs: seq<FlightLeg>)
    requires forall i :: 0 <= i < |legs| ==> legs[i].flightHours >= 0.0
    ensures SumHours(legs) >= 0.0
    ensures forall i :: 0 <= i < |legs| ==> legs[i].flightHours <= SumHours(legs)
  {
    if legs != [] {
      var init := legs[..|legs| - 1];
      TotalsBoundLegs(init);
      assert forall i :: 0 <= i < |init| ==> legs[i] == init[i];
    }
  }

  // ---------------------------------------------------------------------
  // Initialisers with their defaults.

  /** Mission() with every default: `now` is Date(). */
  function DefaultMission(id: Uuid, now: int): (m: Mission)
    ensures m.legs == [] && m.status == Planning && m.pax == 0 && m.cargo == 0.0
    ensures m.aircraftType == "C-17A" && m.missionType == "Transport" && m.missionNumber == ""
    ensures m.endDate == m.startDate + 7 * Day
  {
    Mission(id, "", "Transport", Planning, now, now + 7 * Day, [], 0, 0.0, "C-17A", "", [])
  }

  /** FlightLeg() with every default. */
  function DefaultLeg(id: Uuid, now: int): (leg: FlightLeg)
    ensures leg.legNumber == 1 && leg.flightHours == 2.0 && leg.distanceNm == 0.0
    ensures leg.pax == 0 && leg.cargo == 0.0
    ensures leg.departureIcao == "" && leg.arrivalIcao == "" && leg.tailNumber == "" && leg.remarks == ""
    ensures leg.arrivalTime == leg.departureTime + 2 * Hour
  {
    FlightLeg(id, 1, "", "", now, now + 2 * Hour, 2.0, 0.0, "", "", 0, 0.0)
  }

  // ---------------------------------------------------------------------
  // duration (FlightLeg.swift:17-21).

  /** String(format: "%02d", n): zero-padded to two digits; a negative
      number keeps its sign and is already two characters wide. */
  function Format02d(n: int): string
  {
    if n >= 0 then Pad2(NatToString(n)) else "-" + NatToString(-n)
  }

  function Duration(leg: FlightLeg): string
  {
    var hours := Truncate(leg.flightHours);
    var minutes := Truncate((leg.flightHours - hours as real) * 60.0);
    Format02d(hours) + ":" + Format02d(minutes)
  }

  /** For a non-negative value: the hours field is the whole part, the
      minutes field the truncated fraction times 60 (so 0..59), both
      printed with two digits at least. */
  lemma DurationSpec(leg: FlightLeg)
    requires leg.flightHours >= 0.0
    ensures var hours := leg.flightHours.Floor;
            var minutes := Truncate((leg.flightHours - hours as real) * 60.0);
            && 0 <= minutes < 60
            && Duration(leg) == Pad2(NatToString(hours)) + ":" + Pad2(NatToString(minutes))
  {
  }

  /** Whole hours end in ":00"; 8.5 hours reads "08:30" and the default
      leg "02:00". */
  lemma DurationExamples(leg: FlightLeg, n: nat)
    ensures Duration(leg.(flightHours := n as real))[|Duration(leg.(flightHours := n as real))| - 3..] == ":00"
    ensures Duration(leg.(flightHours := 8.5)) == "08:30"
    ensures Duration(DefaultLeg(leg.id, leg.departureTime)) == "02:00"
  {
    var whole := leg.(flightHours := n as real);
    assert Truncate(whole.flightHours) == n;
    assert Truncate((whole.flightHours - n as real) * 60.0) == 0;
    assert Format02d(0) == "00";
    assert NatToString(8) == "8";
    assert NatToString(30) == "30" by {
      assert NatToString(3) == "3";
    }
    assert NatToString(2) == "2";
  }
}
