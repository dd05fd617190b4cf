/**
 * The client's mission tracker (client/src/lib/mission-tracker.ts): a
 * bounded newest-first mission log, flight scores, and the user profile
 * derived from them (completed-mission count, rounded average score, rank
 * and achievements). Ids, clocks and the stored user name are parameters;
 * times are milliseconds.
 */
module MissionTracking {
  import opened Common

  const MaxLogs: nat := 1000
  const RecentWindow: int := 30 * 24 * 60 * 60 * 1000

  datatype LogType = Created | Updated | Completed | Cancelled | StatusChange

  /** The extracted text and confidence a scan log carries. */
  datatype ScanData = ScanData(extractedText: Option<string>, confidence: Option<real>)

  datatype MissionLog = MissionLog(
    id: string, missionNumber: string, timestamp: int, logType: LogType, details: string,
    userId: string, scanData: Option<ScanData>)

  datatype FlightScore = FlightScore(
    missionId: string, onTimeScore: real, cargoEfficiency: real, fuelEfficiency: real,
    safetyScore: real, overallScore: real, timestamp: int)

  /** The ranks in the order calculateRank tries them. */
  datatype Rank =
    | ChiefMasterSergeant | SeniorMasterSergeant | MasterSergeant | TechnicalSergeant
    | StaffSergeant | SeniorAirman | AirmanFirstClass | Airman | AirmanBasic

  datatype UserProfile = UserProfile(
    id: string, name: string, totalMissions: nat, totalFlightHours: real, averageScore: int,
    rank: Rank, achievements: seq<string>, createdAt: int)

  function RankName(r: Rank): string
  {
    match r
    case ChiefMasterSergeant => "Chief Master Sergeant"
    case SeniorMasterSergeant => "Senior Master Sergeant"
    case MasterSergeant => "Master Sergeant"
    case TechnicalSergeant => "Technical Sergeant"
    case StaffSergeant => "Staff Sergeant"
    case SeniorAirman => "Senior Airman"
    case AirmanFirstClass => "Airman First Class"
    case Airman => "Airman"
    case AirmanBasic => "Airman Basic"
  }

  /** Position of a rank in calculateRank's list, highest rank first. */
  function Position(r: Rank): nat
  {
    match r
    case ChiefMasterSergeant => 0
    case SeniorMasterSergeant => 1
    case MasterSergeant => 2
    case TechnicalSergeant => 3
    case StaffSergeant => 4
    case SeniorAirman => 5
    case AirmanFirstClass => 6
    case Airman => 7
    case AirmanBasic => 8
  }

  // ---------------------------------------------------------------------
  // Rank (client/src/lib/mission-tracker.ts:193-203).

  function CalculateRank(missions: int, avgScore: int): Rank
  {
    if missions >= 100 && avgScore >= 95 then ChiefMasterSergeant
    else if missions >= 75 && avgScore >= 90 then SeniorMasterSergeant
    else if missions >= 50 && avgScore >= 85 then MasterSergeant
    else if missions >= 30 && avgScore >= 80 then TechnicalSergeant
    else if missions >= 20 && avgScore >= 75 then StaffSergeant
    else if missions >= 10 && avgScore >= 70 then SeniorAirman
    else if missions >= 5 then AirmanFirstClass
    else if missions >= 1 then Airman
    else AirmanBasic
  }

  /** The minimum missions and score each rank demands. */
  function Thresholds(r: Rank): (int, int)
  {
    match r
    case ChiefMasterSergeant => (100, 95)
    case SeniorMasterSergeant => (75, 90)
    case MasterSergeant => (50, 85)
    case TechnicalSergeant => (30, 80)
    case StaffSergeant => (20, 75)
    case SeniorAirman => (10, 70)
    case AirmanFirstClass => (5, 0)
    case Airman => (1, 0)
    case AirmanBasic => (0, 0)
  }

  predicate Qualifies(r: Rank, missions: int, avgScore: int)
  {
    r == AirmanBasic
    || (missions >= Thresholds(r).0 && (Position(r) >= 6 || avgScore >= Thresholds(r).1))
  }

  /** The rank is the first in the list whose thresholds hold: it
      qualifies, and no rank before it does. */
  lemma CalculateRankIsFirstQualifying(missions: int, avgScore: int, r: Rank)
    ensures Qualifies(CalculateRank(missions, avgScore), missions, avgScore)
    ensures Position(r) < Position(CalculateRank(missions, avgScore)) ==> !Qualifies(r, missions, avgScore)
  {
  }

  /** More missions or a higher score never gives a rank later in the list;
      no missions is Airman Basic and five or more at least Airman First
      Class. */
  lemma CalculateRankMonotone(m: int, a: int, m': int, a': int)
    requires m <= m' && a <= a'
    ensures Position(CalculateRank(m', a')) <= Position(CalculateRank(m, a))
    ensures CalculateRank(0, a) == AirmanBasic
    ensures m >= 5 ==> Position(CalculateRank(m, a)) <= Position(AirmanFirstClass)
  {
  }

  // ---------------------------------------------------------------------
  // Achievements (client/src/lib/mission-tracker.ts:205-232).

  /** Set.add: appended unless already present. */
  function AddIfEarned(set_: seq<string>, a: string, earned: bool): (r: seq<string>)
  {
    if earned && a !in set_ then set_ + [a] else set_
  }

  function AwardAchievements(achievements: seq<string>, totalMissions: nat, averageScore: int,
                             perfectScores: nat): seq<string>
  {
    var s0 := Dedup(achievements);
    var s1 := AddIfEarned(s0, "First Flight", totalMissions >= 1);
    var s2 := AddIfEarned(s1, "Veteran Pilot", totalMissions >= 10);
    var s3 := AddIfEarned(s2, "Mission Master", totalMissions >= 50);
    var s4 := AddIfEarned(s3, "Excellence Award", averageScore >= 90);
    AddIfEarned(s4, "Perfect Execution", perfectScores >= 3)
  }

  predicate Earned(a: string, totalMissions: nat, averageScore: int, perfectScores: nat)
  {
    (a == "First Flight" && totalMissions >= 1)
    || (a == "Veteran Pilot" && totalMissions >= 10)
    || (a == "Mission Master" && totalMissions >= 50)
    || (a == "Excellence Award" && averageScore >= 90)
    || (a == "Perfect Execution" && perfectScores >= 3)
  }

  lemma AddIfEarnedSpec(s: seq<string>, a: string, earned: bool)
    requires NoDuplicates(s)
    ensures NoDuplicates(AddIfEarned(s, a, earned))
    ensures forall x :: x in AddIfEarned(s, a, earned) <==> x in s || (earned && x == a)
  {
  }

  /** Achievements are only ever added: the new list holds no duplicates,
      contains every old achievement, and anything new in it was earned. */
  lemma AwardAchievementsSpec(achievements: seq<string>, totalMissions: nat, averageScore: int,
                              perfectScores: nat)
    ensures var r := AwardAchievements(achievements, totalMissions, averageScore, perfectScores);
            && NoDuplicates(r)
            && (forall a :: a in r <==> a in achievements || Earned(a, totalMissions, averageScore, perfectScores))
  {
    var s0 := Dedup(achievements);
    var s1 := AddIfEarned(s0, "First Flight", totalMissions >= 1);
    var s2 := AddIfEarned(s1, "Veteran Pilot", totalMissions >= 10);
    var s3 := AddIfEarned(s2, "Mission Master", totalMissions >= 50);
    var s4 := AddIfEarned(s3, "Excellence Award", averageScore >= 90);
    AddIfEarnedSpec(s0, "First Flight", totalMissions >= 1);
    AddIfEarnedSpec(s1, "Veteran Pilot", totalMissions >= 10);
    AddIfEarnedSpec(s2, "Mission Master", totalMissions >= 50);
    AddIfEarnedSpec(s3, "Excellence Award", averageScore >= 90);
    AddIfEarnedSpec(s4, "Perfect Execution", perfectScores >= 3);
  }

  // ---------------------------------------------------------------------
  // Scores and counts.

  function SumOverall(scores: seq<FlightScore>): real
  {
    if scores == [] then 0.0 else scores[0].overallScore + SumOverall(scores[1..])
  }

  function CompletedCount(logs: seq<MissionLog>): nat
  {
    Count(logs, (l: MissionLog) => l.logType == Completed)
  }

  function PerfectCount(scores: seq<FlightScore>): nat
  {
    Count(scores, (s: FlightScore) => s.overallScore == 100.0)
  }

  /** Math.round of the mean overall score; only defined with scores. */
  function MeanScore(scores: seq<FlightScore>): int
    requires |scores| > 0
  {
    Round(SumOverall(scores) / (|scores| as real))
  }

  /** The mean lies within the range of the individual scores. */
  lemma {:induction false} SumOverallBounds(scores: seq<FlightScore>, lo: real, hi: real)
    requires forall i :: 0 <= i < |scores| ==> lo <= scores[i].overallScore <= hi
    ensures lo * (|scores| as real) <= SumOverall(scores) <= hi * (|scores| as real)
  {
    if scores != [] {
      SumOverallBounds(scores[1..], lo, hi);
    }
  }

  lemma MeanScoreBounds(scores: seq<FlightScore>)
    requires |scores| > 0
    requires forall i :: 0 <= i < |scores| ==> 0.0 <= scores[i].overallScore <= 100.0
    ensures 0 <= MeanScore(scores) <= 100
  {
    SumOverallBounds(scores, 0.0, 100.0);
    var n := |scores| as real;
    assert 0.0 <= SumOverall(scores) / n <= 100.0 by {
      assert SumOverall(scores) <= 100.0 * n;
    }
  }

  /** updateUserProfile on a profile value: name from storage when set and
      different, completed count, the average only when there are scores,
      then rank and achievements. */
  function UpdatedProfile(p: UserProfile, logs: seq<MissionLog>, scores: seq<FlightScore>,
                          storedName: Option<string>): UserProfile
  {
    var name := if storedName.Some? && storedName.value != "" && storedName.value != p.name
                then storedName.value else p.name;
    var total := CompletedCount(logs);
    var average := if |scores| > 0 then MeanScore(scores) else p.averageScore;
    p.(name := name, totalMissions := total, averageScore := average,
       rank := CalculateRank(total, average),
       achievements := AwardAchievements(p.achievements, total, average, PerfectCount(scores)))
  }

  /** The profile agrees with the logs and scores it was derived from. */
  lemma UpdatedProfileSpec(p: UserProfile, logs: seq<MissionLog>, scores: seq<FlightScore>,
                           storedName: Option<string>)
    ensures var q := UpdatedProfile(p, logs, scores, storedName);
            && q.totalMissions == CompletedCount(logs)
            && (|scores| > 0 ==> q.averageScore == MeanScore(scores))
            && (|scores| == 0 ==> q.averageScore == p.averageScore)
            && q.rank == CalculateRank(q.totalMissions, q.averageScore)
            && (forall a :: a in p.achievements ==> a in q.achievements)
            && NoDuplicates(q.achievements)
            && q.id == p.id && q.createdAt == p.createdAt && q.totalFlightHours == p.totalFlightHours
  {
    AwardAchievementsSpec(p.achievements, CompletedCount(logs),
      if |scores| > 0 then MeanScore(scores) else p.averageScore, PerfectCount(scores));
  }

  datatype Statistics = Statistics(
    totalMissions: nat, recentMissions: nat, averageScore: int, recentAverageScore: int,
    rank: string, achievements: seq<string>, lastMission: Option<int>)

  // ---------------------------------------------------------------------
  // The tracker.

  class MissionTracker {
    var missionLogs: seq<MissionLog>
    var flightScores: seq<FlightScore>
    var userProfile: Option<UserProfile>

    ghost predicate Valid()
      reads this
    {
      |missionLogs| <= MaxLogs
    }

    /** A tracker with nothing stored: initializeUserProfile creates the
        default profile, named from storage or 'Airman'. */
    constructor(profileId: string, storedName: Option<string>, now: int)
      ensures Valid()
      ensures missionLogs == [] && flightScores == []
      ensures userProfile == Some(UserProfile(
                profileId, if storedName.Some? && storedName.value != "" then storedName.value else "Airman",
                0, 0.0, 0, AirmanBasic, [], now))
    {
      missionLogs := [];
      flightScores := [];
      userProfile := Some(UserProfile(
        profileId, if storedName.Some? && storedName.value != "" then storedName.value else "Airman",
        0, 0.0, 0, AirmanBasic, [], now));
    }

    /** `this.userProfile?.id || 'unknown'` */
    function UserId(): string
      reads this
    {
      if userProfile.Some? && userProfile.value.id != "" then userProfile.value.id else "unknown"
    }

    method LogMissionEvent(id: string, now: int, logType: LogType, missionNumber: string, details: string)
      requires Valid()
      modifies this
      ensures Valid()
      ensures missionLogs == PrependCapped(
                MissionLog(id, missionNumber, now, logType, details, old(UserId()), None), old(missionLogs), MaxLogs)
      ensures flightScores == old(flightScores) && userProfile == old(userProfile)
    {
      missionLogs := [MissionLog(id, missionNumber, now, logType, details, UserId(), None)] + missionLogs;
      if |missionLogs| > MaxLogs {
        missionLogs := missionLogs[..MaxLogs];
      }
    }

    method LogMissionEventWithData(id: string, now: int, logType: LogType, missionNumber: string,
                                   details: string, scanData: Option<ScanData>)
      requires Valid()
      modifies this
      ensures Valid()
      ensures missionLogs == PrependCapped(
                MissionLog(id, missionNumber, now, logType, details, old(UserId()), scanData),
                old(missionLogs), MaxLogs)
      ensures flightScores == old(flightScores) && userProfile == old(userProfile)
    {
      missionLogs := [MissionLog(id, missionNumber, now, logType, details, UserId(), scanData)] + missionLogs;
      if |missionLogs| > MaxLogs {
        missionLogs := missionLogs[..MaxLogs];
      }
    }

    method UpdateUserProfile(storedName: Option<string>)
      modifies this
      ensures missionLogs == old(missionLogs) && flightScores == old(flightScores)
      ensures userProfile == if old(userProfile).None? then None
                             else Some(UpdatedProfile(old(userProfile).value, missionLogs, flightScores, storedName))
    {
      if userProfile.None? {
        return;
      }
      var p := userProfile.value;
      if storedName.Some? && storedName.value != "" && storedName.value != p.name {
        p := p.(name := storedName.value);
      }
      p := p.(totalMissions := CompletedCount(missionLogs));
      if |flightScores| > 0 {
        p := p.(averageScore := MeanScore(flightScores));
      }
      p := p.(rank := CalculateRank(p.totalMissions, p.averageScore));
      p := p.(achievements := AwardAchievements(p.achievements, p.totalMissions, p.averageScore,
                                                PerfectCount(flightScores)));
      userProfile := Some(p);
    }

    /** recordFlightScore: the overall score is the mean of the four, the
        score goes first, and the profile is brought up to date. */
    method RecordFlightScore(missionId: string, onTime: real, cargo: real, fuel: real, safety: real,
                             now: int, storedName: Option<string>)
      modifies this
      ensures missionLogs == old(missionLogs)
      ensures flightScores == [FlightScore(missionId, onTime, cargo, fuel, safety,
                                           (onTime + cargo + fuel + safety) / 4.0, now)] + old(flightScores)
      ensures userProfile == if old(userProfile).None? then None
                             else Some(UpdatedProfile(old(userProfile).value, missionLogs, flightScores, storedName))
    {
      var overall := (onTime + cargo + fuel + safety) / 4.0;
      flightScores := [FlightScore(missionId, onTime, cargo, fuel, safety, overall, now)] + flightScores;
      UpdateUserProfile(storedName);
    }

    method UpdateMissionLog(index: int, updated: MissionLog)
      requires Valid()
      modifies this
      ensures Valid()
      ensures 0 <= index < |old(missionLogs)| ==> missionLogs == old(missionLogs)[index := updated]
      ensures !(0 <= index < |old(missionLogs)|) ==> missionLogs == old(missionLogs)
      ensures flightScores == old(flightScores) && userProfile == old(userProfile)
    {
      if 0 <= index < |missionLogs| {
        missionLogs := missionLogs[index := updated];
      }
    }

    method DeleteMissionLog(index: int, storedName: Option<string>)
      requires Valid()
      modifies this
      ensures Valid()
      ensures 0 <= index < |old(missionLogs)| ==>
                && missionLogs == old(missionLogs)[..index] + old(missionLogs)[index + 1..]
                && userProfile == if old(userProfile).None? then None
                                  else Some(UpdatedProfile(old(userProfile).value, missionLogs, flightScores, storedName))
      ensures !(0 <= index < |old(missionLogs)|) ==>
                missionLogs == old(missionLogs) && userProfile == old(userProfile)
      ensures flightScores == old(flightScores)
    {
      if 0 <= index < |missionLogs| {
        missionLogs := missionLogs[..index] + missionLogs[index + 1..];
        UpdateUserProfile(storedName);
      }
    }

    /** getStatistics over the last 30 days before `now`. */
    method GetStatistics(now: int) returns (st: Statistics)
      ensures st.totalMissions == CompletedCount(missionLogs)
      ensures st.recentMissions == Count(missionLogs, (l: MissionLog) => l.timestamp > now - RecentWindow)
      ensures var recent := Filter(flightScores, (s: FlightScore) => s.timestamp > now - RecentWindow);
              st.recentAverageScore == if |recent| > 0 then MeanScore(recent) else 0
      ensures st.averageScore == if userProfile.Some? then userProfile.value.averageScore else 0
      ensures st.rank == if userProfile.Some? then RankName(userProfile.value.rank) else "Airman Basic"
      ensures st.achievements == if userProfile.Some? then userProfile.value.achievements else []
      ensures st.lastMission == if |missionLogs| > 0 then Some(missionLogs[0].timestamp) else None
    {
      var recentLogs := Filter(missionLogs, (l: MissionLog) => l.timestamp > now - RecentWindow);
      FilterCount(missionLogs, (l: MissionLog) => l.timestamp > now - RecentWindow);
      var recentScores := Filter(flightScores, (s: FlightScore) => s.timestamp > now - RecentWindow);
      var recentAverage := if |recentScores| > 0 then MeanScore(recentScores) else 0;
      st := Statistics(
        CompletedCount(missionLogs), |recentLogs|,
        if userProfile.Some? then userProfile.value.averageScore else 0,
        recentAverage,
        if userProfile.Some? then RankName(userProfile.value.rank) else "Airman Basic",
        if userProfile.Some? then userProfile.value.achievements else [],
        if |missionLogs| > 0 then Some(missionLogs[0].timestamp) else None);
    }
  }

  /** Logging a COMPLETED event below the cap raises the completed count by
      one; any other event type leaves it. */
  lemma LogCompletedCounts(log: MissionLog, logs: seq<MissionLog>)
    requires |logs| < MaxLogs
    ensures CompletedCount(PrependCapped(log, logs, MaxLogs))
            == CompletedCount(logs) + (if log.logType == Completed then 1 else 0)
  {
    assert PrependCapped(log, logs, MaxLogs) == [log] + logs;
    assert ([log] + logs)[1..] == logs;
  }
}
