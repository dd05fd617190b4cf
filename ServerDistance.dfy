/**
 * Server-side distance lookup (server/distance-calculator.ts): airports are
 * found by case-insensitive ICAO, a miss gives null, and a hit gives the
 * great-circle distance R·c with R = 3440 nautical miles, unrounded.
 * The central angle c (the haversine trigonometry) is a parameter.
 */
module ServerDistance {
  import opened Common

  datatype AirportCoordinates = AirportCoordinates(
    icao: string, latitude: real, longitude: real, name: string,
    city: Option<string>, country: Option<string>)

  /** Central angle in radians between two (latitude, longitude) points. */
  type CentralAngle = (real, real, real, real) -> real

  const EarthRadiusNm: real := 3440.0

  predicate IcaoMatches(a: AirportCoordinates, code: string)
  {
    Lower(a.icao) == Lower(code)
  }

  /** `airports.find(...)` with a case-insensitive ICAO comparison. */
  function Find(code: string, airports: seq<AirportCoordinates>): Option<AirportCoordinates>
  {
    if airports == [] then None
    else if IcaoMatches(airports[0], code) then Some(airports[0])
    else Find(code, airports[1..])
  }

  /** Find returns the first record whose ICAO equals the code ignoring case,
      and nothing exactly when there is no such record. */
  lemma {:induction false} FindSpec(code: string, airports: seq<AirportCoordinates>)
    ensures var r := Find(code, airports);
            (r.None? <==> forall i :: 0 <= i < |airports| ==> !IcaoMatches(airports[i], code))
            && (r.Some? ==> exists i :: 0 <= i < |airports| && airports[i] == r.value
                              && IcaoMatches(r.value, code)
                              && forall j :: 0 <= j < i ==> !IcaoMatches(airports[j], code))
  {
    if airports != [] && !IcaoMatches(airports[0], code) {
      FindSpec(code, airports[1..]);
      var r := Find(code, airports[1..]);
      if r.Some? {
        var i :| 0 <= i < |airports[1..]| && airports[1..][i] == r.value
                 && IcaoMatches(r.value, code)
                 && forall j :: 0 <= j < i ==> !IcaoMatches(airports[1..][j], code);
        assert airports[i + 1] == r.value;
      }
    }
  }

  /** The coordinates of a lookup's record, if any. */
  function Position(a: Option<AirportCoordinates>): Option<(real, real)>
  {
    if a.None? then None else Some((a.value.latitude, a.value.longitude))
  }

  function CalculateFlightDistance(fromIcao: string, toIcao: string,
                                   airports: seq<AirportCoordinates>,
                                   angle: CentralAngle): Option<real>
  {
    var from := Position(Find(fromIcao, airports));
    var to := Position(Find(toIcao, airports));
    if from.None? || to.None? then None
    else Some(EarthRadiusNm * angle(from.value.0, from.value.1, to.value.0, to.value.1))
  }

  /** The distance is null exactly when either code has no airport; when
      both resolve it is 3440 times the central angle of the two records
      found first, with no rounding. */
  lemma DistanceNullIffMissing(fromIcao: string, toIcao: string,
                               airports: seq<AirportCoordinates>, angle: CentralAngle)
    ensures var d := CalculateFlightDistance(fromIcao, toIcao, airports, angle);
            (d.None? <==> (forall i :: 0 <= i < |airports| ==> !IcaoMatches(airports[i], fromIcao))
                          || (forall i :: 0 <= i < |airports| ==> !IcaoMatches(airports[i], toIcao)))
            && (d.Some? ==> exists i, j :: 0 <= i < |airports| && 0 <= j < |airports|
                              && IcaoMatches(airports[i], fromIcao) && IcaoMatches(airports[j], toIcao)
                              && d.value == 3440.0 * angle(airports[i].latitude, airports[i].longitude,
                                                          airports[j].latitude, airports[j].longitude))
  {
    FindSpec(fromIcao, airports);
    FindSpec(toIcao, airports);
  }

  /** distance(A, B) is defined iff distance(B, A) is. */
  lemma DefinedSymmetric(a: string, b: string, airports: seq<AirportCoordinates>, angle: CentralAngle)
    ensures CalculateFlightDistance(a, b, airports, angle).Some?
        <==> CalculateFlightDistance(b, a, airports, angle).Some?
  {
  }

  /** Codes differing only in ASCII case give the same answer. */
  lemma {:induction false} FindIgnoresCase(code: string, airports: seq<AirportCoordinates>)
    ensures Find(code, airports) == Find(Lower(code), airports)
  {
    LowerIdempotent(code);
    if airports != [] {
      FindIgnoresCase(code, airports[1..]);
    }
  }

  /** The value depends only on the coordinates of the records found: names,
      cities and countries play no part. */
  lemma {:induction false} OnlyCoordinatesMatter(fromIcao: string, toIcao: string,
                                                 airports: seq<AirportCoordinates>,
                                                 relabelled: seq<AirportCoordinates>,
                                                 angle: CentralAngle)
    requires |relabelled| == |airports|
    requires forall i :: 0 <= i < |airports| ==>
               relabelled[i].icao == airports[i].icao
               && relabelled[i].latitude == airports[i].latitude
               && relabelled[i].longitude == airports[i].longitude
    ensures CalculateFlightDistance(fromIcao, toIcao, relabelled, angle)
         == CalculateFlightDistance(fromIcao, toIcao, airports, angle)
  {
    SameCoordinatesFound(fromIcao, airports, relabelled);
    SameCoordinatesFound(toIcao, airports, relabelled);
  }

  lemma {:induction false} SameCoordinatesFound(code: string, airports: seq<AirportCoordinates>,
                                                relabelled: seq<AirportCoordinates>)
    requires |relabelled| == |airports|
    requires forall i :: 0 <= i < |airports| ==>
               relabelled[i].icao == airports[i].icao
               && relabelled[i].latitude == airports[i].latitude
               && relabelled[i].longitude == airports[i].longitude
    ensures Position(Find(code, relabelled)) == Position(Find(code, airports))
  {
    if airports != [] {
      SameCoordinatesFound(code, airports[1..], relabelled[1..]);
    }
  }

  // ---------------------------------------------------------------------
  // fuzzySearchIcao (server/distance-calculator.ts:36-41).

  predicate TermMatches(a: AirportCoordinates, term: string)
  {
    Contains(Lower(a.icao), Lower(term)) || Contains(Lower(a.name), Lower(term))
  }

  function FuzzySearchIcao(term: string, airports: seq<AirportCoordinates>): seq<AirportCoordinates>
  {
    Filter(airports, a => TermMatches(a, term))
  }

  /** The result holds exactly the airports whose ICAO or name contains the
      term, ignoring case, in their input order; the city is never searched. */
  lemma FuzzySearchIcaoSpec(term: string, airports: seq<AirportCoordinates>)
    ensures var r := FuzzySearchIcao(term, airports);
            IsSubsequence(r, airports)
            && (forall i :: 0 <= i < |r| ==> TermMatches(r[i], term))
            && (forall i :: 0 <= i < |airports| && TermMatches(airports[i], term) ==> airports[i] in r)
            && |r| == Count(airports, a => TermMatches(a, term))
  {
    FilterIsSubsequence(airports, a => TermMatches(a, term));
    FilterCount(airports, a => TermMatches(a, term));
  }

  /** The empty term keeps everything. */
  lemma EmptyTermKeepsAll(airports: seq<AirportCoordinates>)
    ensures FuzzySearchIcao("", airports) == airports
  {
    forall i | 0 <= i < |airports| ensures TermMatches(airports[i], "") {
      ContainsSelf(Lower(airports[i].icao));
    }
    FilterAll(airports, a => TermMatches(a, ""));
  }
}
