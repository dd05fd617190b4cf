/**
 * The iOS app's built-in airport directory and distance service
 * (ios-native/src/services/DistanceCalculator.ts): a fixed table of 76
 * airports, case-insensitive lookup, a top-10 substring search, and the
 * great-circle distance R·c with R = 3440.065 nautical miles, rounded with
 * Math.round. The central angle c is a parameter.
 */
module NativeDistance {
  import opened Common

  datatype Airport = Airport(icao: string, name: string, city: string, country: string,
                             latitude: real, longitude: real)

  const Table1: seq<Airport> := [
    Airport("KTCM", "McChord Field", "Tacoma", "United States", 47.137681, -122.476428),
    Airport("ETAR", "Ramstein Air Base", "Ramstein", "Germany", 49.436928, 7.600278),
    Airport("OKBK", "Ali Al Salem Air Base", "Kuwait", "Kuwait", 29.346758, 47.678392),
    Airport("LTAC", "Esenboga Airport", "Ankara", "Turkey", 40.128081, 32.995083),
    Airport("KORD", "O'Hare International Airport", "Chicago", "United States", 41.978603, -87.904842),
    Airport("KJFK", "John F. Kennedy International Airport", "New York", "United States", 40.639751, -73.778925),
    Airport("KLAX", "Los Angeles International Airport", "Los Angeles", "United States", 33.942536, -118.408075),
    Airport("KIAH", "George Bush Intercontinental Airport", "Houston", "United States", 29.984433, -95.341442),
    Airport("KDEN", "Denver International Airport", "Denver", "United States", 39.861656, -104.673178),
    Airport("KATL", "Hartsfield-Jackson Atlanta International Airport", "Atlanta", "United States", 33.636719, -84.428067),
    Airport("KSEA", "Seattle-Tacoma International Airport", "Seattle", "United States", 47.449, -122.309306),
    Airport("KPHX", "Phoenix Sky Harbor International Airport", "Phoenix", "United States", 33.434278, -112.011583),
    Airport("KLAS", "McCarran International Airport", "Las Vegas", "United States", 36.080056, -115.15225),
    Airport("KMIA", "Miami International Airport", "Miami", "United States", 25.79325, -80.290556),
    Airport("KBOS", "Logan International Airport", "Boston", "United States", 42.364347, -71.005181),
    Airport("KSFO", "San Francisco International Airport", "San Francisco", "United States", 37.621311, -122.378967),
    Airport("KDCA", "Ronald Reagan Washington National Airport", "Washington", "United States", 38.851242, -77.037697),
    Airport("KIAD", "Washington Dulles International Airport", "Washington", "United States", 38.944533, -77.455811),
    Airport("KBWI", "Baltimore/Washington International Thurgood Marshall Airport", "Baltimore", "United States", 39.175361, -76.668333)
  ]

  const Table2: seq<Airport> := [
    Airport("KMDW", "Midway International Airport", "Chicago", "United States", 41.785972, -87.752417),
    Airport("KSTL", "Lambert-St. Louis International Airport", "St. Louis", "United States", 38.748697, -90.370028),
    Airport("KMSP", "Minneapolis-Saint Paul International Airport", "Minneapolis", "United States", 44.881956, -93.221767),
    Airport("KPHL", "Philadelphia International Airport", "Philadelphia", "United States", 40.071946, -75.072411),
    Airport("KCLV", "Charlotte Douglas International Airport", "Charlotte", "United States", 35.214, -80.943139),
    Airport("KSAN", "San Diego International Airport", "San Diego", "United States", 32.733556, -117.189667),
    Airport("KTPA", "Tampa International Airport", "Tampa", "United States", 27.975472, -82.533194),
    Airport("KPDX", "Portland International Airport", "Portland", "United States", 45.588722, -122.5975),
    Airport("KSAT", "San Antonio International Airport", "San Antonio", "United States", 29.533694, -98.469778),
    Airport("KCVG", "Cincinnati/Northern Kentucky International Airport", "Cincinnati", "United States", 39.048836, -84.667822),
    Airport("KPIT", "Pittsburgh International Airport", "Pittsburgh", "United States", 40.491467, -80.232872),
    Airport("EGLL", "Heathrow Airport", "London", "United Kingdom", 51.4706, -0.461941),
    Airport("LFPG", "Charles de Gaulle Airport", "Paris", "France", 49.012779, 2.55),
    Airport("EDDF", "Frankfurt Airport", "Frankfurt", "Germany", 50.026421, 8.543125),
    Airport("LIRF", "Leonardo da Vinci Airport", "Rome", "Italy", 41.804475, 12.250797),
    Airport("LEMD", "Adolfo Su\U{E1}rez Madrid-Barajas Airport", "Madrid", "Spain", 40.471926, -3.56264),
    Airport("LOWW", "Vienna International Airport", "Vienna", "Austria", 48.110278, 16.569722),
    Airport("EHAM", "Amsterdam Airport Schiphol", "Amsterdam", "Netherlands", 52.308056, 4.764167),
    Airport("EKCH", "Copenhagen Airport", "Copenhagen", "Denmark", 55.617917, 12.656111)
  ]

  const Table3: seq<Airport> := [
    Airport("ESSA", "Stockholm Arlanda Airport", "Stockholm", "Sweden", 59.651944, 17.918611),
    Airport("ENGM", "Oslo Airport", "Oslo", "Norway", 60.193917, 11.100361),
    Airport("EFHK", "Helsinki Airport", "Helsinki", "Finland", 60.317222, 24.963333),
    Airport("OMDB", "Dubai International Airport", "Dubai", "UAE", 25.252778, 55.364444),
    Airport("OTHH", "Hamad International Airport", "Doha", "Qatar", 25.273056, 51.608056),
    Airport("OERK", "King Khalid International Airport", "Riyadh", "Saudi Arabia", 24.957222, 46.698889),
    Airport("OJAI", "Queen Alia International Airport", "Amman", "Jordan", 31.722556, 35.993214),
    Airport("LTBA", "Istanbul Airport", "Istanbul", "Turkey", 41.275278, 28.751944),
    Airport("RJTT", "Tokyo Haneda Airport", "Tokyo", "Japan", 35.552222, 139.779722),
    Airport("RKSI", "Incheon International Airport", "Seoul", "South Korea", 37.463333, 126.440556),
    Airport("VHHH", "Hong Kong International Airport", "Hong Kong", "Hong Kong", 22.308919, 113.914603),
    Airport("WSSS", "Singapore Changi Airport", "Singapore", "Singapore", 1.350189, 103.994433),
    Airport("YSSY", "Sydney Kingsford Smith Airport", "Sydney", "Australia", -33.946667, 151.177222),
    Airport("YMML", "Melbourne Airport", "Melbourne", "Australia", -37.673333, 144.843333),
    Airport("HECA", "Cairo International Airport", "Cairo", "Egypt", 30.121944, 31.405556),
    Airport("FAOR", "O.R. Tambo International Airport", "Johannesburg", "South Africa", -26.139166, 28.246),
    Airport("GMMN", "Mohammed V International Airport", "Casablanca", "Morocco", 33.367222, -7.589722),
    Airport("SBGR", "S\U{E3}o Paulo/Guarulhos International Airport", "S\U{E3}o Paulo", "Brazil", -23.435556, -46.473056),
    Airport("SAEZ", "Ezeiza International Airport", "Buenos Aires", "Argentina", -34.822222, -58.535833)
  ]

  const Table4: seq<Airport> := [
    Airport("SCEL", "Santiago International Airport", "Santiago", "Chile", -33.393056, -70.785833),
    Airport("CYYZ", "Toronto Pearson International Airport", "Toronto", "Canada", 43.677222, -79.630556),
    Airport("CYVR", "Vancouver International Airport", "Vancouver", "Canada", 49.194722, -123.183889),
    Airport("CYUL", "Montr\U{E9}al-Pierre Elliott Trudeau International Airport", "Montreal", "Canada", 45.470556, -73.740833),
    Airport("RJOI", "Yokota Air Base", "Tokyo", "Japan", 35.748472, 139.348389),
    Airport("OSAN", "Osan Air Base", "Pyeongtaek", "South Korea", 37.090833, 127.029444),
    Airport("LERT", "Thule Air Base", "Thule", "Greenland", 76.531111, -68.703056),
    Airport("LIPH", "Aviano Air Base", "Aviano", "Italy", 46.031944, 12.596389),
    Airport("EGVA", "RAF Fairford", "Fairford", "United Kingdom", 51.682222, -1.790000),
    Airport("EGVN", "RAF Brize Norton", "Carterton", "United Kingdom", 51.749722, -1.583611),
    Airport("ETAD", "Spangdahlem Air Base", "Spangdahlem", "Germany", 49.972778, 6.692500),
    Airport("ETNT", "Grafenwoehr Army Airfield", "Grafenwoehr", "Germany", 49.698611, 11.940278),
    Airport("LICZ", "Sigonella Naval Air Station", "Sigonella", "Italy", 37.401667, 14.922222),
    Airport("LGSA", "Souda Air Base", "Souda Bay", "Greece", 35.492222, 24.063889),
    Airport("LTAG", "Incirlik Air Base", "Adana", "Turkey", 37.002389, 35.425833),
    Airport("OAIX", "Prince Sultan Air Base", "Al Kharj", "Saudi Arabia", 24.362778, 47.586111),
    Airport("OAKN", "Kandahar Airfield", "Kandahar", "Afghanistan", 31.505556, 65.847778),
    Airport("ORBI", "Balad Air Base", "Balad", "Iraq", 33.940833, 44.361944),
    Airport("ORSU", "Sather Air Base", "Baghdad", "Iraq", 33.262500, 44.235278)
  ]
  /** The table, in its source order. */
  const Airports: seq<Airport> := Table1 + Table2 + Table3 + Table4

  // ---------------------------------------------------------------------
  // Shape of the table: four upper-case letters per code, no code twice.

  predicate IsIcaoCode(code: string)
  {
    |code| == 4 && forall k :: 0 <= k < 4 ==> IsUpperLetter(code[k])
  }

  predicate CodesWellFormed(s: seq<Airport>)
  {
    forall i :: 0 <= i < |s| ==> IsIcaoCode(s[i].icao)
  }

  /** The ICAO column of a run of records. */
  function Codes(s: seq<Airport>): (r: seq<string>)
    ensures |r| == |s| && forall i :: 0 <= i < |s| ==> r[i] == s[i].icao
  {
    seq(|s|, i requires 0 <= i < |s| => s[i].icao)
  }

  predicate AllDistinct(s: seq<string>)
  {
    forall i, j :: 0 <= i < j < |s| ==> s[i] != s[j]
  }

  predicate Disjoint(a: seq<string>, b: seq<string>)
  {
    forall i, j :: 0 <= i < |a| && 0 <= j < |b| ==> a[i] != b[j]
  }

  predicate AllCodes(s: seq<string>)
  {
    forall i :: 0 <= i < |s| ==> IsIcaoCode(s[i])
  }

  lemma DistinctConcat(a: seq<string>, b: seq<string>)
    requires AllDistinct(a) && AllDistinct(b) && Disjoint(a, b)
    ensures AllDistinct(a + b)
  {
    forall i, j | 0 <= i < j < |a + b| ensures (a + b)[i] != (a + b)[j] {
      if j < |a| {
      } else if i >= |a| {
        assert (a + b)[i] == b[i - |a|] && (a + b)[j] == b[j - |a|];
      } else {
        assert (a + b)[j] == b[j - |a|];
      }
    }
  }

  lemma DisjointConcat(a: seq<string>, b: seq<string>, c: seq<string>)
    requires Disjoint(a, c) && Disjoint(b, c)
    ensures Disjoint(a + b, c)
  {
    forall i, j | 0 <= i < |a + b| && 0 <= j < |c| ensures (a + b)[i] != c[j] {
      if i >= |a| { assert (a + b)[i] == b[i - |a|]; }
    }
  }

  const Table1Codes: seq<string> := ["KTCM", "ETAR", "OKBK", "LTAC", "KORD", "KJFK", "KLAX", "KIAH", "KDEN", "KATL", "KSEA", "KPHX", "KLAS", "KMIA", "KBOS", "KSFO", "KDCA", "KIAD", "KBWI"]
  const Table2Codes: seq<string> := ["KMDW", "KSTL", "KMSP", "KPHL", "KCLV", "KSAN", "KTPA", "KPDX", "KSAT", "KCVG", "KPIT", "EGLL", "LFPG", "EDDF", "LIRF", "LEMD", "LOWW", "EHAM", "EKCH"]
  const Table3Codes: seq<string> := ["ESSA", "ENGM", "EFHK", "OMDB", "OTHH", "OERK", "OJAI", "LTBA", "RJTT", "RKSI", "VHHH", "WSSS", "YSSY", "YMML", "HECA", "FAOR", "GMMN", "SBGR", "SAEZ"]
  const Table4Codes: seq<string> := ["SCEL", "CYYZ", "CYVR", "CYUL", "RJOI", "OSAN", "LERT", "LIPH", "EGVA", "EGVN", "ETAD", "ETNT", "LICZ", "LGSA", "LTAG", "OAIX", "OAKN", "ORBI", "ORSU"]

  lemma Table1Column() ensures Codes(Table1) == Table1Codes {}
  lemma Table1WellFormed() ensures AllCodes(Table1Codes) {}
  lemma Table1Distinct() ensures AllDistinct(Table1Codes) {}

  lemma Table2Column() ensures Codes(Table2) == Table2Codes {}
  lemma Table2WellFormed() ensures AllCodes(Table2Codes) {}
  lemma Table2Distinct() ensures AllDistinct(Table2Codes) {}

  lemma Table3Column() ensures Codes(Table3) == Table3Codes {}
  lemma Table3WellFormed() ensures AllCodes(Table3Codes) {}
  lemma Table3Distinct() ensures AllDistinct(Table3Codes) {}

  lemma Table4Column() ensures Codes(Table4) == Table4Codes {}
  lemma Table4WellFormed() ensures AllCodes(Table4Codes) {}
  lemma Table4Distinct() ensures AllDistinct(Table4Codes) {}

  lemma Disjoint12() ensures Disjoint(Table1Codes, Table2Codes) {}
  lemma Disjoint13() ensures Disjoint(Table1Codes, Table3Codes) {}
  lemma Disjoint14() ensures Disjoint(Table1Codes, Table4Codes) {}
  lemma Disjoint23() ensures Disjoint(Table2Codes, Table3Codes) {}
  lemma Disjoint24() ensures Disjoint(Table2Codes, Table4Codes) {}
  lemma Disjoint34() ensures Disjoint(Table3Codes, Table4Codes) {}

  lemma CodesConcat(a: seq<Airport>, b: seq<Airport>)
    ensures Codes(a + b) == Codes(a) + Codes(b)
  {
  }

  lemma AllCodesConcat(a: seq<string>, b: seq<string>)
    requires AllCodes(a) && AllCodes(b)
    ensures AllCodes(a + b)
  {
    forall i | 0 <= i < |a + b| ensures IsIcaoCode((a + b)[i]) {
      if i >= |a| { assert (a + b)[i] == b[i - |a|]; }
    }
  }

  /** Every built-in ICAO code is four upper-case letters and no code
      appears twice. */
  lemma TableShape()
    ensures AllCodes(Codes(Airports)) && AllDistinct(Codes(Airports))
  {
    var c1, c2, c3, c4 := Table1Codes, Table2Codes, Table3Codes, Table4Codes;
    Table1Column(); Table2Column(); Table3Column(); Table4Column();
    Table1WellFormed(); Table2WellFormed(); Table3WellFormed(); Table4WellFormed();
    Table1Distinct(); Table2Distinct(); Table3Distinct(); Table4Distinct();
    Disjoint12(); Disjoint13(); Disjoint14(); Disjoint23(); Disjoint24(); Disjoint34();
    CodesConcat(Table1, Table2);
    DistinctConcat(c1, c2);
    AllCodesConcat(c1, c2);
    CodesConcat(Table1 + Table2, Table3);
    DisjointConcat(c1, c2, c3);
    DistinctConcat(c1 + c2, c3);
    AllCodesConcat(c1 + c2, c3);
    CodesConcat(Table1 + Table2 + Table3, Table4);
    DisjointConcat(c1, c2, c4);
    DisjointConcat(c1 + c2, c3, c4);
    DistinctConcat(c1 + c2 + c3, c4);
    AllCodesConcat(c1 + c2 + c3, c4);
  }

  lemma TableSize()
    ensures |Airports| == 76
  {
  }

  // ---------------------------------------------------------------------
  // findAirport (ios-native/src/services/DistanceCalculator.ts:91-93).

  predicate CodeMatches(a: Airport, code: string) { Upper(a.icao) == Upper(code) }

  function FindIn(code: string, table: seq<Airport>): Option<Airport>
  {
    if table == [] then None
    else if CodeMatches(table[0], code) then Some(table[0])
    else FindIn(code, table[1..])
  }

  function FindAirport(code: string): Option<Airport>
  {
    FindIn(code, Airports)
  }

  lemma {:induction false} FindInSpec(code: string, table: seq<Airport>)
    ensures FindIn(code, table).None? <==> forall i :: 0 <= i < |table| ==> !CodeMatches(table[i], code)
    ensures FindIn(code, table).Some? ==>
              exists i :: 0 <= i < |table| && table[i] == FindIn(code, table).value
                          && CodeMatches(table[i], code)
                          && forall j :: 0 <= j < i ==> !CodeMatches(table[j], code)
  {
    if table != [] && !CodeMatches(table[0], code) {
      FindInSpec(code, table[1..]);
      if FindIn(code, table[1..]).Some? {
        var i :| 0 <= i < |table[1..]| && table[1..][i] == FindIn(code, table).value
                 && CodeMatches(table[1..][i], code)
                 && forall j :: 0 <= j < i ==> !CodeMatches(table[1..][j], code);
        assert table[i + 1] == table[1..][i];
      }
    }
  }

  lemma UpperOfCode(code: string)
    requires IsIcaoCode(code)
    ensures Upper(code) == code
  {
    assert forall k :: 0 <= k < 4 ==> Upper(code)[k] == code[k];
  }

  /** Codes and distinctness, stated on the records themselves. */
  predicate DistinctCodes(table: seq<Airport>)
  {
    && (forall i :: 0 <= i < |table| ==> IsIcaoCode(table[i].icao))
    && (forall i, j :: 0 <= i < j < |table| ==> table[i].icao != table[j].icao)
  }

  lemma DistinctCodesOfShape(table: seq<Airport>)
    requires AllCodes(Codes(table)) && AllDistinct(Codes(table))
    ensures DistinctCodes(table)
  {
    var c := Codes(table);
    assert forall i :: 0 <= i < |table| ==> c[i] == table[i].icao;
  }

  /** In a table of distinct upper-case codes, the i-th record is what its
      own code finds, in either letter case. */
  lemma FindInByCode(table: seq<Airport>, i: int)
    requires DistinctCodes(table)
    requires 0 <= i < |table|
    ensures FindIn(table[i].icao, table) == Some(table[i])
    ensures FindIn(Lower(table[i].icao), table) == Some(table[i])
  {
    var code := table[i].icao;
    UpperOfCode(code);
    UpperOfLower(code);
    FindInSpec(code, table);
    FindInSpec(Lower(code), table);
    forall j | 0 <= j < |table| && CodeMatches(table[j], code) ensures j == i {
      UpperOfCode(table[j].icao);
    }
  }

  /** Because the codes are distinct upper-case words, findAirport is a
      function of the code, in any letter case: the i-th record is what its
      own code finds, written either way, and a hit carries the code asked for. */
  lemma FindAirportByCode(i: int)
    requires 0 <= i < |Airports|
    ensures FindAirport(Airports[i].icao) == Some(Airports[i])
    ensures FindAirport(Lower(Airports[i].icao)) == Some(Airports[i])
  {
    TableShape();
    DistinctCodesOfShape(Airports);
    FindInByCode(Airports, i);
  }

  /** In a table of upper-case codes, a search misses exactly when no code
      is the upper-cased query. */
  lemma FindInMiss(table: seq<Airport>, code: string)
    requires DistinctCodes(table)
    ensures FindIn(code, table).None? <==> forall i :: 0 <= i < |table| ==> table[i].icao != Upper(code)
  {
    FindInSpec(code, table);
    forall i | 0 <= i < |table| ensures Upper(table[i].icao) == table[i].icao {
      UpperOfCode(table[i].icao);
    }
  }

  /** findAirport answers null exactly when no record matches, ignoring case. */
  lemma FindAirportMiss(code: string)
    ensures FindAirport(code).None? <==> forall i :: 0 <= i < |Airports| ==> Airports[i].icao != Upper(code)
  {
    TableShape();
    DistinctCodesOfShape(Airports);
    FindInMiss(Airports, code);
  }

  // ---------------------------------------------------------------------
  // searchAirports (ios-native/src/services/DistanceCalculator.ts:95-105).

  const MaxSearchResults: nat := 10

  predicate QueryMatches(a: Airport, query: string)
  {
    Contains(Lower(a.icao), Lower(query)) || Contains(Lower(a.name), Lower(query))
    || Contains(Lower(a.city), Lower(query))
  }

  function SearchIn(query: string, table: seq<Airport>): seq<Airport>
  {
    Take(Filter(table, a => QueryMatches(a, query)), MaxSearchResults)
  }

  function SearchAirports(query: string): seq<Airport>
  {
    SearchIn(query, Airports)
  }

  /** The result is the first ten of the table's matches in table order, or
      all of them when there are at most ten. */
  lemma SearchInSpec(query: string, table: seq<Airport>)
    ensures var r := SearchIn(query, table);
            var matches := Filter(table, a => QueryMatches(a, query));
            |r| == (if |matches| <= MaxSearchResults then |matches| else MaxSearchResults)
            && r == matches[..|r|]
            && IsSubsequence(matches, table)
            && (forall k :: 0 <= k < |r| ==> QueryMatches(r[k], query))
            && (Count(table, a => QueryMatches(a, query)) <= MaxSearchResults ==> r == matches)
  {
    FilterIsSubsequence(table, a => QueryMatches(a, query));
    FilterCount(table, a => QueryMatches(a, query));
  }

  // ---------------------------------------------------------------------
  // calculateDistance (ios-native/src/services/DistanceCalculator.ts:107-141).

  /** Central angle in radians between two (latitude, longitude) points. */
  type CentralAngle = (real, real, real, real) -> real

  const EarthRadiusNm: real := 3440.065

  function CalculateDistance(fromIcao: string, toIcao: string, angle: CentralAngle): Option<int>
  {
    var from := FindAirport(fromIcao);
    var to := FindAirport(toIcao);
    if from.None? || to.None? then None
    else Some(Round(EarthRadiusNm * angle(from.value.latitude, from.value.longitude,
                                          to.value.latitude, to.value.longitude)))
  }

  /** Null exactly when either airport is missing; otherwise Math.round of
      R·c with R = 3440.065, so within half a mile of R·c. */
  lemma CalculateDistanceSpec(fromIcao: string, toIcao: string, angle: CentralAngle)
    ensures var d := CalculateDistance(fromIcao, toIcao, angle);
            (d.None? <==> FindAirport(fromIcao).None? || FindAirport(toIcao).None?)
            && (d.Some? ==>
                  var a, b := FindAirport(fromIcao).value, FindAirport(toIcao).value;
                  var exact := 3440.065 * angle(a.latitude, a.longitude, b.latitude, b.longitude);
                  exact - 0.5 < d.value as real <= exact + 0.5)
  {
  }

  /** getAllAirports hands out a fresh array holding the table; writing to it
      cannot reach the table, which is a constant. */
  method GetAllAirports() returns (all: array<Airport>)
    ensures fresh(all) && all[..] == Airports
  {
    all := new Airport[|Airports|](i requires 0 <= i < |Airports| => Airports[i]);
  }
}
