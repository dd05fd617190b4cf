/**
 * The web client's keyed airport table (client/src/lib/airports.ts): a
 * record keyed by ICAO code, looked up after upper-casing, searched by
 * substring in table order, and a four-letter ICAO validator.
 */
module ClientAirports {
  import opened Common

  /** The entries carry no coordinates, runway length or elevation. */
  datatype Airport = Airport(icao: string, name: string, city: string, country: string)

  /** AIRPORT_DATABASE as (key, record) pairs in insertion order, which is
      the order Object.values uses since no key is an integer. */
  const Database: seq<(string, Airport)> := [
    ("KTCM", Airport("KTCM", "McChord Air Force Base", "Tacoma", "United States")),
    ("ETAR", Airport("ETAR", "Ramstein Air Base", "Ramstein", "Germany")),
    ("BGHR", Airport("BGHR", "Thule Air Base", "Thule", "Greenland")),
    ("KOFF", Airport("KOFF", "Offutt Air Force Base", "Omaha", "United States")),
    ("PHIK", Airport("PHIK", "Hickam Air Force Base", "Honolulu", "United States")),
    ("PGUA", Airport("PGUA", "Andersen Air Force Base", "Yigo", "Guam")),
    ("OKAS", Airport("OKAS", "Al Asad Air Base", "Al Anbar", "Iraq")),
    ("OKBK", Airport("OKBK", "Ali Al Salem Air Base", "Jahra", "Kuwait")),
    ("OTBH", Airport("OTBH", "Al Udeid Air Base", "Doha", "Qatar")),
    ("OEJN", Airport("OEJN", "King Abdulaziz Air Base", "Jeddah", "Saudi Arabia")),
    ("LTAG", Airport("LTAG", "Incirlik Air Base", "Adana", "Turkey")),
    ("EDDK", Airport("EDDK", "Cologne Bonn Airport", "Cologne", "Germany")),
    ("LERT", Airport("LERT", "Souda Bay", "Chania", "Greece"))
  ]

  const DatabaseKeys: seq<string> := ["KTCM", "ETAR", "BGHR", "KOFF", "PHIK", "PGUA", "OKAS", "OKBK", "OTBH", "OEJN", "LTAG", "EDDK", "LERT"]

  function Keys(entries: seq<(string, Airport)>): (r: seq<string>)
    ensures |r| == |entries| && forall i :: 0 <= i < |entries| ==> r[i] == entries[i].0
  {
    seq(|entries|, i requires 0 <= i < |entries| => entries[i].0)
  }

  function Values(entries: seq<(string, Airport)>): (r: seq<Airport>)
    ensures |r| == |entries| && forall i :: 0 <= i < |entries| ==> r[i] == entries[i].1
  {
    seq(|entries|, i requires 0 <= i < |entries| => entries[i].1)
  }

  lemma KeysColumn()
    ensures Keys(Database) == DatabaseKeys
  {
  }

  lemma KeysDistinct()
    ensures forall i, j :: 0 <= i < j < |DatabaseKeys| ==> DatabaseKeys[i] != DatabaseKeys[j]
  {
  }

  /** Every table key equals its record's ICAO code, and is four upper-case
      letters. */
  lemma KeysAreCodes()
    ensures forall i :: 0 <= i < |Database| ==>
              Database[i].0 == Database[i].1.icao
              && |Database[i].0| == 4
              && forall k :: 0 <= k < 4 ==> IsUpperLetter(Database[i].0[k])
  {
  }

  // ---------------------------------------------------------------------
  // getAirportByIcao (client/src/lib/airports.ts:96-98).

  /** `record[key]`: the entry stored under exactly that key, if any. */
  function Lookup(entries: seq<(string, Airport)>, key: string): Option<Airport>
  {
    if entries == [] then None
    else if entries[0].0 == key then Some(entries[0].1)
    else Lookup(entries[1..], key)
  }

  function GetAirportByIcao(icao: string): Option<Airport>
  {
    Lookup(Database, Upper(icao))
  }

  lemma {:induction false} LookupSpec(entries: seq<(string, Airport)>, key: string)
    ensures Lookup(entries, key).None? <==> forall i :: 0 <= i < |entries| ==> entries[i].0 != key
    ensures Lookup(entries, key).Some? ==>
              exists i :: 0 <= i < |entries| && entries[i] == (key, Lookup(entries, key).value)
  {
    if entries != [] && entries[0].0 != key {
      LookupSpec(entries[1..], key);
      if Lookup(entries[1..], key).Some? {
        var i :| 0 <= i < |entries[1..]| && entries[1..][i] == (key, Lookup(entries, key).value);
        assert entries[i + 1] == entries[1..][i];
      }
    }
  }

  /** The lookup ignores case, a hit carries the code asked for (upper-cased),
      and a miss means no key equals the upper-cased code. */
  lemma GetAirportByIcaoSpec(icao: string)
    ensures GetAirportByIcao(icao) == GetAirportByIcao(Lower(icao)) == GetAirportByIcao(Upper(icao))
    ensures GetAirportByIcao(icao).Some? ==> GetAirportByIcao(icao).value.icao == Upper(icao)
    ensures GetAirportByIcao(icao).None? <==> Upper(icao) !in DatabaseKeys
  {
    UpperOfLower(icao);
    UpperIdempotent(icao);
    LookupSpec(Database, Upper(icao));
    KeysAreCodes();
    KeysColumn();
  }

  /** Keys that are the records' own upper-case codes, none twice. */
  predicate WellKeyed(entries: seq<(string, Airport)>)
  {
    && (forall i :: 0 <= i < |entries| ==>
          entries[i].0 == entries[i].1.icao
          && |entries[i].0| == 4 && forall k :: 0 <= k < 4 ==> IsUpperLetter(entries[i].0[k]))
    && (forall i, j :: 0 <= i < j < |entries| ==> entries[i].0 != entries[j].0)
  }

  lemma DatabaseWellKeyed()
    ensures WellKeyed(Database)
  {
    KeysAreCodes();
    KeysColumn();
    KeysDistinct();
    assert forall i :: 0 <= i < |Database| ==> Database[i].0 == DatabaseKeys[i];
  }

  lemma UpperOfKey(key: string)
    requires |key| == 4 && forall k :: 0 <= k < 4 ==> IsUpperLetter(key[k])
    ensures Upper(key) == key
  {
    assert forall k :: 0 <= k < 4 ==> Upper(key)[k] == key[k];
  }

  /** In a well-keyed table, each record is found under its own code. */
  lemma LookupOwnKey(entries: seq<(string, Airport)>, i: int)
    requires WellKeyed(entries) && 0 <= i < |entries|
    ensures Lookup(entries, entries[i].0) == Some(entries[i].1)
  {
    var key := entries[i].0;
    LookupSpec(entries, key);
    var j :| 0 <= j < |entries| && entries[j] == (key, Lookup(entries, key).value);
    assert j == i;
  }

  /** Every entry is found by its own key in any letter case. */
  lemma EveryEntryFound(i: int)
    requires 0 <= i < |Database|
    ensures GetAirportByIcao(Database[i].1.icao) == Some(Database[i].1)
    ensures GetAirportByIcao(Lower(Database[i].1.icao)) == Some(Database[i].1)
  {
    DatabaseWellKeyed();
    var key := Database[i].0;
    UpperOfKey(key);
    UpperOfLower(key);
    LookupOwnKey(Database, i);
  }

  // ---------------------------------------------------------------------
  // searchAirports (client/src/lib/airports.ts:100-107).

  predicate Matches(a: Airport, query: string)
  {
    Contains(Lower(a.icao), Lower(query)) || Contains(Lower(a.name), Lower(query))
    || Contains(Lower(a.city), Lower(query))
  }

  function SearchIn(query: string, values: seq<Airport>): seq<Airport>
  {
    Filter(values, a => Matches(a, query))
  }

  function SearchAirports(query: string): seq<Airport>
  {
    SearchIn(query, Values(Database))
  }

  /** The matching records in table order, with no limit; the empty query
      returns every record. */
  lemma SearchInSpec(query: string, values: seq<Airport>)
    ensures var r := SearchIn(query, values);
            IsSubsequence(r, values)
            && (forall k :: 0 <= k < |r| ==> Matches(r[k], query))
            && (forall i :: 0 <= i < |values| && Matches(values[i], query) ==> values[i] in r)
            && SearchIn("", values) == values
  {
    FilterIsSubsequence(values, a => Matches(a, query));
    forall i | 0 <= i < |values| ensures Matches(values[i], "") {
      ContainsSelf(Lower(values[i].icao));
    }
    FilterAll(values, a => Matches(a, ""));
  }

  // ---------------------------------------------------------------------
  // validateIcaoCode (client/src/lib/airports.ts:109-111).

  predicate IsAsciiLetter(c: char) { 'A' <= c <= 'Z' || 'a' <= c <= 'z' }

  function ValidateIcaoCode(icao: string): (ok: bool)
  {
    |icao| == 4 && var u := Upper(icao); forall k :: 0 <= k < 4 ==> IsUpperLetter(u[k])
  }

  /** Valid iff four ASCII letters in either case: "ktcm" passes, "KTC1" and
      "KTCMX" fail. */
  lemma ValidateIcaoCodeSpec(icao: string)
    ensures ValidateIcaoCode(icao) <==> |icao| == 4 && forall k :: 0 <= k < 4 ==> IsAsciiLetter(icao[k])
    ensures ValidateIcaoCode("ktcm") && !ValidateIcaoCode("KTC1") && !ValidateIcaoCode("KTCMX")
  {
    assert Upper("ktcm") == "KTCM";
    assert Upper("KTC1")[3] == '1';
  }
}
