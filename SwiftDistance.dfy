/**
 * The Swift app's airport search and distance helpers
 * (swift-ios-app/AMCMissionTracker/Services/DistanceCalculator.swift):
 * a scored fuzzy search with a 0.3 threshold, a substring search ranked
 * ICAO matches first, and a case-sensitive distance lookup that answers 0.0
 * when an airport is missing.
 */
module SwiftDistance {
  import opened Common
  import Sorting

  datatype Airport = Airport(icao: string, name: string, city: string, country: string,
                             latitude: real, longitude: real)

  // ---------------------------------------------------------------------
  // calculateSimilarityScore (DistanceCalculator.swift:68-107).

  function Score(query: string, a: Airport): (s: real)
  {
    var q := Lower(query);
    var icao, name, city := Lower(a.icao), Lower(a.name), Lower(a.city);
    if icao == q then 1.0
    else if IsPrefix(q, icao) then 0.9
    else if Contains(icao, q) then 0.8
    else if IsPrefix(q, name) then 0.7
    else if Contains(name, q) then 0.6
    else if IsPrefix(q, city) then 0.5
    else if Contains(city, q) then 0.4
    else 0.0
  }

  const Threshold: real := 0.3

  /** The score is one of the eight levels; it is 1.0 exactly on an ICAO
      match ignoring case, and non-zero exactly when the query occurs in the
      ICAO code, name or city, so every non-zero score clears the 0.3 bar. */
  lemma ScoreSpec(query: string, a: Airport)
    ensures Score(query, a) in {1.0, 0.9, 0.8, 0.7, 0.6, 0.5, 0.4, 0.0}
    ensures Score(query, a) == 1.0 <==> Lower(a.icao) == Lower(query)
    ensures Score(query, a) > Threshold <==> Score(query, a) != 0.0
    ensures Score(query, a) != 0.0 <==>
              Contains(Lower(a.icao), Lower(query)) || Contains(Lower(a.name), Lower(query))
              || Contains(Lower(a.city), Lower(query))
  {
    var q := Lower(query);
    if Lower(a.icao) == q { ContainsSelf(q); }
    if IsPrefix(q, Lower(a.icao)) { PrefixIsContained(q, Lower(a.icao)); }
    if IsPrefix(q, Lower(a.name)) { PrefixIsContained(q, Lower(a.name)); }
    if IsPrefix(q, Lower(a.city)) { PrefixIsContained(q, Lower(a.city)); }
  }

  /** Score levels follow the field order: an ICAO hit outranks any name
      hit, which outranks any city hit. */
  lemma ScoreOrdersFields(query: string, a: Airport, b: Airport)
    requires Contains(Lower(a.icao), Lower(query))
    requires !Contains(Lower(b.icao), Lower(query))
    ensures Score(query, a) > Score(query, b)
  {
    IcaoHitScore(query, a);
    IcaoMissScore(query, b);
  }

  /** A query found in the ICAO code scores at least 0.8. */
  lemma IcaoHitScore(query: string, a: Airport)
    requires Contains(Lower(a.icao), Lower(query))
    ensures Score(query, a) >= 0.8
  {
  }

  /** A query not found in the ICAO code scores at most 0.7. */
  lemma IcaoMissScore(query: string, b: Airport)
    requires !Contains(Lower(b.icao), Lower(query))
    ensures Score(query, b) <= 0.7
  {
    var q := Lower(query);
    if IsPrefix(q, Lower(b.icao)) { PrefixIsContained(q, Lower(b.icao)); }
    if Lower(b.icao) == q { ContainsSelf(q); }
  }

  // ---------------------------------------------------------------------
  // fuzzySearchAirports (DistanceCalculator.swift:49-66).

  datatype Scored = Scored(airport: Airport, score: real)

  /** The airports whose score clears the threshold, with their scores, in
      input order. */
  function CandidatesBy(score: Airport -> real, airports: seq<Airport>): seq<Scored>
    decreases |airports|
  {
    if airports == [] then []
    else
      var last := airports[|airports| - 1];
      CandidatesBy(score, airports[..|airports| - 1])
      + (if score(last) > Threshold then [Scored(last, score(last))] else [])
  }

  function Candidates(query: string, airports: seq<Airport>): seq<Scored>
  {
    CandidatesBy((a: Airport) => Score(query, a), airports)
  }

  /** `$0.score > $1.score`, the comparator of the ranking sort. */
  function HigherScore(): (Scored, Scored) -> bool
  {
    (x: Scored, y: Scored) => x.score > y.score
  }

  function Unscored(top: seq<Scored>): (r: seq<Airport>)
    ensures |r| == |top| && forall k :: 0 <= k < |top| ==> r[k] == top[k].airport
  {
    seq(|top|, k requires 0 <= k < |top| => top[k].airport)
  }

  function Top(query: string, airports: seq<Airport>, maxResults: nat): seq<Scored>
  {
    Take(Sorting.InsertionSort(Candidates(query, airports), HigherScore()), maxResults)
  }

  function Ranked(query: string, airports: seq<Airport>, maxResults: nat): seq<Airport>
  {
    Unscored(Top(query, airports, maxResults))
  }

  /** The loop that appends to `scoredAirports`, then the sort and prefix.
      Swift traps on a negative maxResults, so it is a natural number here. */
  method FuzzySearchAirports(query: string, airports: seq<Airport>, maxResults: nat)
    returns (result: seq<Airport>)
    ensures result == (if query == "" then [] else Ranked(query, airports, maxResults))
  {
    if query == "" {
      return [];
    }
    var scored: seq<Scored> := [];
    var i := 0;
    while i < |airports|
      invariant 0 <= i <= |airports|
      invariant scored == Candidates(query, airports[..i])
    {
      CandidatesStep((a: Airport) => Score(query, a), airports, i);
      var score := Score(query, airports[i]);
      if score > Threshold {
        scored := scored + [Scored(airports[i], score)];
      }
      i := i + 1;
    }
    assert airports[..i] == airports;
    var sorted := Sorting.InsertionSort(scored, HigherScore());
    result := Unscored(Take(sorted, maxResults));
  }

  /** One more airport adds its scored entry when it clears the threshold. */
  lemma CandidatesStep(score: Airport -> real, airports: seq<Airport>, i: nat)
    requires i < |airports|
    ensures CandidatesBy(score, airports[..i + 1])
            == CandidatesBy(score, airports[..i])
               + (if score(airports[i]) > Threshold then [Scored(airports[i], score(airports[i]))] else [])
  {
    assert airports[..i + 1][..i] == airports[..i];
    assert airports[..i + 1][i] == airports[i];
  }

  lemma CandidatesSpec(query: string, airports: seq<Airport>)
    ensures var c := Candidates(query, airports);
            (forall k :: 0 <= k < |c| ==> c[k].score == Score(query, c[k].airport) && c[k].score > Threshold
                                          && c[k].airport in airports)
            && (forall i :: 0 <= i < |airports| && Score(query, airports[i]) > Threshold ==>
                  Scored(airports[i], Score(query, airports[i])) in c)
  {
    CandidatesSound((a: Airport) => Score(query, a), airports);
    CandidatesComplete((a: Airport) => Score(query, a), airports);
  }

  /** Every entry of `c` is an airport of `airports` above the threshold, kept
      with its own score. */
  predicate SoundCandidates(score: Airport -> real, airports: seq<Airport>, c: seq<Scored>)
  {
    forall k :: 0 <= k < |c| ==> c[k].score == score(c[k].airport) && c[k].score > Threshold
                                 && c[k].airport in airports
  }

  /** Every candidate is an airport of the input, kept with its own score. */
  lemma {:induction false} CandidatesSound(score: Airport -> real, airports: seq<Airport>)
    ensures SoundCandidates(score, airports, CandidatesBy(score, airports))
    decreases |airports|
  {
    if airports != [] {
      var prefix := airports[..|airports| - 1];
      var last := airports[|airports| - 1];
      CandidatesSound(score, prefix);
      var cp := CandidatesBy(score, prefix);
      var c := CandidatesBy(score, airports);
      var tail := if score(last) > Threshold then [Scored(last, score(last))] else [];
      assert c == cp + tail;
      forall k | 0 <= k < |c|
        ensures c[k].score == score(c[k].airport) && c[k].score > Threshold && c[k].airport in airports
      {
        if k < |cp| {
          assert c[k] == cp[k];
          var j :| 0 <= j < |prefix| && prefix[j] == cp[k].airport;
          assert airports[j] == prefix[j];
        } else {
          assert c[k] == tail[0];
        }
      }
    }
  }

  /** Every airport whose score clears the threshold is a candidate. */
  lemma {:induction false} CandidatesComplete(score: Airport -> real, airports: seq<Airport>)
    ensures var c := CandidatesBy(score, airports);
            forall i :: 0 <= i < |airports| && score(airports[i]) > Threshold ==>
              Scored(airports[i], score(airports[i])) in c
    decreases |airports|
  {
    if airports != [] {
      var prefix := airports[..|airports| - 1];
      var last := airports[|airports| - 1];
      CandidatesComplete(score, prefix);
      var cp := CandidatesBy(score, prefix);
      var c := CandidatesBy(score, airports);
      var tail := if score(last) > Threshold then [Scored(last, score(last))] else [];
      assert c == cp + tail;
      forall i | 0 <= i < |airports| && score(airports[i]) > Threshold
        ensures Scored(airports[i], score(airports[i])) in c
      {
        if i < |prefix| {
          assert airports[i] == prefix[i];
          assert Scored(airports[i], score(airports[i])) in cp;
        } else {
          assert c[|c| - 1] == Scored(last, score(last));
        }
      }
    }
  }

  lemma HigherScoreIsStrictWeakOrder()
    ensures Sorting.StrictWeakOrder(HigherScore())
  {
  }

  /** The kept entries: min(maxResults, candidates) of the candidates, in
      non-increasing score order, and no dropped candidate scores higher than
      a kept one, so they are the top-scoring ones. */
  lemma {:induction false} TopSpec(query: string, airports: seq<Airport>, maxResults: nat)
    ensures var top := Top(query, airports, maxResults);
            var c := Candidates(query, airports);
            |top| == (if |c| <= maxResults then |c| else maxResults)
            && multiset(top) <= multiset(c)
            && (forall k :: 0 <= k < |top| ==> top[k] in c)
            && (forall k, l :: 0 <= k < l < |top| ==> top[k].score >= top[l].score)
            && (forall x, k :: x in multiset(c) - multiset(top) && 0 <= k < |top| ==> x.score <= top[k].score)
            && (|c| <= maxResults ==> multiset(top) == multiset(c))
  {
    TopOf(Candidates(query, airports), maxResults);
  }

  /** TopSpec for any candidate list. */
  lemma TopOf(c: seq<Scored>, n: nat)
    ensures var top := Take(Sorting.InsertionSort(c, HigherScore()), n);
            |top| == (if |c| <= n then |c| else n)
            && multiset(top) <= multiset(c)
            && (forall k :: 0 <= k < |top| ==> top[k] in c)
            && (forall k, l :: 0 <= k < l < |top| ==> top[k].score >= top[l].score)
            && (forall x, k :: x in multiset(c) - multiset(top) && 0 <= k < |top| ==> x.score <= top[k].score)
            && (|c| <= n ==> multiset(top) == multiset(c))
  {
    HigherScoreIsStrictWeakOrder();
    Sorting.InsertionSortSpec(c, HigherScore());
    var sorted := Sorting.InsertionSort(c, HigherScore());
    var top := Take(sorted, n);
    PrefixIsBest(sorted, |top|);
    assert top == sorted[..|top|];
    forall k | 0 <= k < |top| ensures top[k] in c {
      assert top[k] == sorted[k];
      assert sorted[k] in multiset(sorted);
    }
    forall k, l | 0 <= k < l < |top| ensures top[k].score >= top[l].score {
      assert top[k] == sorted[k] && top[l] == sorted[l];
    }
  }

  /** A prefix of a list sorted by descending score holds its best entries:
      everything after it scores no higher than anything in it. */
  lemma PrefixIsBest(sorted: seq<Scored>, n: nat)
    requires n <= |sorted| && Sorting.SortedBy(sorted, HigherScore())
    ensures multiset(sorted[..n]) <= multiset(sorted)
    ensures multiset(sorted) - multiset(sorted[..n]) == multiset(sorted[n..])
    ensures forall x, k :: x in multiset(sorted[n..]) && 0 <= k < n ==> x.score <= sorted[k].score
  {
    assert sorted == sorted[..n] + sorted[n..];
    forall x, k | x in multiset(sorted[n..]) && 0 <= k < n ensures x.score <= sorted[k].score {
      var j :| 0 <= j < |sorted[n..]| && sorted[n..][j] == x;
      assert sorted[n + j] == x;
      assert !HigherScore()(sorted[n + j], sorted[k]);
    }
  }

  /** Fuzzy results have non-increasing scores, min(maxResults, candidates)
      of them, every one with a non-zero score; an exact ICAO match comes
      before every other result; a scoring airport left out scores no higher
      than any result; and when at most maxResults airports score, all of
      them are returned. */
  lemma {:induction false} RankedSpec(query: string, airports: seq<Airport>, maxResults: nat)
    ensures var r := Ranked(query, airports, maxResults);
            var c := Candidates(query, airports);
            |r| == (if |c| <= maxResults then |c| else maxResults)
            && (forall k :: 0 <= k < |r| ==> Score(query, r[k]) != 0.0 && r[k] in airports)
            && (forall k, l :: 0 <= k < l < |r| ==> Score(query, r[k]) >= Score(query, r[l]))
            && (forall k, l :: 0 <= k < l < |r| && Lower(r[l].icao) == Lower(query) ==>
                  Lower(r[k].icao) == Lower(query))
            && (forall i, k ::
                  (0 <= i < |airports| && Score(query, airports[i]) != 0.0 && airports[i] !in r && 0 <= k < |r|)
                  ==> Score(query, airports[i]) <= Score(query, r[k]))
            && (|c| <= maxResults ==>
                  forall i :: 0 <= i < |airports| && Score(query, airports[i]) != 0.0 ==> airports[i] in r)
  {
    TopSpec(query, airports, maxResults);
    RankedScores(query, airports, maxResults);
    RankedExactFirst(query, airports, maxResults);
    RankedBest(query, airports, maxResults);
    RankedComplete(query, airports, maxResults);
  }

  /** A scoring airport that is not returned scores no higher than any
      returned one. */
  lemma RankedBest(query: string, airports: seq<Airport>, maxResults: nat)
    ensures var r := Ranked(query, airports, maxResults);
            forall i, k ::
              (0 <= i < |airports| && Score(query, airports[i]) != 0.0 && airports[i] !in r && 0 <= k < |r|)
              ==> Score(query, airports[i]) <= Score(query, r[k])
  {
    var r := Ranked(query, airports, maxResults);
    forall i, k | 0 <= i < |airports| && Score(query, airports[i]) != 0.0 && airports[i] !in r && 0 <= k < |r|
      ensures Score(query, airports[i]) <= Score(query, r[k])
    {
      RankedBestAt(query, airports, maxResults, i, k);
    }
  }

  lemma RankedBestAt(query: string, airports: seq<Airport>, maxResults: nat, i: nat, k: nat)
    requires i < |airports| && Score(query, airports[i]) != 0.0
    requires airports[i] !in Ranked(query, airports, maxResults) && k < |Ranked(query, airports, maxResults)|
    ensures Score(query, airports[i]) <= Score(query, Ranked(query, airports, maxResults)[k])
  {
    var score := (a: Airport) => Score(query, a);
    var c := Candidates(query, airports);
    var top := Top(query, airports, maxResults);
    var x := Scored(airports[i], Score(query, airports[i]));
    assert x in c by {
      ScoreSpec(query, airports[i]);
      CandidatesComplete(score, airports);
    }
    assert top[k] in c
           && forall y, j :: y in multiset(c) - multiset(top) && 0 <= j < |top| ==> y.score <= top[j].score
    by {
      TopOf(c, maxResults);
    }
    assert x.score <= top[k].score by {
      DroppedScoresLower(c, top, x);
    }
    assert top[k].score == Score(query, top[k].airport) by {
      CandidatesSound(score, airports);
    }
  }

  /** Each result is a scoring airport, and the scores do not increase. */
  lemma RankedScores(query: string, airports: seq<Airport>, maxResults: nat)
    ensures var r := Ranked(query, airports, maxResults);
            var top := Top(query, airports, maxResults);
            |r| <= maxResults
            && (forall k :: 0 <= k < |r| ==>
                  top[k].score == Score(query, r[k]) && Score(query, r[k]) != 0.0 && r[k] in airports)
            && (forall k, l :: 0 <= k < l < |r| ==> Score(query, r[k]) >= Score(query, r[l]))
  {
    var c := Candidates(query, airports);
    var top := Top(query, airports, maxResults);
    var r := Ranked(query, airports, maxResults);
    CandidatesSpec(query, airports);
    TopSpec(query, airports, maxResults);
    forall k | 0 <= k < |r|
      ensures top[k].score == Score(query, r[k]) && Score(query, r[k]) != 0.0 && r[k] in airports
    {
      assert top[k] in c;
    }
  }

  /** An exact ICAO match outranks every other result. */
  lemma RankedExactFirst(query: string, airports: seq<Airport>, maxResults: nat)
    ensures var r := Ranked(query, airports, maxResults);
            forall k, l :: 0 <= k < l < |r| && Lower(r[l].icao) == Lower(query) ==>
              Lower(r[k].icao) == Lower(query)
  {
    var r := Ranked(query, airports, maxResults);
    RankedScores(query, airports, maxResults);
    forall k, l | 0 <= k < l < |r| && Lower(r[l].icao) == Lower(query)
      ensures Lower(r[k].icao) == Lower(query)
    {
      ScoreSpec(query, r[l]);
      ScoreSpec(query, r[k]);
    }
  }

  /** Every kept entry's airport is among the returned airports. */
  lemma KeptAirports(top: seq<Scored>)
    ensures forall x :: x in multiset(top) ==> x.airport in Unscored(top)
  {
    forall x | x in multiset(top) ensures x.airport in Unscored(top) {
      var j :| 0 <= j < |top| && top[j] == x;
      assert Unscored(top)[j] == x.airport;
    }
  }

  /** A candidate whose airport was not returned scores no higher than any
      kept entry, when the kept entries are the best. */
  lemma DroppedScoresLower(c: seq<Scored>, top: seq<Scored>, x: Scored)
    requires x in c && x.airport !in Unscored(top)
    requires forall y, k :: y in multiset(c) - multiset(top) && 0 <= k < |top| ==> y.score <= top[k].score
    ensures forall k :: 0 <= k < |top| ==> x.score <= top[k].score
  {
    KeptAirports(top);
    assert x !in multiset(top);
    assert x in multiset(c) - multiset(top);
  }

  /** With room for every candidate, every scoring airport is returned. */
  lemma RankedComplete(query: string, airports: seq<Airport>, maxResults: nat)
    ensures |Candidates(query, airports)| <= maxResults ==>
              forall i :: 0 <= i < |airports| && Score(query, airports[i]) != 0.0 ==>
                airports[i] in Ranked(query, airports, maxResults)
  {
    var c := Candidates(query, airports);
    var top := Top(query, airports, maxResults);
    var r := Ranked(query, airports, maxResults);
    if |c| <= maxResults {
      CandidatesSpec(query, airports);
      TopSpec(query, airports, maxResults);
      forall i | 0 <= i < |airports| && Score(query, airports[i]) != 0.0 ensures airports[i] in r {
        ScoreSpec(query, airports[i]);
        var s := Scored(airports[i], Score(query, airports[i]));
        assert s in multiset(top);
        var k :| 0 <= k < |top| && top[k] == s;
        assert r[k] == airports[i];
      }
    }
  }

  // ---------------------------------------------------------------------
  // searchAirports (DistanceCalculator.swift:25-47).

  predicate IcaoHit(a: Airport, query: string) { Contains(Lower(a.icao), Lower(query)) }

  predicate AnyHit(a: Airport, query: string)
  {
    IcaoHit(a, query) || Contains(Lower(a.name), Lower(query)) || Contains(Lower(a.city), Lower(query))
  }

  /** The relevance comparator: ICAO matches first, otherwise ICAO ascending. */
  function Relevance(query: string): (Airport, Airport) -> bool
  {
    (x: Airport, y: Airport) =>
      if IcaoHit(x, query) && !IcaoHit(y, query) then true
      else if !IcaoHit(x, query) && IcaoHit(y, query) then false
      else Sorting.StrLess(x.icao, y.icao)
  }

  function SearchAirports(query: string, airports: seq<Airport>): seq<Airport>
  {
    if query == "" then []
    else Sorting.InsertionSort(Filter(airports, a => AnyHit(a, query)), Relevance(query))
  }

  lemma RelevanceIsStrictWeakOrder(query: string)
    ensures Sorting.StrictWeakOrder(Relevance(query))
  {
    var lt := Relevance(query);
    forall a, b | lt(a, b) ensures !lt(b, a) {
      if IcaoHit(a, query) == IcaoHit(b, query) { Sorting.StrLessAsymmetric(a.icao, b.icao); }
    }
    forall a, b, c | !lt(a, b) && !lt(b, c) ensures !lt(a, c) {
      if IcaoHit(a, query) == IcaoHit(b, query) == IcaoHit(c, query) && Sorting.StrLess(a.icao, c.icao) {
        Sorting.StrLessTotal(a.icao, b.icao);
        Sorting.StrLessTotal(b.icao, c.icao);
        if Sorting.StrLess(b.icao, a.icao) && Sorting.StrLess(c.icao, b.icao) {
          Sorting.StrLessTransitive(c.icao, b.icao, a.icao);
          Sorting.StrLessAsymmetric(a.icao, c.icao);
        } else if a.icao == b.icao {
          Sorting.StrLessAsymmetric(a.icao, c.icao);
        } else if b.icao == c.icao {
          Sorting.StrLessAsymmetric(a.icao, c.icao);
        }
      }
    }
  }

  /** An empty query gives nothing; otherwise the result is a permutation of
      the airports matching in ICAO, name or city, with every ICAO match
      ahead of every non-ICAO match and each group in ascending ICAO order. */
  lemma SearchAirportsSpec(query: string, airports: seq<Airport>)
    ensures query == "" ==> SearchAirports(query, airports) == []
    ensures var r := SearchAirports(query, airports);
            query != "" ==>
              multiset(r) == multiset(Filter(airports, a => AnyHit(a, query)))
              && (forall k, l :: 0 <= k < l < |r| && IcaoHit(r[l], query) ==> IcaoHit(r[k], query))
              && (forall k, l :: 0 <= k < l < |r| && IcaoHit(r[k], query) == IcaoHit(r[l], query) ==>
                    !Sorting.StrLess(r[l].icao, r[k].icao))
  {
    if query != "" {
      RelevanceIsStrictWeakOrder(query);
      Sorting.InsertionSortSpec(Filter(airports, a => AnyHit(a, query)), Relevance(query));
    }
  }

  // ---------------------------------------------------------------------
  // calculateDistance(fromIcao:toIcao:airports:) (DistanceCalculator.swift:16-23).

  /** `airports.first(where: { $0.icao == code })`: case-sensitive. */
  function First(code: string, airports: seq<Airport>): Option<Airport>
  {
    if airports == [] then None
    else if airports[0].icao == code then Some(airports[0])
    else First(code, airports[1..])
  }

  const MetresToNm: real := 0.000539957

  /** `metres` is CLLocation's distance between two airports. */
  function CalculateDistance(fromIcao: string, toIcao: string, airports: seq<Airport>,
                             metres: (Airport, Airport) -> real): real
  {
    var from := First(fromIcao, airports);
    var to := First(toIcao, airports);
    if from.None? || to.None? then 0.0
    else metres(from.value, to.value) * MetresToNm
  }

  lemma {:induction false} FirstSpec(code: string, airports: seq<Airport>)
    ensures First(code, airports).None? <==> forall i :: 0 <= i < |airports| ==> airports[i].icao != code
    ensures First(code, airports).Some? ==> First(code, airports).value.icao == code
  {
    if airports != [] {
      FirstSpec(code, airports[1..]);
      if airports[0].icao != code {
        forall i | 0 <= i < |airports| && airports[i].icao == code ensures i > 0 && airports[1..][i - 1].icao == code {}
      }
    }
  }

  /** A missing airport gives 0.0, the same value as a zero-length leg: the
      caller cannot tell "missing" from "no distance". The lookup is
      case-sensitive, so a lower-case code misses an upper-case record. */
  lemma MissingGivesZero(fromIcao: string, toIcao: string, airports: seq<Airport>,
                         metres: (Airport, Airport) -> real)
    requires forall i :: 0 <= i < |airports| ==> airports[i].icao != fromIcao
    ensures CalculateDistance(fromIcao, toIcao, airports, metres) == 0.0
    ensures CalculateDistance(toIcao, fromIcao, airports, metres) == 0.0
  {
    FirstSpec(fromIcao, airports);
  }

  lemma CaseSensitive(a: Airport, metres: (Airport, Airport) -> real)
    requires a.icao == "KTCM"
    ensures CalculateDistance("ktcm", "KTCM", [a], metres) == 0.0
    ensures CalculateDistance("KTCM", "KTCM", [a], metres) == metres(a, a) * 0.000539957
  {
    assert "ktcm"[0] != "KTCM"[0];
    assert a.icao != "ktcm";
    assert First("ktcm", [a]) == None;
  }
}
