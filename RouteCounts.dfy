/**
 * The "most frequent route" computation shared by the React Native
 * statistics (ios-native/src/services/MissionService.ts:122-142) and the
 * server's flight statistics (server/storage.ts:256-269): count each
 * "dep-arr" key in a Map (or plain object) whose keys keep insertion
 * order, then scan the entries keeping the first one with a strictly
 * larger count.
 */
module RouteCounts {
  import opened Common

  /** How often `k` occurs in `s`. */
  function Occurrences(s: seq<string>, k: string): nat
  {
    if s == [] then 0
    else Occurrences(s[..|s| - 1], k) + (if s[|s| - 1] == k then 1 else 0)
  }

  lemma OccurrencesSnoc(s: seq<string>, x: string, k: string)
    ensures Occurrences(s + [x], k) == Occurrences(s, k) + (if x == k then 1 else 0)
  {
    assert (s + [x])[..|s|] == s;
  }

  lemma {:induction false} OccurrencesPositive(s: seq<string>, k: string)
    ensures Occurrences(s, k) > 0 <==> k in s
  {
    if s != [] {
      OccurrencesPositive(s[..|s| - 1], k);
      assert s == s[..|s| - 1] + [s[|s| - 1]];
    }
  }

  /** The entries scan over `keys[..n]`: the route kept and its count. */
  function Scan(keys: seq<string>, routes: seq<string>, default: string): (string, nat)
  {
    if keys == [] then (default, 0)
    else
      var prev := Scan(keys[..|keys| - 1], routes, default);
      var k := keys[|keys| - 1];
      if Occurrences(routes, k) > prev.1 then (k, Occurrences(routes, k)) else prev
  }

  /** The scan keeps the maximal count and the first key reaching it. */
  lemma {:induction false} ScanSpec(keys: seq<string>, routes: seq<string>, default: string)
    ensures var (best, max) := Scan(keys, routes, default);
            && (forall i :: 0 <= i < |keys| ==> Occurrences(routes, keys[i]) <= max)
            && (max == 0 ==> best == default)
            && (max > 0 ==> exists j :: 0 <= j < |keys| && keys[j] == best
                                && Occurrences(routes, best) == max
                                && forall i :: 0 <= i < j ==> Occurrences(routes, keys[i]) < max)
  {
    if keys != [] {
      var init := keys[..|keys| - 1];
      ScanSpec(init, routes, default);
      var prev := Scan(init, routes, default);
      var k := keys[|keys| - 1];
      if Occurrences(routes, k) > prev.1 {
        var j := |keys| - 1;
        assert forall i :: 0 <= i < j ==> keys[i] == init[i];
      } else if prev.1 > 0 {
        var j :| 0 <= j < |init| && init[j] == prev.0 && Occurrences(routes, prev.0) == prev.1
                 && forall i :: 0 <= i < j ==> Occurrences(routes, init[i]) < prev.1;
        assert keys[j] == init[j];
        assert forall i :: 0 <= i < j ==> keys[i] == init[i];
      }
      assert forall i :: 0 <= i < |keys| - 1 ==> keys[i] == init[i];
    }
  }

  function MostFrequentRoute(routes: seq<string>, default: string): string
  {
    Scan(Dedup(routes), routes, default).0
  }

  /** The most frequent route is the default exactly when there are no
      routes; otherwise it is a route with a count no other route exceeds,
      and every route seen before it for the first time has a smaller
      count. */
  lemma MostFrequentRouteSpec(routes: seq<string>, default: string)
    ensures routes == [] ==> MostFrequentRoute(routes, default) == default
    ensures routes != [] ==>
              var best := MostFrequentRoute(routes, default);
              && best in routes
              && (forall k :: Occurrences(routes, k) <= Occurrences(routes, best))
              && exists j :: 0 <= j < |Dedup(routes)| && Dedup(routes)[j] == best
                   && forall i :: 0 <= i < j ==> Occurrences(routes, Dedup(routes)[i]) < Occurrences(routes, best)
  {
    var keys := Dedup(routes);
    ScanSpec(keys, routes, default);
    var (best, max) := Scan(keys, routes, default);
    if routes != [] {
      OccurrencesPositive(routes, routes[0]);
      assert routes[0] in keys;
      var i0 :| 0 <= i0 < |keys| && keys[i0] == routes[0];
      assert max > 0;
      forall k
        ensures Occurrences(routes, k) <= Occurrences(routes, best)
      {
        OccurrencesPositive(routes, k);
        if k in routes {
          var i :| 0 <= i < |keys| && keys[i] == k;
        }
      }
      OccurrencesPositive(routes, best);
    }
  }

  // ---------------------------------------------------------------------
  // The counting Map and the entries scan, as the sources write them.

  /** A Map from route to count whose insertion order is `keys`. */
  ghost predicate Tallies(keys: seq<string>, freq: map<string, nat>, routes: seq<string>)
  {
    && keys == Dedup(routes)
    && (forall k :: k in freq <==> k in routes)
    && (forall k :: k in freq ==> freq[k] == Occurrences(routes, k))
  }

  /** `counts[route] = (counts[route] || 0) + 1` */
  method Tally(keys: seq<string>, freq: map<string, nat>, route: string, ghost routes: seq<string>)
    returns (keys': seq<string>, freq': map<string, nat>)
    requires Tallies(keys, freq, routes)
    ensures Tallies(keys', freq', routes + [route])
  {
    DedupSnoc(routes, route);
    forall k ensures Occurrences(routes + [route], k) == Occurrences(routes, k) + (if route == k then 1 else 0) {
      OccurrencesSnoc(routes, route, k);
    }
    if route in freq {
      keys' := keys;
      freq' := freq[route := freq[route] + 1];
    } else {
      keys' := keys + [route];
      freq' := freq[route := 1];
      OccurrencesPositive(routes, route);
    }
  }

  /** The entries loop with `maxCount` and `mostFrequentRoute`. */
  method PickMostFrequent(keys: seq<string>, freq: map<string, nat>, default: string, ghost routes: seq<string>)
    returns (best: string)
    requires Tallies(keys, freq, routes)
    ensures best == MostFrequentRoute(routes, default)
  {
    best := default;
    var maxCount := 0;
    var i := 0;
    while i < |keys|
      invariant 0 <= i <= |keys|
      invariant (best, maxCount) == Scan(keys[..i], routes, default)
    {
      assert keys[..i + 1][..i] == keys[..i];
      assert keys[i] in routes;
      var count := freq[keys[i]];
      if count > maxCount {
        maxCount := count;
        best := keys[i];
      }
      i := i + 1;
    }
    assert keys[..i] == keys;
  }
}
