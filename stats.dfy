/**
 * `calculateStats` of app/page.tsx: the summary over the current view.
 * The most recent sighting is the head of a stable descending sort on the date; the most
 * ghostly city is the head of a stable descending sort of the per-"city, state" counts, taken
 * in the counting object's insertion order, split back into city and state on ", ".
 */
module Statistics {
  import opened SightingTypes
  import opened Sorting
  import opened Strings

  /** 1000 * 60 * 60 * 24 */
  const MsPerDay: int := 86400000

  /** `Math.floor((now - thenMs) / MsPerDay)`: whole days, rounded down, negative for a future date. */
  function DaysAgo(thenMs: int, now: int): (d: int)
    ensures d * MsPerDay <= now - thenMs < (d + 1) * MsPerDay
  {
    (now - thenMs) / MsPerDay
  }

  function DateKey(s: Sighting): int { s.dateMs }

  /** The grouping key `${city}, ${state}`. */
  function CityKey(s: Sighting): string { Join(s.city, s.state) }

  /** How many records have grouping key `k`. */
  function CountKey(data: seq<Sighting>, k: string): nat {
    if data == [] then 0
    else CountKey(data[..|data| - 1], k) + (if CityKey(data[|data| - 1]) == k then 1 else 0)
  }

  predicate NoDup(keys: seq<string>) {
    forall i, j :: 0 <= i < j < |keys| ==> keys[i] != keys[j]
  }

  /** The keys of the counting object in insertion order: each key once, where it first occurs. */
  function KeysInOrder(data: seq<Sighting>): (keys: seq<string>)
    ensures NoDup(keys)
  {
    if data == [] then []
    else
      var keys := KeysInOrder(data[..|data| - 1]);
      var k := CityKey(data[|data| - 1]);
      if k in keys then keys else keys + [k]
  }

  /** The object ends up with exactly the keys of the records. */
  lemma {:induction false} KeysInOrderMembership(data: seq<Sighting>, k: string)
    ensures k in KeysInOrder(data) <==> exists i :: 0 <= i < |data| && CityKey(data[i]) == k
  {
    if data != [] {
      var init := data[..|data| - 1];
      KeysInOrderMembership(init, k);
      assert forall i :: 0 <= i < |init| ==> data[i] == init[i];
    }
  }

  /** A key is counted exactly when the object holds it. */
  lemma {:induction false} CountKeyPositive(data: seq<Sighting>, k: string)
    ensures CountKey(data, k) > 0 <==> k in KeysInOrder(data)
  {
    if data != [] {
      CountKeyPositive(data[..|data| - 1], k);
    }
  }

  function CountOf(e: (string, nat)): int { e.1 }

  /** `Object.entries(cityCounts)`. */
  function CityEntries(data: seq<Sighting>): (entries: seq<(string, nat)>)
    ensures |entries| == |KeysInOrder(data)|
  {
    var keys := KeysInOrder(data);
    seq(|keys|, i requires 0 <= i < |keys| => (keys[i], CountKey(data, keys[i])))
  }

  /** The stats `calculateStats` stores for `data` when the clock reads `now`. */
  function StatsOf(data: seq<Sighting>, now: int): Option<Stats> {
    if data == [] then None
    else
      var mostRecent := SortDesc(data, DateKey)[0];
      KeysInOrderMembership(data, CityKey(data[0]));
      var top := SortDesc(CityEntries(data), CountOf)[0];
      var (city, state) := FirstTwo(top.0);
      Some(Stats(|data|, mostRecent.date, DaysAgo(mostRecent.dateMs, now), city, state))
  }

  /** The `reduce` building `cityCounts`: a fresh object, one key per "city, state", in insertion order. */
  method CountCities(data: seq<Sighting>) returns (order: seq<string>, counts: map<string, nat>)
    ensures order == KeysInOrder(data)
    ensures forall k :: k in counts <==> k in order
    ensures forall k :: k in counts ==> counts[k] == CountKey(data, k)
  {
    order, counts := [], map[];
    var i := 0;
    while i < |data|
      invariant 0 <= i <= |data|
      invariant order == KeysInOrder(data[..i])
      invariant forall k :: k in counts <==> k in order
      invariant forall k :: k in counts ==> counts[k] == CountKey(data[..i], k)
    {
      var key := CityKey(data[i]);
      assert data[..i + 1][..i] == data[..i];
      assert KeysInOrder(data[..i + 1]) == if key in order then order else order + [key];
      assert forall k :: CountKey(data[..i + 1], k) == CountKey(data[..i], k) + (if key == k then 1 else 0);
      CountKeyPositive(data[..i], key);
      if key !in counts {
        order := order + [key];
      }
      counts := counts[key := (if key in counts then counts[key] else 0) + 1];
      i := i + 1;
    }
    assert data[..i] == data;
  }

  method CalculateStats(data: seq<Sighting>, now: int) returns (stats: Option<Stats>)
    ensures stats == StatsOf(data, now)
    ensures stats.None? <==> data == []
    ensures stats.Some? ==> stats.value.totalSightings == |data|
  {
    if |data| == 0 {
      return None;
    }
    var sortedByDate := SortDesc(data, DateKey);
    var mostRecent := sortedByDate[0];
    var daysAgo := DaysAgo(mostRecent.dateMs, now);

    var order, cityCounts := CountCities(data);
    var entries := seq(|order|, i requires 0 <= i < |order| => (order[i], cityCounts[order[i]]));
    assert entries == CityEntries(data);
    KeysInOrderMembership(data, CityKey(data[0]));
    var top := SortDesc(entries, CountOf)[0];
    var (city, state) := FirstTwo(top.0);

    stats := Some(Stats(|data|, mostRecent.date, daysAgo, city, state));
  }

  /** Record `i` is the one `sortedByDate[0]` picks: a latest date, and the first record with it. */
  predicate IsFirstLatest(data: seq<Sighting>, i: int) {
    0 <= i < |data|
    && (forall j :: 0 <= j < |data| ==> data[j].dateMs <= data[i].dateMs)
    && (forall j :: 0 <= j < i ==> data[j].dateMs < data[i].dateMs)
  }

  /** `k` has the largest count among all keys. */
  ghost predicate MostFrequent(data: seq<Sighting>, k: string) {
    CountKey(data, k) > 0 && forall k' :: CountKey(data, k') <= CountKey(data, k)
  }

  /** Every record whose key ties with `k` comes no earlier than some record with key `k`. */
  predicate FirstAmongTies(data: seq<Sighting>, k: string) {
    forall j :: 0 <= j < |data| && CountKey(data, CityKey(data[j])) == CountKey(data, k) ==>
      exists i :: 0 <= i <= j && CityKey(data[i]) == k
  }

  /**
   * The most recent date is the date of the first record with the latest timestamp, and the day
   * count is the floored difference to `now`, unclamped.
   */
  lemma MostRecentIsLatest(data: seq<Sighting>, now: int)
    requires data != []
    ensures exists i :: (IsFirstLatest(data, i)
      && StatsOf(data, now).value.mostRecentDate == data[i].date
      && StatsOf(data, now).value.mostRecentDaysAgo == DaysAgo(data[i].dateMs, now))
  {
    SortDescHead(data, DateKey);
    var i := FirstMaxIndex(data, DateKey);
    assert IsFirstLatest(data, i);
  }

  function SumCounts(data: seq<Sighting>, keys: seq<string>): nat {
    if keys == [] then 0 else SumCounts(data, keys[..|keys| - 1]) + CountKey(data, keys[|keys| - 1])
  }

  lemma {:induction false} SumCountsAppend(data: seq<Sighting>, x: Sighting, keys: seq<string>)
    requires NoDup(keys)
    ensures SumCounts(data + [x], keys) == SumCounts(data, keys) + (if CityKey(x) in keys then 1 else 0)
  {
    assert (data + [x])[..|data|] == data;
    if keys != [] {
      var init := keys[..|keys| - 1];
      SumCountsAppend(data, x, init);
      assert keys == init + [keys[|keys| - 1]];
    }
  }

  /** The counts of all keys add up to the number of records. */
  lemma {:induction false} CountsSumToTotal(data: seq<Sighting>)
    ensures SumCounts(data, KeysInOrder(data)) == |data|
  {
    if data != [] {
      var init := data[..|data| - 1];
      var x := data[|data| - 1];
      var k := CityKey(x);
      var keys := KeysInOrder(init);
      CountsSumToTotal(init);
      assert data == init + [x];
      SumCountsAppend(init, x, keys);
      if k !in keys {
        CountKeyPositive(init, k);
        assert (keys + [k])[..|keys|] == keys;
      }
    }
  }

  /** The object's keys as they stood after the first `n` records lead its final key list. */
  lemma {:induction false} KeysInOrderPrefix(data: seq<Sighting>, n: nat)
    requires n <= |data|
    ensures KeysInOrder(data[..n]) <= KeysInOrder(data)
  {
    if n < |data| {
      var init := data[..|data| - 1];
      assert data[..n] == init[..n];
      KeysInOrderPrefix(init, n);
    } else {
      assert data[..n] == data;
    }
  }

  /** A key inserted no later than record `j`'s key occurs at or before `j`. */
  lemma KeysFollowFirstOccurrence(data: seq<Sighting>, a: nat, p: nat, j: nat)
    requires j < |data| && a <= p < |KeysInOrder(data)|
    requires KeysInOrder(data)[p] == CityKey(data[j])
    ensures exists i :: 0 <= i <= j && CityKey(data[i]) == KeysInOrder(data)[a]
  {
    var keys := KeysInOrder(data);
    var front := data[..j + 1];
    var early := KeysInOrder(front);
    KeysInOrderPrefix(data, j + 1);
    KeysInOrderMembership(front, CityKey(data[j]));
    assert front[j] == data[j];
    var q :| 0 <= q < |early| && early[q] == CityKey(data[j]);
    assert keys[q] == early[q];
    assert q == p;
    assert early[a] in early;
    KeysInOrderMembership(front, keys[a]);
    var i :| 0 <= i < |front| && CityKey(front[i]) == keys[a];
    assert CityKey(data[i]) == keys[a];
  }

  /**
   * The chosen city is split from a most frequent key, and among tied keys from the one whose
   * first record comes first.
   */
  lemma MostGhostlyIsMostFrequent(data: seq<Sighting>, now: int)
    requires data != []
    ensures exists k :: (MostFrequent(data, k) && FirstAmongTies(data, k)
      && (StatsOf(data, now).value.mostGhostlyCity, StatsOf(data, now).value.mostGhostlyCityState) == FirstTwo(k))
  {
    var keys := KeysInOrder(data);
    var entries := CityEntries(data);
    KeysInOrderMembership(data, CityKey(data[0]));
    SortDescHead(entries, CountOf);
    var m := FirstMaxIndex(entries, CountOf);
    var k := keys[m];
    assert entries[m] == (k, CountKey(data, k));
    CountKeyPositive(data, k);
    forall k' ensures CountKey(data, k') <= CountKey(data, k) {
      CountKeyPositive(data, k');
      if k' in keys {
        var q :| 0 <= q < |keys| && keys[q] == k';
        assert entries[q] == (k', CountKey(data, k'));
      }
    }
    forall j | 0 <= j < |data| && CountKey(data, CityKey(data[j])) == CountKey(data, k)
      ensures exists i :: 0 <= i <= j && CityKey(data[i]) == k
    {
      KeysInOrderMembership(data, CityKey(data[j]));
      var q :| 0 <= q < |keys| && keys[q] == CityKey(data[j]);
      assert entries[q] == (keys[q], CountKey(data, keys[q]));
      KeysFollowFirstOccurrence(data, m, q, j);
    }
    assert MostFrequent(data, k) && FirstAmongTies(data, k);
  }

  /**
   * When no city or state holds ", ", the card shows exactly the city and state of a record
   * with the most frequent key.
   */
  lemma MostGhostlyExact(data: seq<Sighting>, now: int)
    requires data != []
    requires forall i :: 0 <= i < |data| ==> !ContainsSep(data[i].city) && !ContainsSep(data[i].state)
    ensures exists i :: (0 <= i < |data| && MostFrequent(data, CityKey(data[i]))
      && FirstAmongTies(data, CityKey(data[i]))
      && StatsOf(data, now).value.mostGhostlyCity == data[i].city
      && StatsOf(data, now).value.mostGhostlyCityState == data[i].state)
  {
    MostGhostlyIsMostFrequent(data, now);
    var k :| MostFrequent(data, k) && FirstAmongTies(data, k)
      && (StatsOf(data, now).value.mostGhostlyCity, StatsOf(data, now).value.mostGhostlyCityState) == FirstTwo(k);
    CountKeyPositive(data, k);
    KeysInOrderMembership(data, k);
    var i :| 0 <= i < |data| && CityKey(data[i]) == k;
    SplitJoin(data[i].city, data[i].state);
  }
}
