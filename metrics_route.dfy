/**
 * `/api/metrics` (src/app/api/metrics/route.ts): `POST` validates a payload
 * and appends it to a module-level store bounded at 1000 entries; `GET`
 * (development only) filters by component, sorts newest first with the
 * engine's stable sort, and returns at most `limit` entries with the count
 * before the cut. The request body, the query parameters and `NODE_ENV` are
 * inputs.
 */
module MetricsRoute {
  import opened Common

  /** The `metrics` object of a payload, kept as given. */
  datatype PerformanceMetrics = PerformanceMetrics(values: map<string, real>)

  datatype MetricsEntry = MetricsEntry(componentName: string, metrics: PerformanceMetrics, timestamp: int)

  /** `await request.json()`: unparseable or `null` (both end in the catch), or an object with optional fields. */
  datatype PostBody = Unparseable | Payload(componentName: Option<string>, metrics: Option<PerformanceMetrics>, timestamp: Option<int>)

  const MaxMetricsEntries: nat := 1000

  // ---------------------------------------------------------------------------
  // POST
  // ---------------------------------------------------------------------------

  /** `componentName`, `metrics` and `timestamp` are all truthy. */
  predicate ValidPayload(body: PostBody) {
    body.Payload? && body.componentName.Some? && body.componentName.value != "" &&
    body.metrics.Some? && body.timestamp.Some? && body.timestamp.value != 0
  }

  function EntryOf(body: PostBody): MetricsEntry
    requires ValidPayload(body)
  {
    MetricsEntry(body.componentName.value, body.metrics.value, body.timestamp.value)
  }

  datatype PostResult = PostResult(status: int, store: seq<MetricsEntry>)

  /** `POST`: 500 when the body cannot be read, 400 for an invalid payload, otherwise append and trim. */
  function PostSpec(store: seq<MetricsEntry>, body: PostBody): (r: PostResult)
    ensures body.Unparseable? ==> r == PostResult(500, store)
    ensures body.Payload? && !ValidPayload(body) ==> r == PostResult(400, store)
    ensures ValidPayload(body) ==> r.status == 200 && r.store == KeepNewest(store + [EntryOf(body)], MaxMetricsEntries)
  {
    if body.Unparseable? then PostResult(500, store)
    else if !ValidPayload(body) then PostResult(400, store)
    else PostResult(200, KeepNewest(store + [EntryOf(body)], MaxMetricsEntries))
  }

  /** A stored payload is the newest entry, the store stays within 1000, and only the oldest entries are dropped. */
  lemma PostKeepsNewest(store: seq<MetricsEntry>, body: PostBody)
    requires ValidPayload(body) && |store| <= MaxMetricsEntries
    ensures var s := PostSpec(store, body).store;
      |s| <= MaxMetricsEntries && s[|s| - 1] == EntryOf(body) &&
      s[..|s| - 1] == store[|store| + 1 - |s|..]
  {
    var s := PostSpec(store, body).store;
    var all := store + [EntryOf(body)];
    assert s == all[|all| - |s|..];
    assert s[..|s| - 1] == all[|all| - |s|..|all| - 1];
  }

  // ---------------------------------------------------------------------------
  // Sorting newest first
  // ---------------------------------------------------------------------------

  /** Non-increasing timestamps. */
  predicate NewestFirst(s: seq<MetricsEntry>) {
    forall i, j :: 0 <= i < j < |s| ==> s[i].timestamp >= s[j].timestamp
  }

  /** Places `x` before the first entry that is not newer than it. */
  function Insert(x: MetricsEntry, s: seq<MetricsEntry>): (r: seq<MetricsEntry>)
    ensures multiset(r) == multiset{x} + multiset(s)
    ensures |r| == |s| + 1
  {
    if |s| == 0 || x.timestamp >= s[0].timestamp then [x] + s
    else
      assert s == [s[0]] + s[1..];
      [s[0]] + Insert(x, s[1..])
  }

  /**
   * `sort((a, b) => b.timestamp - a.timestamp)` with a stable sort: newest
   * first, entries with equal timestamps in their original order.
   */
  function SortNewestFirst(s: seq<MetricsEntry>): (r: seq<MetricsEntry>)
    ensures multiset(r) == multiset(s)
    ensures |r| == |s|
  {
    if |s| == 0 then []
    else
      assert s == [s[0]] + s[1..];
      Insert(s[0], SortNewestFirst(s[1..]))
  }

  /** Inserting an entry no newer than `bound` among entries no newer than `bound` gives entries no newer than `bound`. */
  lemma {:induction false} InsertBounded(x: MetricsEntry, s: seq<MetricsEntry>, bound: int)
    requires x.timestamp <= bound && forall i :: 0 <= i < |s| ==> s[i].timestamp <= bound
    ensures forall i :: 0 <= i < |Insert(x, s)| ==> Insert(x, s)[i].timestamp <= bound
    decreases |s|
  {
    if |s| > 0 && x.timestamp < s[0].timestamp {
      InsertBounded(x, s[1..], bound);
    }
  }

  lemma {:induction false} InsertKeepsOrder(x: MetricsEntry, s: seq<MetricsEntry>)
    requires NewestFirst(s)
    ensures NewestFirst(Insert(x, s))
    decreases |s|
  {
    if |s| > 0 && x.timestamp < s[0].timestamp {
      var rest := Insert(x, s[1..]);
      InsertKeepsOrder(x, s[1..]);
      InsertBounded(x, s[1..], s[0].timestamp);
      assert Insert(x, s) == [s[0]] + rest;
    }
  }

  /** The sorted store is newest first. */
  lemma {:induction false} SortIsNewestFirst(s: seq<MetricsEntry>)
    ensures NewestFirst(SortNewestFirst(s))
    decreases |s|
  {
    if |s| > 0 {
      SortIsNewestFirst(s[1..]);
      InsertKeepsOrder(s[0], SortNewestFirst(s[1..]));
    }
  }

  /** The entries carrying timestamp t, in order. */
  function WithTimestamp(s: seq<MetricsEntry>, t: int): seq<MetricsEntry> {
    if |s| == 0 then []
    else (if s[0].timestamp == t then [s[0]] else []) + WithTimestamp(s[1..], t)
  }

  lemma {:induction false} InsertIsStable(x: MetricsEntry, s: seq<MetricsEntry>, t: int)
    ensures WithTimestamp(Insert(x, s), t) == (if x.timestamp == t then [x] else []) + WithTimestamp(s, t)
    decreases |s|
  {
    if |s| == 0 || x.timestamp >= s[0].timestamp {
      assert ([x] + s)[1..] == s;
    } else {
      var rest := Insert(x, s[1..]);
      InsertIsStable(x, s[1..], t);
      assert Insert(x, s) == [s[0]] + rest;
      assert ([s[0]] + rest)[1..] == rest;
    }
  }

  /** The sort is stable: for every timestamp, the entries carrying it keep their relative order. */
  lemma {:induction false} SortIsStable(s: seq<MetricsEntry>, t: int)
    ensures WithTimestamp(SortNewestFirst(s), t) == WithTimestamp(s, t)
    decreases |s|
  {
    if |s| > 0 {
      SortIsStable(s[1..], t);
      InsertIsStable(s[0], SortNewestFirst(s[1..]), t);
    }
  }

  // ---------------------------------------------------------------------------
  // GET
  // ---------------------------------------------------------------------------

  /** `metricsStore.filter(m => m.componentName === component)`. */
  function ForComponent(s: seq<MetricsEntry>, component: string): (r: seq<MetricsEntry>)
    ensures forall i :: 0 <= i < |r| ==> r[i].componentName == component
    ensures forall e :: e in s && e.componentName == component ==> e in r
    ensures forall e :: e in r ==> e in s
  {
    if |s| == 0 then []
    else
      assert forall e :: e in s <==> e == s[0] || e in s[1..];
      (if s[0].componentName == component then [s[0]] else []) + ForComponent(s[1..], component)
  }

  /** The filter keeps each matching entry as often as the store holds it, and no other entry. */
  lemma {:induction false} ForComponentCounts(s: seq<MetricsEntry>, component: string)
    ensures forall e :: multiset(ForComponent(s, component))[e] ==
                        (if e.componentName == component then multiset(s)[e] else 0)
    decreases |s|
  {
    if |s| > 0 {
      ForComponentCounts(s[1..], component);
      assert s == [s[0]] + s[1..];
    }
  }

  /** The filter keeps the store's order: it distributes over concatenation. */
  lemma {:induction false} ForComponentKeepsOrder(a: seq<MetricsEntry>, b: seq<MetricsEntry>, component: string)
    ensures ForComponent(a + b, component) == ForComponent(a, component) + ForComponent(b, component)
    decreases |a|
  {
    if |a| > 0 {
      assert (a + b)[0] == a[0];
      assert (a + b)[1..] == a[1..] + b;
      ForComponentKeepsOrder(a[1..], b, component);
    } else {
      assert a + b == b;
    }
  }

  /** `parseInt` in base 10: an optional sign and the leading run of digits, or NaN (None) when there is none. */
  function ParseInt(s: string): (r: Option<int>)
    ensures r.Some? && r.value < 0 ==> |s| > 0 && s[0] == '-'
    ensures s == "" ==> r.None?
  {
    var negative := |s| > 0 && s[0] == '-';
    var rest := if |s| > 0 && (s[0] == '-' || s[0] == '+') then s[1..] else s;
    var n := DigitPrefixLength(rest);
    if n == 0 then None
    else Some(if negative then 0 - DigitsValue(rest[..n]) as int else DigitsValue(rest[..n]))
  }

  /** Reading back a rendered natural number gives the number: `limit=25` means 25. */
  lemma ParseIntOfNumber(n: nat)
    ensures ParseInt(NatToString(n)) == Some(n)
  {
    var s := NatToString(n);
    assert s[0] != '-' && s[0] != '+' by { assert IsDigit(s[0]); }
    assert DigitPrefixLength(s) == |s| by { DigitRunIsWhole(s); }
    assert s[..|s|] == s;
    DigitsValueOfNatToString(n);
  }

  lemma {:induction false} DigitRunIsWhole(s: string)
    requires forall i :: 0 <= i < |s| ==> IsDigit(s[i])
    ensures DigitPrefixLength(s) == |s|
    decreases |s|
  {
    if |s| > 0 {
      DigitRunIsWhole(s[1..]);
    }
  }

  /** Where `slice(0, limit)` stops: NaN counts as 0, a negative limit counts from the end. */
  function SliceEnd(len: nat, limit: Option<int>): (e: nat)
    ensures e <= len
    ensures limit.None? ==> e == 0
    ensures limit.Some? && limit.value >= 0 ==> e == if limit.value < len then limit.value else len
    ensures limit.Some? && limit.value < 0 ==> e == if len + limit.value < 0 then 0 else len + limit.value
  {
    if limit.None? then 0
    else if limit.value >= 0 then (if limit.value < len then limit.value else len)
    else if len + limit.value < 0 then 0 else len + limit.value
  }

  datatype MetricsResponse = Forbidden | MetricsList(metrics: seq<MetricsEntry>, total: nat) {
    function Status(): int {
      if Forbidden? then 403 else 200
    }
  }

  datatype GetResult = GetResult(response: MetricsResponse, store: seq<MetricsEntry>)

  /**
   * `GET`. Without a component the sort runs on the store itself, so the store
   * comes back reordered; with one, the sort runs on the filtered copy.
   */
  /** A non-empty `component` query parameter filters the list. */
  predicate Filtering(component: Option<string>) {
    component.Some? && component.value != ""
  }

  /** The entries `GET` lists from: the component's entries, or the whole store. */
  function Matching(store: seq<MetricsEntry>, component: Option<string>): seq<MetricsEntry> {
    if Filtering(component) then ForComponent(store, component.value) else store
  }

  /** `parseInt(searchParams.get('limit') || '100')`. */
  function LimitOf(limit: Option<string>): Option<int> {
    ParseInt(if limit.Some? && limit.value != "" then limit.value else "100")
  }

  function GetSpec(store: seq<MetricsEntry>, development: bool, component: Option<string>, limit: Option<string>): (r: GetResult)
    ensures !development ==> r == GetResult(Forbidden, store)
    ensures development ==> r.response.MetricsList?
  {
    if !development then GetResult(Forbidden, store)
    else
      var filtered := Matching(store, component);
      var sorted := SortNewestFirst(filtered);
      GetResult(MetricsList(sorted[..SliceEnd(|sorted|, LimitOf(limit))], |filtered|),
                if Filtering(component) then store else sorted)
  }

  /** A prefix of a newest-first sequence is newest first. */
  lemma PrefixIsNewestFirst(s: seq<MetricsEntry>, e: nat)
    requires NewestFirst(s) && e <= |s|
    ensures NewestFirst(s[..e])
  {
  }

  /** `GET` answers newest first, and `total` counts the matches before the cut. */
  lemma GetIsNewestFirst(store: seq<MetricsEntry>, component: Option<string>, limit: Option<string>)
    ensures var r := GetSpec(store, true, component, limit);
      NewestFirst(r.response.metrics) &&
      r.response.total == |Matching(store, component)|
  {
    var filtered := Matching(store, component);
    SortIsNewestFirst(filtered);
    var sorted := SortNewestFirst(filtered);
    var e := SliceEnd(|sorted|, LimitOf(limit));
    PrefixIsNewestFirst(sorted, e);
  }

  /** With a component filter, only that component's entries come back, and the store is left as it was. */
  lemma GetFiltersByComponent(store: seq<MetricsEntry>, component: string, limit: Option<string>)
    requires component != ""
    ensures var r := GetSpec(store, true, Some(component), limit);
      r.store == store &&
      forall i :: 0 <= i < |r.response.metrics| ==> r.response.metrics[i].componentName == component
  {
    var filtered := ForComponent(store, component);
    var sorted := SortNewestFirst(filtered);
    var e := SliceEnd(|sorted|, LimitOf(limit));
    forall i | 0 <= i < e ensures sorted[i].componentName == component {
      assert sorted[i] in multiset(sorted);
      assert sorted[i] in filtered;
    }
  }

  /** Without a filter, `GET` reorders the store itself: same entries, newest first, ties in arrival order. */
  lemma GetWithoutFilterSortsTheStore(store: seq<MetricsEntry>, limit: Option<string>, t: int)
    ensures var r := GetSpec(store, true, None, limit);
      multiset(r.store) == multiset(store) && NewestFirst(r.store) &&
      WithTimestamp(r.store, t) == WithTimestamp(store, t)
  {
    SortIsNewestFirst(store);
    SortIsStable(store, t);
  }

  /**
   * `GET` lists the newest matches: the listed entries are matching entries,
   * as many as the limit allows, and every matching entry left out is no
   * newer than any listed one.
   */
  lemma GetListsNewestMatches(store: seq<MetricsEntry>, component: Option<string>, limit: Option<string>)
    ensures var r := GetSpec(store, true, component, limit).response;
      var m := Matching(store, component);
      && multiset(r.metrics) <= multiset(m)
      && |r.metrics| == SliceEnd(r.total, LimitOf(limit))
      && forall i, e: MetricsEntry :: 0 <= i < |r.metrics| && e in multiset(m) - multiset(r.metrics) ==>
           e.timestamp <= r.metrics[i].timestamp
  {
    var m := Matching(store, component);
    var sorted := SortNewestFirst(m);
    var n := SliceEnd(|sorted|, LimitOf(limit));
    assert GetSpec(store, true, component, limit).response == MetricsList(sorted[..n], |m|);
    SortIsNewestFirst(m);
    PrefixHoldsNewest(sorted, n);
  }

  /** A prefix of a newest-first sequence holds its newest entries: nothing left out is newer than anything kept. */
  lemma PrefixHoldsNewest(sorted: seq<MetricsEntry>, n: nat)
    requires NewestFirst(sorted) && n <= |sorted|
    ensures multiset(sorted[..n]) <= multiset(sorted)
    ensures forall i, e: MetricsEntry :: 0 <= i < n && e in multiset(sorted) - multiset(sorted[..n]) ==>
      e.timestamp <= sorted[i].timestamp
  {
    var listed := sorted[..n];
    assert sorted == listed + sorted[n..];
    assert multiset(sorted) == multiset(listed) + multiset(sorted[n..]);
    forall i, e: MetricsEntry | 0 <= i < n && e in multiset(sorted) - multiset(listed)
      ensures e.timestamp <= sorted[i].timestamp
    {
      assert e in multiset(sorted[n..]);
      var j :| 0 <= j < |sorted[n..]| && sorted[n..][j] == e;
      assert sorted[n + j] == e;
    }
  }

  /** At most `limit` entries come back for a non-negative `limit`. */
  lemma GetRespectsLimit(store: seq<MetricsEntry>, component: Option<string>, limit: string, n: nat)
    requires limit != "" && ParseInt(limit) == Some(n)
    ensures |GetSpec(store, true, component, Some(limit)).response.metrics| <= n
  {
  }

  // ---------------------------------------------------------------------------
  // The module-level store
  // ---------------------------------------------------------------------------

  class MetricsStore {
    var entries: seq<MetricsEntry>

    ghost predicate Valid()
      reads this
    {
      |entries| <= MaxMetricsEntries
    }

    constructor ()
      ensures Valid() && entries == []
    {
      entries := [];
    }

    method Post(body: PostBody) returns (status: int)
      requires Valid()
      modifies this
      ensures Valid()
      ensures PostResult(status, entries) == PostSpec(old(entries), body)
    {
      if body.Unparseable? {
        return 500;
      }
      if !ValidPayload(body) {
        return 400;
      }
      entries := entries + [EntryOf(body)];
      if |entries| > MaxMetricsEntries {
        entries := entries[|entries| - MaxMetricsEntries..];
      }
      return 200;
    }

    method Get(development: bool, component: Option<string>, limit: Option<string>) returns (response: MetricsResponse)
      requires Valid()
      modifies this
      ensures Valid()
      ensures GetResult(response, entries) == GetSpec(old(entries), development, component, limit)
    {
      if !development {
        return Forbidden;
      }
      var lim := ParseInt(if limit.Some? && limit.value != "" then limit.value else "100");
      if component.Some? && component.value != "" {
        var filtered := ForComponent(entries, component.value);
        var sorted := SortNewestFirst(filtered);
        response := MetricsList(sorted[..SliceEnd(|sorted|, lim)], |filtered|);
      } else {
        var total := |entries|;
        entries := SortNewestFirst(entries);
        response := MetricsList(entries[..SliceEnd(|entries|, lim)], total);
      }
    }
  }
}
