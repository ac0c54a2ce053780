/**
 Signup counts by UTM source: the exchange sort of the sources, the string-keyed lookup
 table, and what the chart counts when a bucket holds both NULL and empty sources.
 */
module SourceCharts {
  import opened Prelude
  import opened Calendar
  import opened Text

  type Source = Option<string>

  datatype Signup = Signup(at: Instant, source: Source)

  datatype Row = Row(date: Instant, source: Source, count: int)

  /** NULL and the empty text share the key "". */
  function KeyOf(source: Source): string {
    if source.Some? then source.value else ""
  }

  // ---------------------------------------------------------------- sorting the sources

  /** The order the sort establishes: ascending, the empty text last. */
  predicate Before(a: string, b: string) {
    a != "" && (b == "" || Less(a, b))
  }

  lemma BeforeTransitive(a: string, b: string, c: string)
    requires Before(a, b) && Before(b, c)
    ensures Before(a, c)
  {
    if c != "" { LessTransitive(a, b, c); }
  }

  lemma BeforeTotal(a: string, b: string)
    ensures a == b || Before(a, b) || Before(b, a)
    ensures !(Before(a, b) && Before(b, a))
  {
    LessTotal(a, b);
  }

  ghost predicate Sorted(s: seq<string>) {
    forall i, j :: 0 <= i < j < |s| ==> Before(s[i], s[j])
  }

  ghost predicate Distinct(s: seq<string>) {
    forall i, j :: 0 <= i < j < |s| ==> s[i] != s[j]
  }

  lemma SameHead(s: seq<string>, t: seq<string>)
    requires Sorted(s) && s != [] && t != [] && t[0] in s
    ensures s[0] == t[0] || Before(s[0], t[0])
  {
    var k :| 0 <= k < |s| && s[k] == t[0];
  }

  lemma TailMembers(s: seq<string>, x: string)
    requires Sorted(s) && s != []
    ensures x in s[1..] <==> x in s && x != s[0]
  {
    BeforeTotal(s[0], s[0]);
    if x in s[1..] {
      var k :| 0 <= k < |s[1..]| && s[1..][k] == x;
      assert Before(s[0], s[k + 1]);
    }
    if x in s && x != s[0] {
      var k :| 0 <= k < |s| && s[k] == x;
      assert s[1..][k - 1] == x;
    }
  }

  /** A sorted list is determined by its elements, so map iteration order cannot show. */
  lemma {:induction false} SortedIsUnique(s: seq<string>, t: seq<string>)
    requires Sorted(s) && Sorted(t)
    requires forall x :: x in s <==> x in t
    ensures s == t
  {
    assert s != [] ==> s[0] in s;
    assert t != [] ==> t[0] in t;
    if s != [] {
      SameHead(s, t);
      SameHead(t, s);
      BeforeTotal(s[0], t[0]);
      forall x ensures x in s[1..] <==> x in t[1..] {
        TailMembers(s, x);
        TailMembers(t, x);
      }
      SortedIsUnique(s[1..], t[1..]);
    }
  }

  /** The first n places hold elements that come before everything after them. */
  ghost predicate Placed(s: seq<string>, n: int) {
    forall i, j :: 0 <= i < n && i < j < |s| ==> Before(s[i], s[j])
  }

  /** Place i comes before places i+1 to j-1. */
  ghost predicate Leads(s: seq<string>, i: int, j: int)
    requires 0 <= i < j <= |s|
  {
    forall q :: i < q < j ==> Before(s[i], s[q])
  }

  function Swap(s: seq<string>, i: int, j: int): seq<string>
    requires 0 <= i < |s| && 0 <= j < |s|
  {
    s[i := s[j]][j := s[i]]
  }

  lemma SwapKeeps(s: seq<string>, i: int, j: int)
    requires 0 <= i < j < |s| && Distinct(s) && Placed(s, i)
    ensures Distinct(Swap(s, i, j)) && Placed(Swap(s, i, j), i)
    ensures multiset(Swap(s, i, j)) == multiset(s)
  {
  }

  lemma SwapLeads(s: seq<string>, i: int, j: int)
    requires 0 <= i < j < |s| && Leads(s, i, j) && Before(s[j], s[i])
    ensures Leads(Swap(s, i, j), i, j + 1)
  {
    forall q | i < q < j ensures Before(s[j], s[q]) {
      BeforeTransitive(s[j], s[i], s[q]);
    }
  }

  /** The sort's test: the two are out of order. */
  lemma TestDecides(a: string, b: string)
    requires a != b
    ensures a == "" || (b != "" && Less(b, a)) <==> Before(b, a)
    ensures Before(a, b) <==> !Before(b, a)
  {
    LessTotal(a, b);
  }

  method ExchangeFrom(a: array<string>, i: nat)
    requires i < a.Length && Distinct(a[..]) && Placed(a[..], i)
    modifies a
    ensures Distinct(a[..]) && Placed(a[..], i + 1)
    ensures multiset(a[..]) == multiset(old(a[..]))
  {
    var j := i + 1;
    while j < a.Length
      invariant i < j <= a.Length
      invariant Distinct(a[..]) && Placed(a[..], i) && Leads(a[..], i, j)
      invariant multiset(a[..]) == multiset(old(a[..]))
    {
      TestDecides(a[i], a[j]);
      if a[i] == "" || (a[j] != "" && Less(a[j], a[i])) {
        ghost var s := a[..];
        SwapKeeps(s, i, j);
        SwapLeads(s, i, j);
        a[i], a[j] := a[j], a[i];
        assert a[..] == Swap(s, i, j);
      }
      j := j + 1;
    }
  }

  /** Sorts the sources in place by exchanging every pair found out of order. */
  method ExchangeSort(a: array<string>)
    requires Distinct(a[..])
    modifies a
    ensures Sorted(a[..])
    ensures multiset(a[..]) == multiset(old(a[..]))
  {
    var i := 0;
    while i < a.Length - 1
      invariant 0 <= i && (a.Length > 0 ==> i < a.Length)
      invariant Distinct(a[..]) && Placed(a[..], i)
      invariant multiset(a[..]) == multiset(old(a[..]))
    {
      ExchangeFrom(a, i);
      i := i + 1;
    }
  }

  function SourceSet(data: seq<Row>): set<string> {
    set i | 0 <= i < |data| :: KeyOf(data[i].source)
  }

  /** The sources of the chart: the sorted elements of the source set. */
  ghost predicate IsSourceList(sources: seq<string>, data: seq<Row>) {
    Sorted(sources) && forall x :: x in sources <==> x in SourceSet(data)
  }

  /** Ranging over a map visits its keys in no particular order. */
  method ListOf(keys: set<string>) returns (list: seq<string>)
    ensures Distinct(list) && forall x :: x in list <==> x in keys
  {
    list := [];
    var rest := keys;
    while rest != {}
      invariant Distinct(list)
      invariant forall x :: x in list <==> x in keys && x !in rest
      invariant rest <= keys
    {
      var s :| s in rest;
      list := list + [s];
      rest := rest - {s};
    }
  }

  method UniqueSources(data: seq<Row>) returns (sources: seq<string>)
    ensures IsSourceList(sources, data)
  {
    var sourceSet: set<string> := {};
    for i := 0 to |data|
      invariant sourceSet == set k | 0 <= k < i :: KeyOf(data[k].source)
    {
      sourceSet := sourceSet + {KeyOf(data[i].source)};
    }
    var list := ListOf(sourceSet);
    var a := new string[|list|](i requires 0 <= i < |list| => list[i]);
    assert a[..] == list;
    ExchangeSort(a);
    sources := a[..];
    forall x ensures x in sources <==> x in SourceSet(data) {
      assert x in sources <==> x in multiset(sources);
      assert x in list <==> x in multiset(list);
    }
  }

  // ---------------------------------------------------------------- the lookup table

  /** `fmt.Sprintf("%d:%s", unixTime, source)`. */
  function FormatSourceKey(unixTime: int, source: string): string {
    FormatInt(unixTime) + ":" + source
  }

  lemma SourceKeyInjective(t: int, a: string, u: int, b: string)
    requires FormatSourceKey(t, a) == FormatSourceKey(u, b)
    ensures t == u && a == b
  {
    assert ':' !in FormatInt(t) && ':' !in FormatInt(u);
    SeparatorIsUnique(FormatInt(t), a, FormatInt(u), b, ':');
    FormatIntInjective(t, u);
  }

  function RowKey(r: Row, p: Period): string {
    FormatSourceKey(UnixSeconds(Truncate(r.date, p)), KeyOf(r.source))
  }

  /** Count per string key; a later row with the same key replaces an earlier one. */
  function Index(data: seq<Row>, p: Period): map<string, int> {
    if data == [] then map[]
    else
      var last := data[|data| - 1];
      Index(data[..|data| - 1], p)[RowKey(last, p) := last.count]
  }

  function Lookup(table: map<string, int>, key: string): int {
    if key in table then table[key] else 0
  }

  function PointFor(b: Instant, source: string, table: map<string, int>): Row {
    Row(b, if source == "" then None else Some(source), Lookup(table, FormatSourceKey(UnixSeconds(b), source)))
  }

  /** One row for each source of a bucket, in the order of the list. */
  function PointsOf(b: Instant, sources: seq<string>, table: map<string, int>): (r: seq<Row>)
    ensures |r| == |sources|
    ensures forall i :: 0 <= i < |r| ==> r[i] == PointFor(b, sources[i], table)
  {
    if sources == [] then []
    else [PointFor(b, sources[0], table)] + PointsOf(b, sources[1..], table)
  }

  /** Date-major series: every bucket from `current` to `end`, every source of each. */
  function Series(current: Instant, end: Instant, p: Period, sources: seq<string>, table: map<string, int>): seq<Row>
    requires IsStart(current, p)
    decreases end - current
  {
    if current > end then []
    else
      AdvanceIsStart(current, p);
      PointsOf(current, sources, table) + Series(Advance(current, p), end, p, sources, table)
  }

  method IndexRows(data: seq<Row>, p: Period) returns (dataMap: map<string, int>)
    ensures dataMap == Index(data, p)
  {
    hide Truncate, UnixSeconds, FormatSourceKey;
    dataMap := map[];
    for i := 0 to |data|
      invariant dataMap == Index(data[..i], p)
    {
      assert data[..i + 1][..i] == data[..i];
      var key := UnixSeconds(Truncate(data[i].date, p));
      var source := "";
      if data[i].source.Some? { source := data[i].source.value; }
      dataMap := dataMap[FormatSourceKey(key, source) := data[i].count];
    }
    assert data[..|data|] == data;
  }

  method FillBucket(current: Instant, sources: seq<string>, dataMap: map<string, int>)
    returns (points: seq<Row>)
    ensures points == PointsOf(current, sources, dataMap)
  {
    hide UnixSeconds, FormatSourceKey, PointsOf;
    points := [];
    for i := 0 to |sources|
      invariant points == PointsOf(current, sources, dataMap)[..i]
    {
      var mapKey := FormatSourceKey(UnixSeconds(current), sources[i]);
      var count := if mapKey in dataMap then dataMap[mapKey] else 0;
      assert PointsOf(current, sources, dataMap)[i] == PointFor(current, sources[i], dataMap);
      points := points + [Row(current, if sources[i] != "" then Some(sources[i]) else None, count)];
    }
  }

  method FillBuckets(first: Instant, end: Instant, p: Period, sources: seq<string>, dataMap: map<string, int>)
    returns (result: seq<Row>)
    requires IsStart(first, p)
    ensures result == Series(first, end, p, sources, dataMap)
  {
    hide Truncate, Advance, IsStart, PointFor, PointsOf;
    result := [];
    var current := first;
    while current <= end
      invariant IsStart(current, p)
      invariant result + Series(current, end, p, sources, dataMap) == Series(first, end, p, sources, dataMap)
      decreases end - current
    {
      AdvanceIsStart(current, p);
      var points := FillBucket(current, sources, dataMap);
      ghost var rest := Series(Advance(current, p), end, p, sources, dataMap);
      assert result + (points + rest) == (result + points) + rest;
      result := result + points;
      current := Advance(current, p);
    }
  }

  lemma {:induction false} NoSources(current: Instant, end: Instant, p: Period, table: map<string, int>)
    requires IsStart(current, p)
    ensures Series(current, end, p, [], table) == []
    decreases end - current
  {
    hide Truncate, Advance, IsStart;
    if current <= end {
      AdvanceIsStart(current, p);
      NoSources(Advance(current, p), end, p, table);
    }
  }

  method FillGapsBySource(data: seq<Row>, from: Instant, to: Instant, p: Period)
    returns (result: seq<Row>, sources: seq<string>)
    ensures IsStart(Truncate(from, p), p)
    ensures IsSourceList(sources, data)
    ensures result == Series(Truncate(from, p), Truncate(to, p), p, sources, Index(data, p))
  {
    hide Truncate, Advance, IsStart, UnixSeconds, FormatSourceKey;
    TruncateIsStart(from, p);
    sources := UniqueSources(data);
    if |data| == 0 {
      NoSources(Truncate(from, p), Truncate(to, p), p, Index(data, p));
      assert forall i :: 0 <= i < |sources| ==> sources[i] in sources;
      return [], [];
    }
    var dataMap := IndexRows(data, p);
    result := FillBuckets(Truncate(from, p), Truncate(to, p), p, sources, dataMap);
  }
}
