/**
 What the by-source chart shows, counted from the signups themselves. NULL and the empty
 text share one table key: when a bucket holds both, the empty text's count is overwritten.
 */
module SourceTotals {
  import opened Prelude
  import opened Calendar
  import opened SourceCharts
  import opened SourceRows
  import opened Tally
  import opened Text
  import SignupCharts

  // ---------------------------------------------------------------- counting by source

  /** Signups whose source has the given key. */
  function CountKey(signups: seq<Signup>, lo: Instant, hi: Instant, key: string): nat {
    if signups == [] then 0
    else (if lo <= signups[0].at < hi && KeyOf(signups[0].source) == key then 1 else 0)
         + CountKey(signups[1..], lo, hi, key)
  }

  lemma {:induction false} KeySplits(signups: seq<Signup>, lo: Instant, hi: Instant, key: string)
    ensures CountKey(signups, lo, hi, key)
            == CountSource(signups, lo, hi, Some(key)) + (if key == "" then CountSource(signups, lo, hi, None) else 0)
  {
    if signups != [] {
      KeySplits(signups[1..], lo, hi, key);
    }
  }

  lemma {:induction false} SomeoneCounted(signups: seq<Signup>, lo: Instant, hi: Instant, source: Source)
    requires CountSource(signups, lo, hi, source) > 0
    ensures exists i :: 0 <= i < |signups| && lo <= signups[i].at < hi && signups[i].source == source
  {
    if !(lo <= signups[0].at < hi && signups[0].source == source) {
      SomeoneCounted(signups[1..], lo, hi, source);
      var i :| 0 <= i < |signups[1..]| && lo <= signups[1..][i].at < hi && signups[1..][i].source == source;
      assert signups[i + 1] == signups[1..][i];
    }
  }

  lemma {:induction false} CountKeySplits(signups: seq<Signup>, lo: Instant, mid: Instant, hi: Instant, key: string)
    requires lo <= mid <= hi
    ensures CountKey(signups, lo, hi, key) == CountKey(signups, lo, mid, key) + CountKey(signups, mid, hi, key)
  {
    if signups != [] {
      CountKeySplits(signups[1..], lo, mid, hi, key);
    }
  }

  // ---------------------------------------------------------------- grouped rows

  /** The count of the last row for a bucket and key; 0 without such a row. */
  ghost function LastMatch(data: seq<Row>, b: Instant, key: string): int {
    if data == [] then 0
    else
      var last := data[|data| - 1];
      if last.date == b && KeyOf(last.source) == key then last.count
      else LastMatch(data[..|data| - 1], b, key)
  }

  lemma {:induction false} LastMatchIs(data: seq<Row>, b: Instant, key: string, i: nat)
    requires i < |data| && data[i].date == b && KeyOf(data[i].source) == key
    requires forall j :: i < j < |data| ==> data[j].date != b || KeyOf(data[j].source) != key
    ensures LastMatch(data, b, key) == data[i].count
  {
    if i < |data| - 1 {
      LastMatchIs(data[..|data| - 1], b, key, i);
    }
  }

  lemma {:induction false} LastMatchNone(data: seq<Row>, b: Instant, key: string)
    requires forall j :: 0 <= j < |data| ==> data[j].date != b || KeyOf(data[j].source) != key
    ensures LastMatch(data, b, key) == 0
  {
    if data != [] {
      LastMatchNone(data[..|data| - 1], b, key);
    }
  }

  /** String keys keep bucket and source apart, so the table holds the last matching row. */
  lemma {:induction false} TableHoldsLastMatch(data: seq<Row>, p: Period, b: Instant, key: string)
    requires IsStart(b, p) && forall i :: 0 <= i < |data| ==> IsStart(data[i].date, p)
    ensures Lookup(Index(data, p), FormatSourceKey(UnixSeconds(b), key)) == LastMatch(data, b, key)
  {
    hide Truncate, IsStart, UnixSeconds, FormatSourceKey;
    if data != [] {
      var last := data[|data| - 1];
      TableHoldsLastMatch(data[..|data| - 1], p, b, key);
      StartTruncatesToItself(last.date, p);
      StartsAreWholeSeconds(last.date, p);
      StartsAreWholeSeconds(b, p);
      if RowKey(last, p) == FormatSourceKey(UnixSeconds(b), key) {
        SourceKeyInjective(UnixSeconds(last.date), KeyOf(last.source), UnixSeconds(b), key);
      }
    }
  }

  // ---------------------------------------------------------------- what is shown

  /** The count the chart shows for a bucket and a source key. */
  function Shown(signups: seq<Signup>, b: Instant, hi: Instant, key: string): int {
    if key == "" && CountSource(signups, b, hi, None) > 0 then CountSource(signups, b, hi, None)
    else CountSource(signups, b, hi, Some(key))
  }

  /** The signups of a bucket the chart leaves out: those with an empty source, when there
      are NULL sources too. */
  function Lost(signups: seq<Signup>, b: Instant, hi: Instant): nat {
    if CountSource(signups, b, hi, None) > 0 then CountSource(signups, b, hi, Some("")) else 0
  }

  lemma RowOf(data: seq<Row>, signups: seq<Signup>, p: Period, b: Instant, source: Source)
    requires IsGrouping(data, signups, p) && IsStart(b, p)
    ensures HasRow(data, b, source) <==> CountSource(signups, b, Advance(b, p), source) > 0
  {
    hide Truncate, Advance, IsStart;
    if CountSource(signups, b, Advance(b, p), source) > 0 {
      SomeoneCounted(signups, b, Advance(b, p), source);
      var i :| 0 <= i < |signups| && b <= signups[i].at < Advance(b, p) && signups[i].source == source;
      BucketIsInterval(b, signups[i].at, p);
    }
  }

  lemma TableShows(data: seq<Row>, signups: seq<Signup>, p: Period, b: Instant, key: string)
    requires IsGrouping(data, signups, p) && IsStart(b, p)
    ensures Lookup(Index(data, p), FormatSourceKey(UnixSeconds(b), key)) == Shown(signups, b, Advance(b, p), key)
  {
    hide Truncate, Advance, IsStart, UnixSeconds, FormatSourceKey, Index, Lookup;
    TableHoldsLastMatch(data, p, b, key);
    RowOf(data, signups, p, b, None);
    RowOf(data, signups, p, b, Some(key));
    if key == "" && HasRow(data, b, None) {
      var i :| 0 <= i < |data| && data[i].date == b && data[i].source == None;
      LastMatchIs(data, b, key, i);
    } else if HasRow(data, b, Some(key)) {
      var i :| 0 <= i < |data| && data[i].date == b && data[i].source == Some(key);
      LastMatchIs(data, b, key, i);
    } else {
      forall j | 0 <= j < |data| ensures data[j].date != b || KeyOf(data[j].source) != key {
        if data[j].date == b {
          assert HasRow(data, b, data[j].source);
        }
      }
      LastMatchNone(data, b, key);
    }
  }

  lemma ShownIsCountLessLost(signups: seq<Signup>, b: Instant, hi: Instant, key: string)
    ensures Shown(signups, b, hi, key)
            == CountKey(signups, b, hi, key) - (if key == "" then Lost(signups, b, hi) else 0)
  {
    KeySplits(signups, b, hi, key);
  }

  // ---------------------------------------------------------------- conservation per source

  /** The counts of one source over the whole chart. */
  function SourceTotal(rows: seq<Row>, key: string): int {
    if rows == [] then 0
    else (if KeyOf(rows[0].source) == key then rows[0].count else 0) + SourceTotal(rows[1..], key)
  }

  function LostUpTo(signups: seq<Signup>, first: Instant, end: Instant, p: Period): nat
    requires IsStart(first, p)
    decreases end - first
  {
    if first > end then 0
    else
      AdvanceIsStart(first, p);
      Lost(signups, first, Advance(first, p)) + LostUpTo(signups, Advance(first, p), end, p)
  }

  lemma {:induction false} SourceTotalAppend(a: seq<Row>, b: seq<Row>, key: string)
    ensures SourceTotal(a + b, key) == SourceTotal(a, key) + SourceTotal(b, key)
  {
    if a == [] {
      assert a + b == b;
    } else {
      assert (a + b)[1..] == a[1..] + b;
      SourceTotalAppend(a[1..], b, key);
    }
  }

  lemma {:induction false} SourceTotalOfBucket(b: Instant, sources: seq<string>, table: map<string, int>, key: string)
    requires Distinct(sources)
    ensures SourceTotal(PointsOf(b, sources, table), key)
            == if key in sources then Lookup(table, FormatSourceKey(UnixSeconds(b), key)) else 0
  {
    hide FormatSourceKey, UnixSeconds;
    if sources != [] {
      SourceTotalOfBucket(b, sources[1..], table, key);
      assert PointsOf(b, sources, table)[1..] == PointsOf(b, sources[1..], table);
      assert forall i :: 1 <= i < |sources| ==> sources[i] == sources[1..][i - 1];
      assert key in sources <==> key == sources[0] || key in sources[1..];
    }
  }

  /** Main result: over a range every source keeps all its signups, except that the blank
      source is short of exactly the lost ones. */
  lemma {:induction false} SourceCountsConserved(data: seq<Row>, signups: seq<Signup>, first: Instant, end: Instant,
                                                 p: Period, sources: seq<string>, key: string)
    requires IsGrouping(data, signups, p) && IsStart(first, p) && IsStart(end, p) && first <= end
    requires Distinct(sources) && key in sources
    ensures SourceTotal(Series(first, end, p, sources, Index(data, p)), key)
            == CountKey(signups, first, Advance(end, p), key)
               - (if key == "" then LostUpTo(signups, first, end, p) else 0)
    decreases end - first
  {
    hide Truncate, Advance, IsStart, UnixSeconds, FormatSourceKey, Lost, PointsOf, Index, Shown;
    AdvanceIsStart(first, p);
    AdvanceIsStart(end, p);
    var next, table := Advance(first, p), Index(data, p);
    SourceTotalAppend(PointsOf(first, sources, table), Series(next, end, p, sources, table), key);
    SourceTotalOfBucket(first, sources, table, key);
    TableShows(data, signups, p, first, key);
    ShownIsCountLessLost(signups, first, next, key);
    if first < end {
      NoStartBetween(first, end, p);
      SourceCountsConserved(data, signups, next, end, p, sources, key);
      CountKeySplits(signups, first, next, Advance(end, p), key);
    }
  }

  // ---------------------------------------------------------------- conservation in total

  function Total(rows: seq<Row>): int {
    if rows == [] then 0 else rows[0].count + Total(rows[1..])
  }

  function SumOver(rows: seq<Row>, sources: seq<string>): int {
    if sources == [] then 0 else SourceTotal(rows, sources[0]) + SumOver(rows, sources[1..])
  }

  lemma {:induction false} SumOverNothing(sources: seq<string>)
    ensures SumOver([], sources) == 0
  {
    if sources != [] { SumOverNothing(sources[1..]); }
  }

  lemma {:induction false} SumOverFirst(rows: seq<Row>, sources: seq<string>)
    requires rows != [] && Distinct(sources)
    ensures SumOver(rows, sources)
            == SumOver(rows[1..], sources) + (if KeyOf(rows[0].source) in sources then rows[0].count else 0)
  {
    if sources != [] {
      assert forall i :: 1 <= i < |sources| ==> sources[i] == sources[1..][i - 1];
      assert KeyOf(rows[0].source) in sources
        <==> KeyOf(rows[0].source) == sources[0] || KeyOf(rows[0].source) in sources[1..];
      SumOverFirst(rows, sources[1..]);
    }
  }

  /** Each row belongs to one source of a list that has no repeats and misses none. */
  lemma {:induction false} TotalBySource(rows: seq<Row>, sources: seq<string>)
    requires Distinct(sources) && forall i :: 0 <= i < |rows| ==> KeyOf(rows[i].source) in sources
    ensures Total(rows) == SumOver(rows, sources)
  {
    if rows == [] {
      SumOverNothing(sources);
    } else {
      TotalBySource(rows[1..], sources);
      SumOverFirst(rows, sources);
    }
  }

  function KeySum(signups: seq<Signup>, lo: Instant, hi: Instant, sources: seq<string>): nat {
    if sources == [] then 0 else CountKey(signups, lo, hi, sources[0]) + KeySum(signups, lo, hi, sources[1..])
  }

  lemma {:induction false} KeySumFirst(signups: seq<Signup>, lo: Instant, hi: Instant, sources: seq<string>)
    requires signups != [] && Distinct(sources)
    ensures KeySum(signups, lo, hi, sources)
            == KeySum(signups[1..], lo, hi, sources)
               + (if lo <= signups[0].at < hi && KeyOf(signups[0].source) in sources then 1 else 0)
  {
    if sources != [] {
      assert forall i :: 1 <= i < |sources| ==> sources[i] == sources[1..][i - 1];
      assert KeyOf(signups[0].source) in sources
        <==> KeyOf(signups[0].source) == sources[0] || KeyOf(signups[0].source) in sources[1..];
      KeySumFirst(signups, lo, hi, sources[1..]);
    }
  }

  lemma {:induction false} KeySumNothing(lo: Instant, hi: Instant, sources: seq<string>)
    ensures KeySum([], lo, hi, sources) == 0
  {
    if sources != [] { KeySumNothing(lo, hi, sources[1..]); }
  }

  lemma {:induction false} KeySumIsCount(signups: seq<Signup>, lo: Instant, hi: Instant, sources: seq<string>)
    requires Distinct(sources)
    requires forall i :: 0 <= i < |signups| ==> KeyOf(signups[i].source) in sources && lo <= signups[i].at < hi
    ensures KeySum(signups, lo, hi, sources) == |signups|
  {
    if signups == [] {
      KeySumNothing(lo, hi, sources);
    } else {
      KeySumIsCount(signups[1..], lo, hi, sources);
      KeySumFirst(signups, lo, hi, sources);
    }
  }

  lemma {:induction false} SumOverSources(data: seq<Row>, signups: seq<Signup>, first: Instant, end: Instant,
                                          p: Period, all: seq<string>, some: seq<string>)
    requires IsGrouping(data, signups, p) && IsStart(first, p) && IsStart(end, p) && first <= end
    requires Distinct(all) && Distinct(some) && forall x :: x in some ==> x in all
    ensures SumOver(Series(first, end, p, all, Index(data, p)), some)
            == KeySum(signups, first, Advance(end, p), some)
               - (if "" in some then LostUpTo(signups, first, end, p) else 0)
  {
    hide Truncate, Advance, IsStart, Series, Index, LostUpTo, CountKey, SourceTotal;
    if some != [] {
      assert forall i :: 1 <= i < |some| ==> some[i] == some[1..][i - 1];
      assert "" in some <==> "" == some[0] || "" in some[1..];
      assert forall x :: x in some[1..] ==> x in some;
      SumOverSources(data, signups, first, end, p, all, some[1..]);
      SourceCountsConserved(data, signups, first, end, p, all, some[0]);
    }
  }

  ghost predicate Known(rows: seq<Row>, sources: seq<string>) {
    forall i :: 0 <= i < |rows| ==> KeyOf(rows[i].source) in sources
  }

  lemma KnownPoints(b: Instant, sources: seq<string>, table: map<string, int>)
    ensures Known(PointsOf(b, sources, table), sources)
  {
    hide UnixSeconds, FormatSourceKey;
    forall i | 0 <= i < |sources| ensures KeyOf(PointsOf(b, sources, table)[i].source) in sources {
      assert KeyOf(PointFor(b, sources[i], table).source) == sources[i];
    }
  }

  lemma {:induction false} SeriesSources(first: Instant, end: Instant, p: Period, sources: seq<string>,
                                         table: map<string, int>)
    requires IsStart(first, p)
    ensures Known(Series(first, end, p, sources, table), sources)
    decreases end - first
  {
    hide Truncate, Advance, IsStart, PointFor, PointsOf;
    if first <= end {
      AdvanceIsStart(first, p);
      SeriesSources(Advance(first, p), end, p, sources, table);
      KnownPoints(first, sources, table);
    }
  }

  lemma {:induction false} NothingLost(signups: seq<Signup>, first: Instant, end: Instant, p: Period)
    requires IsStart(first, p) && forall i :: 0 <= i < |signups| ==> KeyOf(signups[i].source) != ""
    ensures LostUpTo(signups, first, end, p) == 0
    decreases end - first
  {
    hide Truncate, Advance, IsStart;
    if first <= end {
      AdvanceIsStart(first, p);
      if CountSource(signups, first, Advance(first, p), None) > 0 {
        SomeoneCounted(signups, first, Advance(first, p), None);
      }
      NothingLost(signups, Advance(first, p), end, p);
    }
  }

  /** A bucket that holds signups with a NULL source and signups with an empty one. */
  ghost predicate MixedBlank(signups: seq<Signup>, b: Instant, p: Period) {
    CountSource(signups, b, Advance(b, p), None) > 0 && CountSource(signups, b, Advance(b, p), Some("")) > 0
  }

  lemma {:induction false} LostIffMixed(signups: seq<Signup>, first: Instant, end: Instant, p: Period)
    requires IsStart(first, p)
    ensures LostUpTo(signups, first, end, p) == 0
            <==> forall b :: IsStart(b, p) && first <= b <= end ==> !MixedBlank(signups, b, p)
    decreases end - first
  {
    hide Truncate, Advance, IsStart, CountSource;
    if first <= end {
      AdvanceIsStart(first, p);
      var next := Advance(first, p);
      LostIffMixed(signups, next, end, p);
      assert Lost(signups, first, next) == 0 <==> !MixedBlank(signups, first, p);
      forall b | IsStart(b, p) && first < b ensures next <= b {
        NoStartBetween(first, b, p);
      }
    }
  }

  lemma SortedIsDistinct(sources: seq<string>)
    requires Sorted(sources)
    ensures Distinct(sources)
  {
    forall i, j | 0 <= i < j < |sources| ensures sources[i] != sources[j] {
      BeforeTotal(sources[i], sources[j]);
    }
  }

  /** Main result: the chart's total is the number of signups less the lost ones, and it is
      exact if and only if no bucket mixes NULL and empty sources. */
  lemma TotalConserved(data: seq<Row>, signups: seq<Signup>, from: Instant, to: Instant, p: Period,
                       sources: seq<string>)
    requires IsGrouping(data, signups, p) && IsSourceList(sources, data) && from <= to
    requires forall i :: 0 <= i < |signups| ==> from <= signups[i].at <= to
    ensures IsStart(Truncate(from, p), p)
    ensures var first, end := Truncate(from, p), Truncate(to, p);
      var total := Total(Series(first, end, p, sources, Index(data, p)));
      && total + LostUpTo(signups, first, end, p) == |signups|
      && (total == |signups| <==> forall b :: IsStart(b, p) && first <= b <= end ==> !MixedBlank(signups, b, p))
  {
    hide Truncate, Advance, IsStart, Series, Index, LostUpTo, Total, SumOver, KeySum, MixedBlank;
    var first, end := Truncate(from, p), Truncate(to, p);
    TruncateIsStart(from, p);
    TruncateIsStart(to, p);
    TruncateLaws(from, to, p);
    BucketContains(from, p);
    BucketContains(to, p);
    SortedIsDistinct(sources);
    forall i | 0 <= i < |signups| ensures KeyOf(signups[i].source) in sources {
      assert HasRow(data, Truncate(signups[i].at, p), signups[i].source);
      var k :| 0 <= k < |data| && data[k].date == Truncate(signups[i].at, p) && data[k].source == signups[i].source;
      assert KeyOf(data[k].source) in SourceSet(data);
    }
    SeriesSources(first, end, p, sources, Index(data, p));
    TotalBySource(Series(first, end, p, sources, Index(data, p)), sources);
    SumOverSources(data, signups, first, end, p, sources, sources);
    KeySumIsCount(signups, first, Advance(end, p), sources);
    if "" !in sources {
      NothingLost(signups, first, end, p);
    }
    LostIffMixed(signups, first, end, p);
  }

  lemma BothCounted(t: Instant, lo: Instant, hi: Instant)
    requires lo <= t < hi
    ensures CountSource([Signup(t, Some("")), Signup(t, None)], lo, hi, None) == 1
    ensures CountSource([Signup(t, Some("")), Signup(t, None)], lo, hi, Some("")) == 1
  {
    var signups := [Signup(t, Some("")), Signup(t, None)];
    assert signups[1..] == [Signup(t, None)] && [Signup(t, None)][1..] == [];
    assert CountSource([], lo, hi, None) == 0 == CountSource([], lo, hi, Some(""));
    assert CountSource([Signup(t, None)], lo, hi, None) == 1 && CountSource([Signup(t, None)], lo, hi, Some("")) == 0;
  }

  /** One signup with an empty source and one with none, at the same instant: the store
      answers two rows of one signup each, and the chart's total is less than two. */
  lemma BlankSourcesCollide(t: Instant, p: Period)
    ensures IsStart(Truncate(t, p), p)
    ensures var b := Truncate(t, p);
      var signups := [Signup(t, Some("")), Signup(t, None)];
      var data := [Row(b, Some(""), 1), Row(b, None, 1)];
      && IsGrouping(data, signups, p) && IsSourceList([""], data)
      && Total(Series(b, b, p, [""], Index(data, p))) < |signups|
  {
    hide Truncate, Advance, IsStart, Series, Index, Total;
    var b := Truncate(t, p);
    var data := [Row(b, Some(""), 1), Row(b, None, 1)];
    TruncateIsStart(t, p);
    BucketContains(t, p);
    BothCounted(t, b, Advance(b, p));
    assert HasRow(data, b, Some("")) by { assert data[0].date == b; }
    assert HasRow(data, b, None) by { assert data[1].date == b; }
    assert IsGrouping(data, [Signup(t, Some("")), Signup(t, None)], p);
    assert IsSourceList([""], data) by {
      assert KeyOf(data[0].source) == "" == KeyOf(data[1].source);
    }
    TotalConserved(data, [Signup(t, Some("")), Signup(t, None)], t, t, p, [""]);
    assert MixedBlank([Signup(t, Some("")), Signup(t, None)], b, p);
  }

  // ---------------------------------------------------------------- shape

  function BucketCount(first: Instant, end: Instant, p: Period): nat
    requires IsStart(first, p)
  {
    |SignupCharts.CountPerBucket([], first, end, p)|
  }

  lemma BucketCountStep(first: Instant, end: Instant, p: Period)
    requires IsStart(first, p) && first <= end
    ensures IsStart(Advance(first, p), p)
    ensures BucketCount(first, end, p) == 1 + BucketCount(Advance(first, p), end, p)
  {
    hide Truncate, Advance, IsStart;
    AdvanceIsStart(first, p);
  }

  lemma TimesStep(n: nat, m: nat)
    ensures (1 + n) * m == m + n * m
  {
  }

  lemma {:induction false} SeriesLength(first: Instant, end: Instant, p: Period, sources: seq<string>,
                                        table: map<string, int>)
    requires IsStart(first, p)
    ensures |Series(first, end, p, sources, table)| == BucketCount(first, end, p) * |sources|
    decreases end - first
  {
    hide Truncate, Advance, IsStart, PointFor;
    if first <= end {
      BucketCountStep(first, end, p);
      AdvanceIsStart(first, p);
      SeriesLength(Advance(first, p), end, p, sources, table);
      TimesStep(BucketCount(Advance(first, p), end, p), |sources|);
    }
  }

  lemma Within(i: nat, n: nat, k: nat, m: nat)
    requires i < n && k < m
    ensures i * m + k < n * m
  {
    assert (i + 1) * m <= n * m;
  }

  /** The chart has one row per bucket and source, buckets outermost. */
  lemma {:induction false} SeriesIsDateMajor(first: Instant, end: Instant, p: Period, sources: seq<string>,
                                             table: map<string, int>, i: nat, k: nat, at: nat)
    requires IsStart(first, p) && i < BucketCount(first, end, p) && k < |sources|
    requires at == i * |sources| + k
    ensures var buckets := SignupCharts.CountPerBucket([], first, end, p);
      var rows := Series(first, end, p, sources, table);
      && |rows| == |buckets| * |sources| && at < |rows|
      && rows[at] == PointFor(buckets[i].date, sources[k], table)
    decreases end - first
  {
    hide Truncate, Advance, IsStart, PointFor, PointsOf, SignupCharts.CountBetween;
    SeriesLength(first, end, p, sources, table);
    Within(i, BucketCount(first, end, p), k, |sources|);
    BucketCountStep(first, end, p);
    AdvanceIsStart(first, p);
    if i > 0 {
      TimesStep(i - 1, |sources|);
      SeriesIsDateMajor(Advance(first, p), end, p, sources, table, i - 1, k, at - |sources|);
    }
  }

  // ---------------------------------------------------------------- the chart

  /** The row is for a source or for the blank one, and its count is the number of signups of
      the range with its source that lie in its bucket; for the blank source those without a
      source, or else, when there are none, those with an empty one. */
  ghost predicate Counts(row: Row, signups: seq<Signup>, from: Instant, to: Instant, p: Period) {
    var hi := Advance(row.date, p);
    var same := Number(signups, (u: Signup) => from <= u.at <= to && row.date <= u.at < hi && u.source == row.source);
    var empty := Number(signups, (u: Signup) => from <= u.at <= to && row.date <= u.at < hi && u.source == Some(""));
    row.source != Some("") && row.count == if row.source == None && same == 0 then empty else same
  }

  /** The keys of the sources that the signups of the range have, the blank one last. */
  ghost predicate AreSources(sources: seq<string>, signups: seq<Signup>, from: Instant, to: Instant) {
    && (forall i :: 0 <= i < |sources| - 1 ==> sources[i] != "")
    && (forall i, j :: 0 <= i < j < |sources| && sources[j] != "" ==> Less(sources[i], sources[j]))
    && forall key :: key in sources <==> exists u :: u in signups && from <= u.at <= to && KeyOf(u.source) == key
  }

  ghost predicate HasPoint(data: seq<Row>, b: Instant, key: string) {
    exists i :: 0 <= i < |data| && data[i].date == b && KeyOf(data[i].source) == key
  }

  ghost predicate DateMajor(data: seq<Row>) {
    forall i, j :: 0 <= i < j < |data| ==>
      || data[i].date < data[j].date
      || (data[i].date == data[j].date && Before(KeyOf(data[i].source), KeyOf(data[j].source)))
  }

  /** A point for every source and every bucket that begins between the buckets of the two
      ends, buckets in order and within each the sources in theirs, with the right counts. */
  ghost predicate IsChart(data: seq<Row>, sources: seq<string>, signups: seq<Signup>, from: Instant, to: Instant,
                          p: Period)
  {
    && AreSources(sources, signups, from, to)
    && DateMajor(data)
    && (forall i :: 0 <= i < |data| ==>
          && IsStart(data[i].date, p) && Truncate(from, p) <= data[i].date <= Truncate(to, p)
          && KeyOf(data[i].source) in sources && Counts(data[i], signups, from, to, p))
    && forall b, key :: IsStart(b, p) && Truncate(from, p) <= b <= Truncate(to, p) && key in sources ==>
         HasPoint(data, b, key)
  }

  /** The rows of a series from `first` to `end`, whatever the table. */
  ghost predicate IsSeries(rows: seq<Row>, first: Instant, end: Instant, p: Period, sources: seq<string>,
                           table: map<string, int>)
  {
    && DateMajor(rows)
    && (forall i :: 0 <= i < |rows| ==>
          && IsStart(rows[i].date, p) && first <= rows[i].date <= end && KeyOf(rows[i].source) in sources
          && rows[i] == PointFor(rows[i].date, KeyOf(rows[i].source), table))
    && forall b, key :: IsStart(b, p) && first <= b <= end && key in sources ==> HasPoint(rows, b, key)
  }

  lemma BucketRows(b: Instant, sources: seq<string>, table: map<string, int>)
    requires Sorted(sources)
    ensures var rows := PointsOf(b, sources, table);
      && DateMajor(rows)
      && (forall i :: 0 <= i < |rows| ==>
            && rows[i].date == b && KeyOf(rows[i].source) in sources
            && rows[i] == PointFor(b, KeyOf(rows[i].source), table))
      && forall key :: key in sources ==> HasPoint(rows, b, key)
  {
    hide UnixSeconds, FormatSourceKey;
    var rows := PointsOf(b, sources, table);
    assert forall i :: 0 <= i < |rows| ==> KeyOf(rows[i].source) == sources[i];
    forall key | key in sources ensures HasPoint(rows, b, key) {
      var i :| 0 <= i < |sources| && sources[i] == key;
      assert rows[i] == PointFor(b, key, table);
    }
  }

  lemma DateMajorAppend(a: seq<Row>, b: seq<Row>)
    requires DateMajor(a) && DateMajor(b)
    requires forall i, j :: 0 <= i < |a| && 0 <= j < |b| ==> a[i].date < b[j].date
    ensures DateMajor(a + b)
  {}

  lemma HasPointAppend(a: seq<Row>, b: seq<Row>, d: Instant, key: string)
    requires HasPoint(a, d, key) || HasPoint(b, d, key)
    ensures HasPoint(a + b, d, key)
  {
    if HasPoint(a, d, key) {
      var i :| 0 <= i < |a| && a[i].date == d && KeyOf(a[i].source) == key;
      assert (a + b)[i] == a[i];
    } else {
      var i :| 0 <= i < |b| && b[i].date == d && KeyOf(b[i].source) == key;
      assert (a + b)[|a| + i] == b[i];
    }
  }

  lemma NoRows()
    ensures DateMajor([])
  {}

  lemma {:induction false} SeriesIsSeries(first: Instant, end: Instant, p: Period, sources: seq<string>,
                                          table: map<string, int>)
    requires IsStart(first, p) && Sorted(sources)
    ensures IsSeries(Series(first, end, p, sources, table), first, end, p, sources, table)
    decreases end - first
  {
    hide Truncate, Advance, IsStart, PointFor, PointsOf, DateMajor, HasPoint, Sorted, KeyOf;
    if first > end {
      assert DateMajor([]) by { NoRows(); }
    } else {
      AdvanceIsStart(first, p);
      var next := Advance(first, p);
      var head, tail := PointsOf(first, sources, table), Series(next, end, p, sources, table);
      SeriesIsSeries(next, end, p, sources, table);
      BucketRows(first, sources, table);
      DateMajorAppend(head, tail);
      forall b, key | IsStart(b, p) && first <= b <= end && key in sources ensures HasPoint(head + tail, b, key) {
        if b > first {
          NoStartBetween(first, b, p);
        }
        HasPointAppend(head, tail, b, key);
      }
    }
  }

  lemma SortedMeans(sources: seq<string>)
    requires Sorted(sources)
    ensures forall i :: 0 <= i < |sources| - 1 ==> sources[i] != ""
    ensures forall i, j :: 0 <= i < j < |sources| && sources[j] != "" ==> Less(sources[i], sources[j])
  {
    forall i | 0 <= i < |sources| - 1 ensures sources[i] != "" {
      assert Before(sources[i], sources[i + 1]);
    }
  }

  /** A source is in the list if and only if some signup of the range has it. */
  lemma SourceOfRange(data: seq<Row>, signups: seq<Signup>, from: Instant, to: Instant, p: Period, key: string)
    requires IsGrouping(data, InRange(signups, from, to), p)
    ensures key in SourceSet(data) <==> exists u :: u in signups && from <= u.at <= to && KeyOf(u.source) == key
  {
    hide Truncate, Advance, IsStart, CountSource, KeyOf;
    var counted := InRange(signups, from, to);
    if key in SourceSet(data) {
      var i :| 0 <= i < |data| && KeyOf(data[i].source) == key;
      SomeoneCounted(counted, data[i].date, Advance(data[i].date, p), data[i].source);
      var k :| 0 <= k < |counted| && counted[k].source == data[i].source;
      InRangeMembers(signups, from, to, counted[k]);
    }
    if u :| u in signups && from <= u.at <= to && KeyOf(u.source) == key {
      InRangeMembers(signups, from, to, u);
      var k :| 0 <= k < |counted| && counted[k] == u;
      assert HasRow(data, Truncate(u.at, p), u.source);
    }
  }

  lemma SourcesOfRange(data: seq<Row>, sources: seq<string>, signups: seq<Signup>, from: Instant, to: Instant,
                       p: Period)
    requires IsGrouping(data, InRange(signups, from, to), p) && IsSourceList(sources, data)
    ensures AreSources(sources, signups, from, to)
  {
    hide IsGrouping, SourceSet, KeyOf, InRange;
    SortedMeans(sources);
    forall key ensures key in sources <==> exists u :: u in signups && from <= u.at <= to && KeyOf(u.source) == key {
      SourceOfRange(data, signups, from, to, p, key);
    }
  }

  lemma PointCounts(signups: seq<Signup>, from: Instant, to: Instant, p: Period, b: Instant, key: string)
    requires IsStart(b, p)
    ensures Counts(PointFor(b, key, Index(GroupRows(InRange(signups, from, to), p), p)), signups, from, to, p)
  {
    hide Truncate, Advance, IsStart, GroupRows, CountSource, InRange, Number, Index, FormatSourceKey, Lookup;
    var counted := InRange(signups, from, to);
    GroupRowsIsGrouping(counted, p);
    TableShows(GroupRows(counted, p), counted, p, b, key);
    CountInRange(signups, from, to, b, Advance(b, p), None);
    CountInRange(signups, from, to, b, Advance(b, p), Some(key));
  }

  /** Main result: the series filled from the grouped rows of a range is the chart of its signups. */
  lemma SeriesIsChart(signups: seq<Signup>, from: Instant, to: Instant, p: Period, sources: seq<string>)
    requires IsSourceList(sources, GroupRows(InRange(signups, from, to), p))
    ensures IsStart(Truncate(from, p), p)
    ensures var table := Index(GroupRows(InRange(signups, from, to), p), p);
      IsChart(Series(Truncate(from, p), Truncate(to, p), p, sources, table), sources, signups, from, to, p)
  {
    hide Truncate, Advance, IsStart, GroupRows, InRange, Index, PointFor, Counts, DateMajor, HasPoint, AreSources;
    hide SourceSet, IsGrouping;
    var table := Index(GroupRows(InRange(signups, from, to), p), p);
    TruncateIsStart(from, p);
    GroupRowsIsGrouping(InRange(signups, from, to), p);
    SourcesOfRange(GroupRows(InRange(signups, from, to), p), sources, signups, from, to, p);
    SeriesIsSeries(Truncate(from, p), Truncate(to, p), p, sources, table);
    var rows := Series(Truncate(from, p), Truncate(to, p), p, sources, table);
    forall i | 0 <= i < |rows| ensures Counts(rows[i], signups, from, to, p) {
      PointCounts(signups, from, to, p, rows[i].date, KeyOf(rows[i].source));
    }
  }

  // ---------------------------------------------------------------- the request

  datatype Response = Response(data: seq<Row>, sources: seq<string>, total: int, period: string)

  /** The chart of a campaign: `owner` is the campaign's account when it exists, `signups` its
      users that are not deleted. */
  method GetSignupsBySource(owner: Option<int>, account: int, signups: seq<Signup>, now: Instant,
                            dateFrom: Option<Instant>, dateTo: Option<Instant>, period: string)
    returns (r: Result<Response, SignupCharts.Error>)
    ensures owner == None ==> r == Err(SignupCharts.CampaignNotFound)
    ensures owner.Some? && owner.value != account ==> r == Err(SignupCharts.Unauthorized)
    ensures owner == Some(account) ==>
      var from := if dateFrom.Some? then dateFrom.value else now - 30 * DAY;
      var to := if dateTo.Some? then dateTo.value else now;
      var p := ParsePeriod(period);
      if from > to then r == Err(SignupCharts.InvalidDateRange)
      else
        && r.Ok? && r.value.period == SignupCharts.ValidPeriod(period)
        && IsChart(r.value.data, r.value.sources, signups, from, to, p)
        && IsStart(Truncate(from, p), p)
        && r.value.data == Series(Truncate(from, p), Truncate(to, p), p, r.value.sources,
                                  Index(GroupRows(InRange(signups, from, to), p), p))
        && r.value.total == Total(r.value.data)
        && r.value.total + LostUpTo(InRange(signups, from, to), Truncate(from, p), Truncate(to, p), p)
           == Number(signups, (u: Signup) => from <= u.at <= to)
  {
    hide Truncate, Advance, IsStart, AddDate, Series, Index, LostUpTo, IsGrouping, GroupRows, IsChart, Number;
    AddDays(now, -30);
    if owner == None {
      return Err(SignupCharts.CampaignNotFound);
    }
    if owner.value != account {
      return Err(SignupCharts.Unauthorized);
    }
    var from := AddDate(now, 0, -30);
    var to := now;
    if dateFrom.Some? { from := dateFrom.value; }
    if dateTo.Some? { to := dateTo.value; }
    if from > to {
      return Err(SignupCharts.InvalidDateRange);
    }
    var p := ParsePeriod(period);
    var counted := InRange(signups, from, to);
    var data := GroupRows(counted, p);
    GroupRowsIsGrouping(counted, p);
    var filled, sources := FillGapsBySource(data, from, to, p);
    var total := 0;
    for i := 0 to |filled|
      invariant total + Total(filled[i..]) == Total(filled)
    {
      assert filled[i..][1..] == filled[i + 1..];
      total := total + filled[i].count;
    }
    TotalConserved(data, counted, from, to, p, sources);
    SeriesIsChart(signups, from, to, p, sources);
    InRangeNumber(signups, from, to);
    r := Ok(Response(filled, sources, total, SignupCharts.ValidPeriod(period)));
  }
}
