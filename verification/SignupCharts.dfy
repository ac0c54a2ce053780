/**
 Signup counts over time: grouped rows are spread over a gap-free series of buckets.
 The reference definition counts the signups of each bucket directly.
 */
module SignupCharts {
  import opened Prelude
  import opened Calendar
  import opened Tally

  datatype Point = Point(date: Instant, count: int)

  // ---------------------------------------------------------------- counting signups

  /** Signups at instants lo <= s < hi. */
  function CountBetween(signups: seq<Instant>, lo: Instant, hi: Instant): (n: nat)
    ensures n <= |signups|
  {
    if signups == [] then 0
    else (if lo <= signups[0] < hi then 1 else 0) + CountBetween(signups[1..], lo, hi)
  }

  lemma {:induction false} CountSplits(signups: seq<Instant>, lo: Instant, mid: Instant, hi: Instant)
    requires lo <= mid <= hi
    ensures CountBetween(signups, lo, hi)
            == CountBetween(signups, lo, mid) + CountBetween(signups, mid, hi)
  {
    if signups != [] {
      CountSplits(signups[1..], lo, mid, hi);
    }
  }

  lemma {:induction false} CountAll(signups: seq<Instant>, lo: Instant, hi: Instant)
    requires forall s :: s in signups ==> lo <= s < hi
    ensures CountBetween(signups, lo, hi) == |signups|
  {
    if signups != [] {
      assert signups[0] in signups && forall s :: s in signups[1..] ==> s in signups;
      CountAll(signups[1..], lo, hi);
    }
  }

  lemma {:induction false} CountNone(signups: seq<Instant>, lo: Instant, hi: Instant)
    requires forall s :: s in signups ==> !(lo <= s < hi)
    ensures CountBetween(signups, lo, hi) == 0
  {
    if signups != [] {
      assert signups[0] in signups && forall s :: s in signups[1..] ==> s in signups;
      CountNone(signups[1..], lo, hi);
    }
  }

  /** `created_at >= from AND created_at <= to`. */
  function InRange(signups: seq<Instant>, from: Instant, to: Instant): (r: seq<Instant>)
    ensures forall s :: s in r <==> s in signups && from <= s <= to
    ensures |r| == CountBetween(signups, from, to + 1)
  {
    if signups == [] then []
    else (if from <= signups[0] <= to then [signups[0]] else []) + InRange(signups[1..], from, to)
  }

  lemma {:induction false} CountIsNumber(signups: seq<Instant>, lo: Instant, hi: Instant)
    ensures CountBetween(signups, lo, hi) == Number(signups, s => lo <= s < hi)
  {
    if signups != [] {
      CountIsNumber(signups[1..], lo, hi);
      NumberCons(signups[0], signups[1..], s => lo <= s < hi);
      assert signups == [signups[0]] + signups[1..];
    }
  }

  /** The query's answer has every signup of the range, as often as it occurs. */
  lemma {:induction false} CountInRange(signups: seq<Instant>, from: Instant, to: Instant, lo: Instant, hi: Instant)
    ensures CountBetween(InRange(signups, from, to), lo, hi) == Number(signups, s => from <= s <= to && lo <= s < hi)
  {
    if signups != [] {
      CountInRange(signups[1..], from, to, lo, hi);
      NumberCons(signups[0], signups[1..], s => from <= s <= to && lo <= s < hi);
      assert signups == [signups[0]] + signups[1..];
      var rest := InRange(signups[1..], from, to);
      assert [] + rest == rest && ([signups[0]] + rest)[1..] == rest;
    }
  }

  lemma {:induction false} InRangeNumber(signups: seq<Instant>, from: Instant, to: Instant)
    ensures |InRange(signups, from, to)| == Number(signups, s => from <= s <= to)
  {
    if signups != [] {
      InRangeNumber(signups[1..], from, to);
      NumberCons(signups[0], signups[1..], s => from <= s <= to);
      assert signups == [signups[0]] + signups[1..];
    }
  }

  // ---------------------------------------------------------------- the store's grouped rows

  ghost predicate HasRow(data: seq<Point>, b: Instant) {
    exists i :: 0 <= i < |data| && data[i].date == b
  }

  /** The rows of `GROUP BY DATE_TRUNC(period, created_at)`, in any order. */
  ghost predicate IsGrouping(data: seq<Point>, signups: seq<Instant>, p: Period) {
    && (forall i :: 0 <= i < |data| ==>
          IsStart(data[i].date, p)
          && data[i].count == CountBetween(signups, data[i].date, Advance(data[i].date, p)))
    && (forall i, j :: 0 <= i < j < |data| ==> data[i].date != data[j].date)
    && (forall s :: s in signups ==> HasRow(data, Truncate(s, p)))
  }

  /** Rows in ascending date order, one more signup counted in bucket b. */
  function Bump(rows: seq<Point>, b: Instant): (r: seq<Point>)
    ensures r != []
  {
    if rows == [] || b < rows[0].date then [Point(b, 1)] + rows
    else if b == rows[0].date then [Point(b, rows[0].count + 1)] + rows[1..]
    else [rows[0]] + Bump(rows[1..], b)
  }

  /** The store's query `GetSignupsOverTime` for a session in UTC. */
  function GroupRows(signups: seq<Instant>, p: Period): seq<Point> {
    if signups == [] then [] else Bump(GroupRows(signups[1..], p), Truncate(signups[0], p))
  }

  ghost predicate Ascending(rows: seq<Point>) {
    forall i, j :: 0 <= i < j < |rows| ==> rows[i].date < rows[j].date
  }

  /** The count stored for a bucket; 0 when there is no row for it. */
  ghost function CountAt(rows: seq<Point>, b: Instant): int {
    if rows == [] then 0 else if rows[0].date == b then rows[0].count else CountAt(rows[1..], b)
  }

  lemma AscendingCons(row: Point, rows: seq<Point>)
    requires Ascending(rows) && (rows == [] || row.date < rows[0].date)
    ensures Ascending([row] + rows)
  {
  }

  lemma {:induction false} BumpAscending(rows: seq<Point>, b: Instant)
    requires Ascending(rows)
    ensures Ascending(Bump(rows, b))
    ensures Bump(rows, b)[0].date == if rows == [] || b < rows[0].date then b else rows[0].date
  {
    if rows == [] || b < rows[0].date {
      AscendingCons(Point(b, 1), rows);
    } else if b == rows[0].date {
      AscendingCons(Point(b, rows[0].count + 1), rows[1..]);
    } else {
      BumpAscending(rows[1..], b);
      AscendingCons(rows[0], Bump(rows[1..], b));
    }
  }

  lemma {:induction false} NoRow(rows: seq<Point>, b: Instant)
    requires !HasRow(rows, b)
    ensures CountAt(rows, b) == 0
  {
    if rows != [] {
      assert rows[0].date != b;
      assert forall i :: 0 <= i < |rows[1..]| ==> rows[1..][i] == rows[i + 1];
      NoRow(rows[1..], b);
    }
  }

  lemma {:induction false} BumpCount(rows: seq<Point>, b: Instant, c: Instant)
    requires Ascending(rows)
    ensures CountAt(Bump(rows, b), c) == CountAt(rows, c) + (if c == b then 1 else 0)
  {
    if rows == [] || b < rows[0].date {
      assert Bump(rows, b)[1..] == rows;
      if c == b { NoRow(rows, c); }
    } else if b == rows[0].date {
      assert Bump(rows, b)[1..] == rows[1..];
    } else {
      assert Bump(rows, b)[1..] == Bump(rows[1..], b);
      BumpCount(rows[1..], b, c);
    }
  }

  lemma {:induction false} BumpHasRow(rows: seq<Point>, b: Instant, c: Instant)
    requires c == b || HasRow(rows, c)
    ensures HasRow(Bump(rows, b), c)
  {
    var r := Bump(rows, b);
    if rows == [] || b <= rows[0].date {
      if c != b {
        var i :| 0 <= i < |rows| && rows[i].date == c;
        assert if b < rows[0].date then r[i + 1] == rows[i] else r[i].date == rows[i].date;
      } else {
        assert r[0].date == b;
      }
    } else if c == rows[0].date {
      assert r[0].date == c;
    } else {
      if c != b {
        var i :| 0 <= i < |rows| && rows[i].date == c;
        assert rows[1..][i - 1].date == c;
      }
      BumpHasRow(rows[1..], b, c);
      var k :| 0 <= k < |Bump(rows[1..], b)| && Bump(rows[1..], b)[k].date == c;
      assert r[k + 1].date == c;
    }
  }

  lemma {:induction false} BumpStarts(rows: seq<Point>, b: Instant, p: Period)
    requires IsStart(b, p) && forall i :: 0 <= i < |rows| ==> IsStart(rows[i].date, p)
    ensures forall i :: 0 <= i < |Bump(rows, b)| ==> IsStart(Bump(rows, b)[i].date, p)
  {
    hide IsStart;
    if rows != [] && rows[0].date < b {
      BumpStarts(rows[1..], b, p);
    }
  }

  lemma {:induction false} RowCount(rows: seq<Point>, i: nat)
    requires i < |rows|
    requires forall i, j :: 0 <= i < j < |rows| ==> rows[i].date != rows[j].date
    ensures CountAt(rows, rows[i].date) == rows[i].count
  {
    if i > 0 {
      RowCount(rows[1..], i - 1);
    }
  }

  lemma {:induction false} GroupRowsShape(signups: seq<Instant>, p: Period)
    ensures Ascending(GroupRows(signups, p))
    ensures forall i :: 0 <= i < |GroupRows(signups, p)| ==> IsStart(GroupRows(signups, p)[i].date, p)
    ensures forall s :: s in signups ==> HasRow(GroupRows(signups, p), Truncate(s, p))
  {
    hide Truncate, IsStart;
    if signups != [] {
      var rows, b := GroupRows(signups[1..], p), Truncate(signups[0], p);
      GroupRowsShape(signups[1..], p);
      TruncateIsStart(signups[0], p);
      BumpAscending(rows, b);
      BumpStarts(rows, b, p);
      forall s | s in signups ensures HasRow(GroupRows(signups, p), Truncate(s, p)) {
        BumpHasRow(rows, b, Truncate(s, p));
      }
    }
  }

  lemma {:induction false} GroupRowsCount(signups: seq<Instant>, p: Period, b: Instant)
    requires IsStart(b, p)
    ensures CountAt(GroupRows(signups, p), b) == CountBetween(signups, b, Advance(b, p))
  {
    hide Truncate, Advance, IsStart;
    if signups != [] {
      GroupRowsCount(signups[1..], p, b);
      GroupRowsShape(signups[1..], p);
      BumpCount(GroupRows(signups[1..], p), Truncate(signups[0], p), b);
      BucketIsInterval(b, signups[0], p);
    }
  }

  /** The rows are a grouping, so what holds of every grouping holds of the store's answer. */
  lemma GroupRowsIsGrouping(signups: seq<Instant>, p: Period)
    ensures IsGrouping(GroupRows(signups, p), signups, p)
  {
    hide Truncate, Advance, IsStart;
    var rows := GroupRows(signups, p);
    GroupRowsShape(signups, p);
    forall i | 0 <= i < |rows|
      ensures rows[i].count == CountBetween(signups, rows[i].date, Advance(rows[i].date, p))
    {
      GroupRowsCount(signups, p, rows[i].date);
      RowCount(rows, i);
    }
  }

  // ---------------------------------------------------------------- the series

  /** Lookup table keyed by Unix seconds; a later row for the same bucket replaces it. */
  function Index(data: seq<Point>, p: Period): map<int, int> {
    if data == [] then map[]
    else
      var last := data[|data| - 1];
      Index(data[..|data| - 1], p)[UnixSeconds(Truncate(last.date, p)) := last.count]
  }

  function Lookup(table: map<int, int>, key: int): int {
    if key in table then table[key] else 0
  }

  /** One point per bucket from `current` to `end`. */
  function Series(current: Instant, end: Instant, p: Period, table: map<int, int>): seq<Point>
    requires IsStart(current, p)
    decreases end - current
  {
    if current > end then []
    else
      AdvanceIsStart(current, p);
      [Point(current, Lookup(table, UnixSeconds(current)))] + Series(Advance(current, p), end, p, table)
  }

  /** The reference: count the signups of every bucket from `current` to `end`. */
  function CountPerBucket(signups: seq<Instant>, current: Instant, end: Instant, p: Period): seq<Point>
    requires IsStart(current, p)
    decreases end - current
  {
    if current > end then []
    else
      AdvanceIsStart(current, p);
      [Point(current, CountBetween(signups, current, Advance(current, p)))]
      + CountPerBucket(signups, Advance(current, p), end, p)
  }

  function Total(points: seq<Point>): int {
    if points == [] then 0 else points[0].count + Total(points[1..])
  }

  /** The reference series names every bucket start in range once, in increasing order, with
      the number of signups that truncate to it. */
  lemma {:induction false} CountPerBucketMeaning(signups: seq<Instant>, first: Instant, end: Instant, p: Period)
    requires IsStart(first, p)
    ensures var r := CountPerBucket(signups, first, end, p);
      && Ascending(r)
      && (forall i :: 0 <= i < |r| ==>
            && IsStart(r[i].date, p) && first <= r[i].date <= end
            && r[i].count == CountBetween(signups, r[i].date, Advance(r[i].date, p)))
      && (forall b :: IsStart(b, p) && first <= b <= end ==> HasRow(r, b))
    decreases end - first
  {
    hide Truncate, Advance, IsStart, CountBetween;
    if first <= end {
      AdvanceIsStart(first, p);
      var next := Advance(first, p);
      var tail := CountPerBucket(signups, next, end, p);
      CountPerBucketMeaning(signups, next, end, p);
      AscendingCons(Point(first, CountBetween(signups, first, next)), tail);
      forall b | IsStart(b, p) && first <= b <= end
        ensures HasRow(CountPerBucket(signups, first, end, p), b)
      {
        if b == first {
          assert CountPerBucket(signups, first, end, p)[0].date == b;
        } else {
          NoStartBetween(first, b, p);
          var i :| 0 <= i < |tail| && tail[i].date == b;
          assert CountPerBucket(signups, first, end, p)[i + 1].date == b;
        }
      }
    }
  }

  /** Every signup of a range lies in one of its buckets, so totals are conserved. */
  lemma {:induction false} TotalIsCount(signups: seq<Instant>, first: Instant, end: Instant, p: Period)
    requires IsStart(first, p) && IsStart(end, p) && first <= end
    ensures Total(CountPerBucket(signups, first, end, p)) == CountBetween(signups, first, Advance(end, p))
    decreases end - first
  {
    hide Truncate, Advance, IsStart;
    AdvanceIsStart(first, p);
    AdvanceIsStart(end, p);
    var next := Advance(first, p);
    if first < end {
      NoStartBetween(first, end, p);
      TotalIsCount(signups, next, end, p);
      CountSplits(signups, first, next, Advance(end, p));
    }
    assert CountPerBucket(signups, first, end, p)[1..] == CountPerBucket(signups, next, end, p);
  }

  lemma {:induction false} CountAtInit(data: seq<Point>, b: Instant)
    requires data != [] && data[|data| - 1].date != b
    ensures CountAt(data[..|data| - 1], b) == CountAt(data, b)
  {
    if |data| > 1 {
      CountAtInit(data[1..], b);
      assert data[1..][..|data| - 2] == data[..|data| - 1][1..];
    }
  }

  /** The lookup table built from grouped rows answers every bucket correctly. */
  lemma {:induction false} IndexOfRows(data: seq<Point>, p: Period, b: Instant)
    requires IsStart(b, p)
    requires forall i :: 0 <= i < |data| ==> IsStart(data[i].date, p)
    requires forall i, j :: 0 <= i < j < |data| ==> data[i].date != data[j].date
    ensures Lookup(Index(data, p), UnixSeconds(b)) == CountAt(data, b)
  {
    hide Truncate, Advance, IsStart, UnixSeconds;
    if data != [] {
      var init, last := data[..|data| - 1], data[|data| - 1];
      IndexOfRows(init, p, b);
      StartTruncatesToItself(last.date, p);
      StartsAreWholeSeconds(last.date, p);
      StartsAreWholeSeconds(b, p);
      if last.date == b {
        RowCount(data, |data| - 1);
      } else {
        CountAtInit(data, b);
      }
    }
  }

  /** Filling gaps from any grouping of the signups gives the reference series. */
  lemma {:induction false} SeriesOfGrouping(data: seq<Point>, signups: seq<Instant>,
                                            current: Instant, end: Instant, p: Period)
    requires IsGrouping(data, signups, p) && IsStart(current, p)
    ensures Series(current, end, p, Index(data, p)) == CountPerBucket(signups, current, end, p)
    decreases end - current
  {
    hide Truncate, Advance, IsStart, UnixSeconds;
    if current <= end {
      AdvanceIsStart(current, p);
      SeriesOfGrouping(data, signups, Advance(current, p), end, p);
      IndexOfRows(data, p, current);
      if HasRow(data, current) {
        var i :| 0 <= i < |data| && data[i].date == current;
        RowCount(data, i);
      } else {
        NoRow(data, current);
        forall s | s in signups ensures !(current <= s < Advance(current, p)) {
          BucketIsInterval(current, s, p);
        }
        CountNone(signups, current, Advance(current, p));
      }
    }
  }

  // ---------------------------------------------------------------- the processor's loops

  method GenerateEmptyPeriods(from: Instant, to: Instant, p: Period) returns (result: seq<Point>)
    ensures IsStart(Truncate(from, p), p)
    ensures result == Series(Truncate(from, p), Truncate(to, p), p, map[])
  {
    hide Truncate, Advance, IsStart, UnixSeconds;
    result := [];
    var current, end := Truncate(from, p), Truncate(to, p);
    TruncateIsStart(from, p);
    ghost var first := current;
    while current <= end
      invariant IsStart(current, p)
      invariant result + Series(current, end, p, map[]) == Series(first, end, p, map[])
      decreases end - current
    {
      AdvanceIsStart(current, p);
      result := result + [Point(current, 0)];
      current := Advance(current, p);
    }
  }

  method IndexRows(data: seq<Point>, p: Period) returns (dataMap: map<int, int>)
    ensures dataMap == Index(data, p)
  {
    hide Truncate, UnixSeconds;
    dataMap := map[];
    for i := 0 to |data|
      invariant dataMap == Index(data[..i], p)
    {
      assert data[..i + 1][..i] == data[..i];
      dataMap := dataMap[UnixSeconds(Truncate(data[i].date, p)) := data[i].count];
    }
    assert data[..|data|] == data;
  }

  method FillGaps(data: seq<Point>, from: Instant, to: Instant, p: Period) returns (result: seq<Point>)
    ensures IsStart(Truncate(from, p), p)
    ensures result == Series(Truncate(from, p), Truncate(to, p), p, Index(data, p))
  {
    hide Truncate, Advance, IsStart, UnixSeconds;
    if |data| == 0 {
      result := GenerateEmptyPeriods(from, to, p);
      return;
    }
    var dataMap := IndexRows(data, p);
    result := [];
    var current, end := Truncate(from, p), Truncate(to, p);
    TruncateIsStart(from, p);
    ghost var first := current;
    while current <= end
      invariant IsStart(current, p)
      invariant result + Series(current, end, p, dataMap) == Series(first, end, p, dataMap)
      decreases end - current
    {
      AdvanceIsStart(current, p);
      var key := UnixSeconds(current);
      result := result + [Point(current, if key in dataMap then dataMap[key] else 0)];
      current := Advance(current, p);
    }
  }

  // ---------------------------------------------------------------- the request

  datatype Error = CampaignNotFound | Unauthorized | InvalidDateRange

  datatype Response = Response(data: seq<Point>, total: int, period: string)

  function ValidPeriod(period: string): string {
    if period in ["hour", "day", "week", "month"] then period else "day"
  }

  /** The chart names the period it was made for. */
  lemma PeriodNamed(period: string)
    ensures ValidPeriod(period) == "hour" || ValidPeriod(period) == "day"
            || ValidPeriod(period) == "week" || ValidPeriod(period) == "month"
    ensures ParsePeriod(ValidPeriod(period)) == ParsePeriod(period)
  {}

  /** A point for every bucket that begins between the buckets of the two ends, in order, each
      with the number of signups of the range that lie in it. */
  ghost predicate IsChart(data: seq<Point>, signups: seq<Instant>, from: Instant, to: Instant, p: Period) {
    && Ascending(data)
    && (forall i :: 0 <= i < |data| ==>
          var b := data[i].date;
          && IsStart(b, p) && Truncate(from, p) <= b <= Truncate(to, p)
          && data[i].count == Number(signups, s => from <= s <= to && b <= s < Advance(b, p)))
    && forall b :: IsStart(b, p) && Truncate(from, p) <= b <= Truncate(to, p) ==> HasRow(data, b)
  }

  lemma ReferenceIsChart(signups: seq<Instant>, from: Instant, to: Instant, p: Period)
    ensures IsStart(Truncate(from, p), p)
    ensures IsChart(CountPerBucket(InRange(signups, from, to), Truncate(from, p), Truncate(to, p), p),
                    signups, from, to, p)
  {
    hide Truncate, Advance, IsStart, InRange, CountPerBucket, CountBetween, Number;
    TruncateIsStart(from, p);
    CountPerBucketMeaning(InRange(signups, from, to), Truncate(from, p), Truncate(to, p), p);
    var data := CountPerBucket(InRange(signups, from, to), Truncate(from, p), Truncate(to, p), p);
    forall i | 0 <= i < |data|
      ensures data[i].count == Number(signups, s => from <= s <= to && data[i].date <= s < Advance(data[i].date, p))
    {
      CountInRange(signups, from, to, data[i].date, Advance(data[i].date, p));
    }
  }

  method SumCounts(data: seq<Point>) returns (total: int)
    ensures total == Total(data)
  {
    total := 0;
    for i := 0 to |data|
      invariant total + Total(data[i..]) == Total(data)
    {
      assert data[i..][1..] == data[i + 1..];
      total := total + data[i].count;
    }
  }

  /** All signups between from and to are counted: the buckets at both ends are whole. */
  lemma WholeRange(signups: seq<Instant>, from: Instant, to: Instant, p: Period)
    requires from <= to && forall s :: s in signups ==> from <= s <= to
    ensures IsStart(Truncate(from, p), p)
    ensures Total(CountPerBucket(signups, Truncate(from, p), Truncate(to, p), p)) == |signups|
  {
    hide Truncate, Advance, IsStart;
    TruncateIsStart(from, p);
    TruncateIsStart(to, p);
    TruncateLaws(from, to, p);
    BucketContains(from, p);
    BucketContains(to, p);
    TotalIsCount(signups, Truncate(from, p), Truncate(to, p), p);
    CountAll(signups, Truncate(from, p), Advance(Truncate(to, p), p));
  }

  /** The chart of a campaign: `owner` is the campaign's account when it exists, `signups`
      the creation times of its users that are not deleted. */
  method GetSignupsOverTime(owner: Option<int>, account: int, signups: seq<Instant>, now: Instant,
                            dateFrom: Option<Instant>, dateTo: Option<Instant>, period: string)
    returns (r: Result<Response, Error>)
    ensures owner == None ==> r == Err(CampaignNotFound)
    ensures owner.Some? && owner.value != account ==> r == Err(Unauthorized)
    ensures owner == Some(account) ==>
      var from := if dateFrom.Some? then dateFrom.value else now - 30 * DAY;
      var to := if dateTo.Some? then dateTo.value else now;
      var p := ParsePeriod(period);
      if from > to then r == Err(InvalidDateRange)
      else
        && r.Ok?
        && IsChart(r.value.data, signups, from, to, p)
        && IsStart(Truncate(from, p), p)
        && r.value.data == CountPerBucket(InRange(signups, from, to), Truncate(from, p), Truncate(to, p), p)
        && r.value.total == Number(signups, s => from <= s <= to)
        && r.value.period == ValidPeriod(period)
  {
    hide Truncate, Advance, IsStart, AddDate, InRange, GroupRows, CountPerBucket, Series, Index, IsGrouping;
    hide CountBetween, Total, Number, IsChart, HasRow;
    AddDays(now, -30);
    if owner == None {
      return Err(CampaignNotFound);
    }
    if owner.value != account {
      return Err(Unauthorized);
    }
    var from := AddDate(now, 0, -30);
    var to := now;
    if dateFrom.Some? { from := dateFrom.value; }
    if dateTo.Some? { to := dateTo.value; }
    if from > to {
      return Err(InvalidDateRange);
    }
    var p := ParsePeriod(period);
    var inRange := InRange(signups, from, to);
    var rows := GroupRows(inRange, p);
    var data := FillGaps(rows, from, to, p);
    GroupRowsIsGrouping(inRange, p);
    SeriesOfGrouping(rows, inRange, Truncate(from, p), Truncate(to, p), p);

    var total := SumCounts(data);
    WholeRange(inRange, from, to, p);
    ReferenceIsChart(signups, from, to, p);
    InRangeNumber(signups, from, to);
    r := Ok(Response(data, total, ValidPeriod(period)));
  }
}
