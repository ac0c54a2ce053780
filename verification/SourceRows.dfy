/** The store's rows of signups grouped by bucket and source. */
module SourceRows {
  import opened Prelude
  import opened Text
  import opened Calendar
  import opened SourceCharts
  import opened Tally

  /** Signups from `source` at instants lo <= at < hi. */
  function CountSource(signups: seq<Signup>, lo: Instant, hi: Instant, source: Source): nat {
    if signups == [] then 0
    else (if lo <= signups[0].at < hi && signups[0].source == source then 1 else 0)
         + CountSource(signups[1..], lo, hi, source)
  }

  /** The WHERE clause on created_at. */
  function InRange(signups: seq<Signup>, from: Instant, to: Instant): (r: seq<Signup>)
    ensures forall i :: 0 <= i < |r| ==> from <= r[i].at <= to
  {
    if signups == [] then []
    else (if from <= signups[0].at <= to then [signups[0]] else []) + InRange(signups[1..], from, to)
  }

  lemma CountSourceCons(u: Signup, rest: seq<Signup>, lo: Instant, hi: Instant, source: Source)
    ensures CountSource([u] + rest, lo, hi, source)
         == CountSource(rest, lo, hi, source) + (if lo <= u.at < hi && u.source == source then 1 else 0)
  {
    assert ([u] + rest)[1..] == rest;
  }

  lemma NobodyCounted(lo: Instant, hi: Instant, source: Source, p: Signup -> bool)
    ensures CountSource([], lo, hi, source) == 0 == Number([], p)
  {}

  /** The WHERE clause keeps every signup of the range, whatever its source, as often as it occurs. */
  lemma {:induction false} CountInRange(signups: seq<Signup>, from: Instant, to: Instant, lo: Instant, hi: Instant,
                                        source: Source)
    ensures CountSource(InRange(signups, from, to), lo, hi, source)
         == Number(signups, (u: Signup) => from <= u.at <= to && lo <= u.at < hi && u.source == source)
  {
    hide CountSource, Number;
    if signups == [] {
      NobodyCounted(lo, hi, source, (u: Signup) => from <= u.at <= to && lo <= u.at < hi && u.source == source);
    } else {
      var first, others := signups[0], signups[1..];
      CountInRange(others, from, to, lo, hi, source);
      NumberCons(first, others, (u: Signup) => from <= u.at <= to && lo <= u.at < hi && u.source == source);
      CountSourceCons(first, InRange(others, from, to), lo, hi, source);
      assert signups == [first] + others;
      assert [] + InRange(others, from, to) == InRange(others, from, to);
    }
  }

  lemma {:induction false} InRangeNumber(signups: seq<Signup>, from: Instant, to: Instant)
    ensures |InRange(signups, from, to)| == Number(signups, (u: Signup) => from <= u.at <= to)
  {
    if signups != [] {
      InRangeNumber(signups[1..], from, to);
      NumberCons(signups[0], signups[1..], (u: Signup) => from <= u.at <= to);
      assert signups == [signups[0]] + signups[1..];
    }
  }

  lemma {:induction false} InRangeMembers(signups: seq<Signup>, from: Instant, to: Instant, u: Signup)
    ensures u in InRange(signups, from, to) <==> u in signups && from <= u.at <= to
  {
    if signups != [] {
      InRangeMembers(signups[1..], from, to, u);
    }
  }

  ghost predicate HasRow(data: seq<Row>, b: Instant, source: Source) {
    exists i :: 0 <= i < |data| && data[i].date == b && data[i].source == source
  }

  /** The rows of `GROUP BY bucket, utm_source`; within a bucket NULL comes last. */
  ghost predicate IsGrouping(data: seq<Row>, signups: seq<Signup>, p: Period) {
    && (forall i :: 0 <= i < |data| ==>
          IsStart(data[i].date, p)
          && data[i].count == CountSource(signups, data[i].date, Advance(data[i].date, p), data[i].source)
          && data[i].count > 0)
    && (forall i, j :: 0 <= i < j < |data| ==>
          data[i].date != data[j].date || data[i].source != data[j].source)
    && (forall i, j :: 0 <= i < j < |data| && data[i].date == data[j].date ==> data[i].source.Some?)
    && (forall i :: 0 <= i < |signups| ==> HasRow(data, Truncate(signups[i].at, p), signups[i].source))
  }

  // ---------------------------------------------------------------- the order of the rows

  /** ORDER BY date ASC, utm_source ASC NULLS LAST. */
  predicate Earlier(b: Instant, s: Source, c: Instant, t: Source) {
    b < c || (b == c && s.Some? && (t.None? || Less(s.value, t.value)))
  }

  lemma EarlierTransitive(b: Instant, s: Source, c: Instant, t: Source, d: Instant, u: Source)
    requires Earlier(b, s, c, t) && Earlier(c, t, d, u)
    ensures Earlier(b, s, d, u)
  {
    if s.Some? && t.Some? && u.Some? && Less(s.value, t.value) && Less(t.value, u.value) {
      LessTransitive(s.value, t.value, u.value);
    }
  }

  lemma EarlierTotal(b: Instant, s: Source, c: Instant, t: Source)
    ensures Earlier(b, s, c, t) || Earlier(c, t, b, s) || (b == c && s == t)
    ensures !Earlier(b, s, b, s)
  {
    if s.Some? {
      LessTotal(s.value, if t.Some? then t.value else "");
      LessTotal(s.value, s.value);
    }
  }

  ghost predicate Ordered(rows: seq<Row>) {
    forall i, j :: 0 <= i < j < |rows| ==> Earlier(rows[i].date, rows[i].source, rows[j].date, rows[j].source)
  }

  lemma OrderedCons(row: Row, rows: seq<Row>)
    requires Ordered(rows) && (rows == [] || Earlier(row.date, row.source, rows[0].date, rows[0].source))
    ensures Ordered([row] + rows)
  {
    hide Earlier;
    var all := [row] + rows;
    forall i, j | 0 <= i < j < |all| ensures Earlier(all[i].date, all[i].source, all[j].date, all[j].source) {
      if i == 0 && j > 1 {
        EarlierTransitive(row.date, row.source, rows[0].date, rows[0].source, rows[j - 1].date, rows[j - 1].source);
      }
    }
  }

  // ---------------------------------------------------------------- grouping

  /** One more signup counted for bucket b and a source. */
  function Bump(rows: seq<Row>, b: Instant, source: Source): seq<Row> {
    if rows == [] || Earlier(b, source, rows[0].date, rows[0].source) then [Row(b, source, 1)] + rows
    else if b == rows[0].date && source == rows[0].source then [Row(b, source, rows[0].count + 1)] + rows[1..]
    else [rows[0]] + Bump(rows[1..], b, source)
  }

  /** The store's query `GetSignupsBySource` for a session in UTC. */
  function GroupRows(signups: seq<Signup>, p: Period): seq<Row> {
    if signups == [] then []
    else Bump(GroupRows(signups[1..], p), Truncate(signups[0].at, p), signups[0].source)
  }

  /** The count stored for a bucket and a source; 0 when there is no row for them. */
  ghost function CountAt(rows: seq<Row>, b: Instant, source: Source): int {
    if rows == [] then 0
    else if rows[0].date == b && rows[0].source == source then rows[0].count
    else CountAt(rows[1..], b, source)
  }

  lemma {:induction false} BumpOrdered(rows: seq<Row>, b: Instant, source: Source)
    requires Ordered(rows)
    ensures var r := Bump(rows, b, source);
      && Ordered(r) && r != []
      && (|| (r[0].date == b && r[0].source == source)
          || (rows != [] && r[0].date == rows[0].date && r[0].source == rows[0].source))
  {
    hide Earlier;
    if rows == [] || Earlier(b, source, rows[0].date, rows[0].source) {
      OrderedCons(Row(b, source, 1), rows);
    } else if b == rows[0].date && source == rows[0].source {
      OrderedCons(Row(b, source, rows[0].count + 1), rows[1..]);
    } else {
      EarlierTotal(b, source, rows[0].date, rows[0].source);
      BumpOrdered(rows[1..], b, source);
      OrderedCons(rows[0], Bump(rows[1..], b, source));
    }
  }

  lemma {:induction false} NoRow(rows: seq<Row>, b: Instant, source: Source)
    requires forall i :: 0 <= i < |rows| ==> rows[i].date != b || rows[i].source != source
    ensures CountAt(rows, b, source) == 0
  {
    if rows != [] {
      NoRow(rows[1..], b, source);
    }
  }

  /** A key before the first row has no row. */
  lemma NotYetThere(rows: seq<Row>, b: Instant, source: Source)
    requires Ordered(rows) && (rows == [] || Earlier(b, source, rows[0].date, rows[0].source))
    ensures CountAt(rows, b, source) == 0
  {
    hide Earlier;
    forall i | 0 <= i < |rows| ensures rows[i].date != b || rows[i].source != source {
      if i > 0 {
        EarlierTransitive(b, source, rows[0].date, rows[0].source, rows[i].date, rows[i].source);
      }
      EarlierTotal(b, source, rows[i].date, rows[i].source);
    }
    NoRow(rows, b, source);
  }

  lemma {:induction false} BumpCount(rows: seq<Row>, b: Instant, source: Source, c: Instant, other: Source)
    requires Ordered(rows)
    ensures CountAt(Bump(rows, b, source), c, other)
         == CountAt(rows, c, other) + (if c == b && other == source then 1 else 0)
  {
    hide Earlier;
    var r := Bump(rows, b, source);
    if rows == [] || Earlier(b, source, rows[0].date, rows[0].source) {
      assert r[1..] == rows;
      NotYetThere(rows, b, source);
    } else if b == rows[0].date && source == rows[0].source {
      assert r[1..] == rows[1..];
    } else {
      assert r[1..] == Bump(rows[1..], b, source);
      BumpCount(rows[1..], b, source, c, other);
    }
  }

  ghost predicate Proper(rows: seq<Row>, p: Period) {
    forall i :: 0 <= i < |rows| ==> IsStart(rows[i].date, p) && rows[i].count > 0
  }

  lemma {:induction false} BumpRows(rows: seq<Row>, b: Instant, source: Source, p: Period)
    requires IsStart(b, p) && Proper(rows, p)
    ensures Proper(Bump(rows, b, source), p)
  {
    hide IsStart;
    if rows == [] || Earlier(b, source, rows[0].date, rows[0].source) {
    } else if b == rows[0].date && source == rows[0].source {
      assert rows[0].count > 0;
    } else {
      BumpRows(rows[1..], b, source, p);
      assert rows[0].count > 0;
    }
  }

  lemma {:induction false} RowCount(rows: seq<Row>, i: nat)
    requires i < |rows|
    requires forall i, j :: 0 <= i < j < |rows| ==> rows[i].date != rows[j].date || rows[i].source != rows[j].source
    ensures CountAt(rows, rows[i].date, rows[i].source) == rows[i].count
  {
    if i > 0 {
      RowCount(rows[1..], i - 1);
    }
  }

  lemma OrderedKeys(rows: seq<Row>)
    requires Ordered(rows)
    ensures forall i, j :: 0 <= i < j < |rows| ==> rows[i].date != rows[j].date || rows[i].source != rows[j].source
    ensures forall i, j :: 0 <= i < j < |rows| && rows[i].date == rows[j].date ==> rows[i].source.Some?
  {
    forall i, j | 0 <= i < j < |rows| ensures rows[i].date != rows[j].date || rows[i].source != rows[j].source {
      EarlierTotal(rows[i].date, rows[i].source, rows[j].date, rows[j].source);
    }
  }

  lemma EmptyRows(p: Period)
    ensures Ordered([]) && Proper([], p)
  {}

  lemma {:induction false} GroupRowsShape(signups: seq<Signup>, p: Period)
    ensures var rows := GroupRows(signups, p);
      Ordered(rows) && Proper(rows, p)
  {
    hide Truncate, IsStart, Ordered, Proper;
    if signups == [] {
      assert Ordered([]) && Proper([], p) by { EmptyRows(p); }
    } else {
      var b := Truncate(signups[0].at, p);
      GroupRowsShape(signups[1..], p);
      TruncateIsStart(signups[0].at, p);
      BumpOrdered(GroupRows(signups[1..], p), b, signups[0].source);
      BumpRows(GroupRows(signups[1..], p), b, signups[0].source, p);
    }
  }

  lemma {:induction false} GroupRowsCount(signups: seq<Signup>, p: Period, b: Instant, source: Source)
    requires IsStart(b, p)
    ensures CountAt(GroupRows(signups, p), b, source) == CountSource(signups, b, Advance(b, p), source)
  {
    hide Truncate, Advance, IsStart;
    if signups != [] {
      GroupRowsCount(signups[1..], p, b, source);
      GroupRowsShape(signups[1..], p);
      BumpCount(GroupRows(signups[1..], p), Truncate(signups[0].at, p), signups[0].source, b, source);
      BucketIsInterval(b, signups[0].at, p);
    }
  }

  lemma {:induction false} CountedMeansRow(rows: seq<Row>, b: Instant, source: Source)
    requires CountAt(rows, b, source) != 0
    ensures HasRow(rows, b, source)
  {
    if !(rows[0].date == b && rows[0].source == source) {
      CountedMeansRow(rows[1..], b, source);
      var i :| 0 <= i < |rows[1..]| && rows[1..][i].date == b && rows[1..][i].source == source;
      assert rows[i + 1].date == b;
    }
  }

  lemma {:induction false} CountsItself(signups: seq<Signup>, i: nat, lo: Instant, hi: Instant)
    requires i < |signups| && lo <= signups[i].at < hi
    ensures CountSource(signups, lo, hi, signups[i].source) > 0
  {
    if i > 0 {
      CountsItself(signups[1..], i - 1, lo, hi);
    }
  }

  /** Main result: the rows are in the query's order, by bucket and then by source with NULL
      last, and are a grouping of the signups, so what holds of every grouping holds of the
      store's answer. */
  lemma GroupRowsIsGrouping(signups: seq<Signup>, p: Period)
    ensures var rows := GroupRows(signups, p);
      forall i, j :: 0 <= i < j < |rows| ==>
        || rows[i].date < rows[j].date
        || (rows[i].date == rows[j].date && rows[i].source.Some?
            && (rows[j].source.None? || Less(rows[i].source.value, rows[j].source.value)))
    ensures IsGrouping(GroupRows(signups, p), signups, p)
  {
    hide Truncate, Advance, IsStart;
    var rows := GroupRows(signups, p);
    GroupRowsShape(signups, p);
    OrderedKeys(rows);
    forall i | 0 <= i < |rows|
      ensures rows[i].count == CountSource(signups, rows[i].date, Advance(rows[i].date, p), rows[i].source)
    {
      GroupRowsCount(signups, p, rows[i].date, rows[i].source);
      RowCount(rows, i);
    }
    forall i | 0 <= i < |signups| ensures HasRow(rows, Truncate(signups[i].at, p), signups[i].source) {
      var b := Truncate(signups[i].at, p);
      TruncateIsStart(signups[i].at, p);
      BucketContains(signups[i].at, p);
      CountsItself(signups, i, b, Advance(b, p));
      GroupRowsCount(signups, p, b, signups[i].source);
      CountedMeansRow(rows, b, signups[i].source);
    }
  }
}
