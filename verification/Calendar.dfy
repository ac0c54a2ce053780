/**
 The proleptic Gregorian calendar that `truncateTime` and `advanceTime` rely on, and the
 hour / day / week / month buckets they cut the time line into.

 An instant is a number of nanoseconds since 1970-01-01T00:00:00Z. Month lengths and the
 leap-year rule are those of section 5.7 and Appendix C of RFC 3339.
 */
module Calendar {
  type Instant = int

  const SECOND: int := 1_000_000_000
  const HOUR: int := 3600 * SECOND
  const DAY: int := 24 * HOUR

  // ---------------------------------------------------------------- years

  predicate IsLeap(y: int) {
    y % 4 == 0 && (y % 100 != 0 || y % 400 == 0)
  }

  function YearLength(y: int): int {
    if IsLeap(y) then 366 else 365
  }

  /** Day number of 1 January of year y; day 0 is 1 January 1970. */
  function YearStart(y: int): int {
    365 * (y - 1970) + (y - 1) / 4 - (y - 1) / 100 + (y - 1) / 400 - 477
  }

  lemma QuotientStep(y: int, k: int)
    requires k == 4 || k == 100 || k == 400
    ensures y / k == (y - 1) / k + (if y % k == 0 then 1 else 0)
  {
  }

  lemma MultiplesNest(k: int, l: int)
    ensures (100 * k) % 4 == 0 && (400 * l) % 100 == 0
  {
    assert 100 * k == 4 * (25 * k);
    assert 400 * l == 100 * (4 * l);
  }

  lemma LeapDay(y: int)
    ensures YearLength(y) == 365 + (if y % 4 == 0 then 1 else 0)
                             - (if y % 100 == 0 then 1 else 0) + (if y % 400 == 0 then 1 else 0)
  {
    MultiplesNest(y / 100, y / 400);
    assert y % 100 == 0 ==> y == 100 * (y / 100);
    assert y % 400 == 0 ==> y == 400 * (y / 400);
  }

  lemma YearStartStep(y: int)
    ensures YearStart(y + 1) == YearStart(y) + YearLength(y)
  {
    QuotientStep(y, 4);
    QuotientStep(y, 100);
    QuotientStep(y, 400);
    LeapDay(y);
    assert y + 1 - 1 == y;
  }

  lemma {:induction false} YearStartMonotone(y: int, z: int)
    requires y <= z
    ensures YearStart(y) + 365 * (z - y) <= YearStart(z)
    decreases z - y
  {
    if y < z {
      YearStartMonotone(y, z - 1);
      YearStartStep(z - 1);
    }
  }

  /** The year a day number falls in: a linear estimate, corrected by at most one year. */
  function YearOf(n: int): (y: int)
    ensures YearStart(y) <= n < YearStart(y + 1)
  {
    var e := 1970 + n * 400 / 146097;
    if n < YearStart(e) then e - 1
    else if YearStart(e + 1) <= n then e + 1
    else e
  }

  lemma YearIsUnique(n: int, y: int)
    requires YearStart(y) <= n < YearStart(y + 1)
    ensures YearOf(n) == y
  {
    var z := YearOf(n);
    if z < y {
      YearStartMonotone(z + 1, y);
    } else if y < z {
      YearStartMonotone(y + 1, z);
    }
  }

  // ---------------------------------------------------------------- months

  function DaysInMonth(y: int, m: int): (d: int)
    requires 1 <= m <= 12
    ensures 28 <= d <= 31
  {
    if m == 2 then (if IsLeap(y) then 29 else 28)
    else if m == 4 || m == 6 || m == 9 || m == 11 then 30
    else 31
  }

  /** Days of year y before the first of month m; month 13 is the end of the year. */
  function MonthStart(y: int, m: int): (d: int)
    requires 1 <= m <= 13
    ensures 28 * (m - 1) <= d
    decreases m
  {
    if m == 1 then 0 else MonthStart(y, m - 1) + DaysInMonth(y, m - 1)
  }

  lemma MonthsFillTheYear(y: int)
    ensures MonthStart(y, 13) == YearLength(y)
  {
    assert MonthStart(y, 5) == MonthStart(y, 3) + 61;
    assert MonthStart(y, 7) == MonthStart(y, 5) + 61;
    assert MonthStart(y, 9) == MonthStart(y, 7) + 62;
    assert MonthStart(y, 11) == MonthStart(y, 9) + 61;
  }

  lemma {:induction false} MonthStartMonotone(y: int, m: int, k: int)
    requires 1 <= m <= k <= 13
    ensures MonthStart(y, m) + 28 * (k - m) <= MonthStart(y, k)
    decreases k - m
  {
    if m < k {
      MonthStartMonotone(y, m, k - 1);
    }
  }

  /** The month, counted from `m` on, holding day `d` of year y. */
  function MonthFrom(y: int, m: int, d: int): (r: int)
    requires 1 <= m <= 12
    requires MonthStart(y, m) <= d < MonthStart(y, 13)
    ensures m <= r <= 12
    ensures MonthStart(y, r) <= d < MonthStart(y, r + 1)
    decreases 12 - m
  {
    if d < MonthStart(y, m + 1) then m else MonthFrom(y, m + 1, d)
  }

  // ---------------------------------------------------------------- civil dates

  datatype Civil = Civil(year: int, month: int, day: int) {
    ghost predicate Valid() {
      1 <= month <= 12 && 1 <= day <= DaysInMonth(year, month)
    }
  }

  /** The year, month and day Go reports for a day number. */
  function CivilOf(n: int): (c: Civil)
    ensures c.Valid()
    ensures YearStart(c.year) + MonthStart(c.year, c.month) + c.day - 1 == n
  {
    var y := YearOf(n);
    YearStartStep(y);
    MonthsFillTheYear(y);
    var d := n - YearStart(y);
    var m := MonthFrom(y, 1, d);
    Civil(y, m, d - MonthStart(y, m) + 1)
  }

  /** `time.Date` on the calendar fields: the month carries into the year, the day may be
      any integer and simply counts on from the first of the month. */
  function DayNumber(year: int, month: int, day: int): int {
    var y := year + (month - 1) / 12;
    YearStart(y) + MonthStart(y, (month - 1) % 12 + 1) + day - 1
  }

  lemma MonthIsUnique(y: int, m: int, k: int, d: int)
    requires 1 <= m <= 12 && 1 <= k <= 12
    requires MonthStart(y, m) <= d < MonthStart(y, m + 1)
    requires MonthStart(y, k) <= d < MonthStart(y, k + 1)
    ensures m == k
  {
    hide MonthStart;
    if m < k {
      MonthStartMonotone(y, m + 1, k);
    } else if k < m {
      MonthStartMonotone(y, k + 1, m);
    }
  }

  lemma MonthBounds(y: int, m: int)
    requires 1 <= m <= 12
    ensures MonthStart(y, m + 1) == MonthStart(y, m) + DaysInMonth(y, m)
    ensures 0 <= MonthStart(y, m) < MonthStart(y, m + 1) <= YearLength(y)
  {
    MonthsFillTheYear(y);
    MonthStartMonotone(y, m + 1, 13);
  }

  lemma DayNumberOfDate(y: int, m: int, d: int)
    requires 1 <= m <= 12
    ensures DayNumber(y, m, d) == YearStart(y) + MonthStart(y, m) + d - 1
  {
    hide YearStart, MonthStart;
  }

  /** The calendar is a bijection between day numbers and valid dates. */
  lemma CivilRoundTrip(c: Civil)
    requires c.Valid()
    ensures CivilOf(DayNumber(c.year, c.month, c.day)) == c
  {
    hide YearStart, MonthStart, YearOf, MonthFrom, DayNumber, DaysInMonth, YearLength;
    var n := DayNumber(c.year, c.month, c.day);
    var y := c.year;
    DayNumberOfDate(y, c.month, c.day);
    MonthBounds(y, c.month);
    YearStartStep(y);
    YearIsUnique(n, y);
    MonthBounds(y, CivilOf(n).month);
    MonthIsUnique(y, CivilOf(n).month, c.month, n - YearStart(y));
  }

  lemma DayNumberOfCivil(n: int)
    ensures DayNumber(CivilOf(n).year, CivilOf(n).month, CivilOf(n).day) == n
  {
    hide CivilOf, DayNumber, YearStart, MonthStart, DaysInMonth;
    var c := CivilOf(n);
    DayNumberOfDate(c.year, c.month, c.day);
  }

  lemma JanuaryOfNextYear(y: int)
    ensures DayNumber(y, 13, 1) == DayNumber(y + 1, 1, 1) == YearStart(y) + YearLength(y)
  {
    hide YearStart;
    YearStartStep(y);
  }

  /** The first of the following month is a calendar month away, across year ends too. */
  lemma NextMonthStart(y: int, m: int)
    requires 1 <= m <= 12
    ensures DayNumber(y, m + 1, 1) == DayNumber(y, m, 1) + DaysInMonth(y, m)
  {
    hide YearStart, MonthStart, DayNumber;
    DayNumberOfDate(y, m, 1);
    MonthBounds(y, m);
    if m == 12 {
      MonthsFillTheYear(y);
      JanuaryOfNextYear(y);
    } else {
      DayNumberOfDate(y, m + 1, 1);
    }
  }

  /** `Weekday()`: 0 is Sunday; day 0 of the count was a Thursday. */
  function Weekday(n: int): (w: int)
    ensures 0 <= w <= 6
  {
    (n + 4) % 7
  }

  // ---------------------------------------------------------------- instants

  function DayOf(t: Instant): int { t / DAY }

  function HourOf(t: Instant): int { t % DAY / HOUR }

  /** `t.Unix()`. */
  function UnixSeconds(t: Instant): int { t / SECOND }

  /** `time.Date(year, month, day, hour, 0, 0, 0, time.UTC)`. */
  function Date(year: int, month: int, day: int, hour: int): Instant {
    DayNumber(year, month, day) * DAY + hour * HOUR
  }

  /** `t.AddDate(0, months, days)`: the clock reading is kept. */
  function AddDate(t: Instant, months: int, days: int): Instant {
    var c := CivilOf(DayOf(t));
    DayNumber(c.year, c.month + months, c.day + days) * DAY + t % DAY
  }

  // ---------------------------------------------------------------- periods

  datatype Period = Hourly | Daily | Weekly | Monthly

  /** The request's period; any unknown text means "day". */
  function ParsePeriod(s: string): Period {
    if s == "hour" then Hourly
    else if s == "week" then Weekly
    else if s == "month" then Monthly
    else Daily
  }

  function Truncate(t: Instant, p: Period): Instant {
    var c := CivilOf(DayOf(t));
    match p
    case Hourly => Date(c.year, c.month, c.day, HourOf(t))
    case Daily => Date(c.year, c.month, c.day, 0)
    case Weekly =>
      var weekday := if Weekday(DayOf(t)) == 0 then 7 else Weekday(DayOf(t));
      Date(c.year, c.month, c.day - (weekday - 1), 0)
    case Monthly => Date(c.year, c.month, 1, 0)
  }

  function Advance(t: Instant, p: Period): Instant {
    match p
    case Hourly => t + HOUR
    case Daily => AddDate(t, 0, 1)
    case Weekly => AddDate(t, 0, 7)
    case Monthly => AddDate(t, 1, 0)
  }

  /** What a bucket start is, said without truncation: a full hour, a midnight, a Monday
      midnight, a midnight on the first of a month. */
  predicate IsStart(t: Instant, p: Period) {
    match p
    case Hourly => t % HOUR == 0
    case Daily => t % DAY == 0
    case Weekly => t % DAY == 0 && Weekday(DayOf(t)) == 1
    case Monthly => t % DAY == 0 && CivilOf(DayOf(t)).day == 1
  }

  // ---------------------------------------------------------------- closed forms

  lemma DateInMonthOf(n: int, offset: int, hour: int)
    ensures Date(CivilOf(n).year, CivilOf(n).month, CivilOf(n).day + offset, hour)
            == (n + offset) * DAY + hour * HOUR
  {
    hide CivilOf, DayNumber, YearStart, MonthStart, DaysInMonth;
    var c := CivilOf(n);
    DayNumberOfDate(c.year, c.month, c.day + offset);
  }

  lemma WholeHours(hours: int, rest: int)
    requires 0 <= rest < HOUR
    ensures (hours * HOUR + rest) % HOUR == rest
  {
  }

  lemma ClockForms(t: Instant)
    ensures DayOf(t) * DAY == t - t % DAY
    ensures DayOf(t) * DAY + HourOf(t) * HOUR == t - t % HOUR
  {
    var clock := t % DAY;
    assert t == DayOf(t) * DAY + clock;
    WholeHours(DayOf(t) * 24 + HourOf(t), clock % HOUR);
  }

  lemma DaysSinceMonday(n: int)
    ensures (if Weekday(n) == 0 then 7 else Weekday(n)) - 1 == (n + 3) % 7
  {
  }

  /** Weekly truncation subtracts days even when that leaves the month or the year. */
  lemma TruncateForms(t: Instant)
    ensures Truncate(t, Hourly) == t - t % HOUR
    ensures Truncate(t, Daily) == t - t % DAY
    ensures Truncate(t, Weekly) == (DayOf(t) - (DayOf(t) + 3) % 7) * DAY
    ensures Truncate(t, Monthly) == (DayOf(t) - (CivilOf(DayOf(t)).day - 1)) * DAY
  {
    hide CivilOf, Date, DayOf, HourOf, Weekday;
    var n := DayOf(t);
    ClockForms(t);
    DaysSinceMonday(n);
    DateInMonthOf(n, 0, HourOf(t));
    DateInMonthOf(n, 0, 0);
    DateInMonthOf(n, -((if Weekday(n) == 0 then 7 else Weekday(n)) - 1), 0);
    DateInMonthOf(n, 1 - CivilOf(n).day, 0);
  }

  lemma AdvanceForms(t: Instant)
    ensures Advance(t, Hourly) == t + HOUR
    ensures Advance(t, Daily) == t + DAY
    ensures Advance(t, Weekly) == t + 7 * DAY
    ensures IsStart(t, Monthly) ==>
      Advance(t, Monthly) == t + DaysInMonth(CivilOf(DayOf(t)).year, CivilOf(DayOf(t)).month) * DAY
  {
    hide YearStart, MonthStart, CivilOf, YearOf;
    DayNumberOfCivil(DayOf(t));
    var c := CivilOf(DayOf(t));
    if c.day == 1 {
      NextMonthStart(c.year, c.month);
    }
  }

  lemma DayOfMidnight(n: int)
    ensures DayOf(n * DAY) == n && (n * DAY) % DAY == 0
  {
  }

  /** Every day of a month has the same first of the month. */
  lemma SameMonth(n: int, k: int)
    requires CivilOf(n).day == 1
    requires n <= k < n + DaysInMonth(CivilOf(n).year, CivilOf(n).month)
    ensures CivilOf(k) == Civil(CivilOf(n).year, CivilOf(n).month, k - n + 1)
  {
    hide YearStart, MonthStart, CivilOf, YearOf;
    var c := CivilOf(n);
    CivilRoundTrip(Civil(c.year, c.month, k - n + 1));
  }

  lemma FirstOfMonth(n: int)
    ensures CivilOf(n - (CivilOf(n).day - 1)) == Civil(CivilOf(n).year, CivilOf(n).month, 1)
  {
    hide YearStart, MonthStart, CivilOf, YearOf;
    CivilRoundTrip(Civil(CivilOf(n).year, CivilOf(n).month, 1));
  }

  // ---------------------------------------------------------------- buckets tile the time line

  lemma RoundedDown(t: int, unit: int)
    requires unit == HOUR || unit == DAY
    ensures (t - t % unit) % unit == 0
  {
  }

  lemma MondayBefore(n: int)
    ensures Weekday(n - (n + 3) % 7) == 1
  {
  }

  lemma TruncateIsStart(t: Instant, p: Period)
    ensures IsStart(Truncate(t, p), p)
  {
    hide Truncate, CivilOf, DayOf, Weekday;
    TruncateForms(t);
    match p
    case Hourly => RoundedDown(t, HOUR);
    case Daily => RoundedDown(t, DAY);
    case Weekly =>
      DayOfMidnight(DayOf(t) - (DayOf(t) + 3) % 7);
      MondayBefore(DayOf(t));
    case Monthly =>
      FirstOfMonth(DayOf(t));
      DayOfMidnight(DayOf(t) - (CivilOf(DayOf(t)).day - 1));
  }

  /** Main result: every instant lies in the bucket its truncation starts. */
  lemma BucketContains(t: Instant, p: Period)
    ensures Truncate(t, p) <= t < Advance(Truncate(t, p), p)
  {
    hide Truncate, CivilOf, DayNumber, YearStart, MonthStart, Advance;
    TruncateForms(t);
    AdvanceForms(Truncate(t, p));
    TruncateIsStart(t, p);
    if p == Monthly {
      FirstOfMonth(DayOf(t));
      DayOfMidnight(DayOf(t) - (CivilOf(DayOf(t)).day - 1));
    }
  }

  lemma SameMultiple(b: int, t: int, unit: int)
    requires unit == HOUR || unit == DAY
    requires b % unit == 0 && b <= t < b + unit
    ensures t - t % unit == b
  {
  }

  lemma DaysWithin(b: Instant, t: Instant, days: int)
    requires b % DAY == 0 && b <= t < b + days * DAY
    ensures b == DayOf(b) * DAY && DayOf(b) <= DayOf(t) < DayOf(b) + days
  {
  }

  lemma MondayOf(n: int, k: int)
    requires Weekday(n) == 1 && n <= k < n + 7
    ensures k - (k + 3) % 7 == n
  {
  }

  lemma SameWeek(b: Instant, t: Instant)
    requires IsStart(b, Weekly) && b <= t < b + 7 * DAY
    ensures (DayOf(t) - (DayOf(t) + 3) % 7) * DAY == b
  {
    DaysWithin(b, t, 7);
    MondayOf(DayOf(b), DayOf(t));
  }

  /** Main result: a bucket is exactly the instants from its start to its successor. */
  lemma BucketIsInterval(b: Instant, t: Instant, p: Period)
    requires IsStart(b, p)
    ensures Truncate(t, p) == b <==> b <= t < Advance(b, p)
  {
    hide Truncate, CivilOf, DayNumber, YearStart, MonthStart, Advance, DaysInMonth;
    BucketContains(t, p);
    if b <= t < Advance(b, p) {
      TruncateForms(t);
      AdvanceForms(b);
      match p
      case Hourly => SameMultiple(b, t, HOUR);
      case Daily => SameMultiple(b, t, DAY);
      case Weekly => SameWeek(b, t);
      case Monthly =>
        DaysWithin(b, t, DaysInMonth(CivilOf(DayOf(b)).year, CivilOf(DayOf(b)).month));
        SameMonth(DayOf(b), DayOf(t));
    }
  }

  lemma WholeDays(b: Instant, days: int)
    requires b % DAY == 0
    ensures (b + days * DAY) % DAY == 0 && DayOf(b + days * DAY) == DayOf(b) + days
  {
  }

  lemma NextMidnight(b: Instant, p: Period, days: int)
    requires p != Hourly && IsStart(b, p)
    requires p == Daily ==> days == 1
    requires p == Weekly ==> days == 7
    requires p == Monthly ==> days == DaysInMonth(CivilOf(DayOf(b)).year, CivilOf(DayOf(b)).month)
    ensures Advance(b, p) == b + days * DAY && b < Advance(b, p)
    ensures Advance(b, p) % DAY == 0 && DayOf(Advance(b, p)) == DayOf(b) + days
  {
    hide Advance, CivilOf, DayNumber, YearStart, MonthStart, DaysInMonth, DayOf;
    AdvanceForms(b);
    WholeDays(b, days);
  }

  lemma NextMonthIsStart(n: int)
    requires CivilOf(n).day == 1
    ensures CivilOf(n + DaysInMonth(CivilOf(n).year, CivilOf(n).month)).day == 1
  {
    hide CivilOf, DayNumber, YearStart, MonthStart, DaysInMonth;
    var c := CivilOf(n);
    NextMonthStart(c.year, c.month);
    DayNumberOfDate(c.year, c.month, 1);
    if c.month == 12 {
      JanuaryOfNextYear(c.year);
      CivilRoundTrip(Civil(c.year + 1, 1, 1));
    } else {
      CivilRoundTrip(Civil(c.year, c.month + 1, 1));
    }
  }

  lemma AdvanceIsStart(b: Instant, p: Period)
    requires IsStart(b, p)
    ensures IsStart(Advance(b, p), p) && b < Advance(b, p)
  {
    hide Advance, CivilOf, DayNumber, YearStart, MonthStart, DaysInMonth, DayOf;
    AdvanceForms(b);
    match p
    case Hourly => WholeHours(b / HOUR + 1, 0);
    case Daily => NextMidnight(b, p, 1);
    case Weekly =>
      NextMidnight(b, p, 7);
      assert Weekday(DayOf(b) + 7) == Weekday(DayOf(b));
    case Monthly =>
      NextMidnight(b, p, DaysInMonth(CivilOf(DayOf(b)).year, CivilOf(DayOf(b)).month));
      NextMonthIsStart(DayOf(b));
  }

  lemma StartTruncatesToItself(b: Instant, p: Period)
    requires IsStart(b, p)
    ensures Truncate(b, p) == b
  {
    AdvanceIsStart(b, p);
    BucketIsInterval(b, b, p);
  }

  /** Truncation is idempotent and monotone, and the next bucket start is the advanced one. */
  lemma TruncateLaws(s: Instant, t: Instant, p: Period)
    ensures Truncate(Truncate(t, p), p) == Truncate(t, p)
    ensures Truncate(Advance(Truncate(t, p), p), p) == Advance(Truncate(t, p), p)
    ensures s <= t ==> Truncate(s, p) <= Truncate(t, p)
  {
    TruncateIsStart(t, p);
    TruncateIsStart(s, p);
    StartTruncatesToItself(Truncate(t, p), p);
    AdvanceIsStart(Truncate(t, p), p);
    StartTruncatesToItself(Advance(Truncate(t, p), p), p);
    BucketContains(s, p);
    BucketContains(t, p);
    if s <= t && Truncate(t, p) < Truncate(s, p) {
      BucketIsInterval(Truncate(t, p), Truncate(s, p), p);
      StartTruncatesToItself(Truncate(s, p), p);
    }
  }

  /** No bucket start lies strictly between a start and its successor. */
  lemma NoStartBetween(b: Instant, c: Instant, p: Period)
    requires IsStart(b, p) && IsStart(c, p) && b < c
    ensures Advance(b, p) <= c
  {
    if c < Advance(b, p) {
      BucketIsInterval(b, c, p);
      StartTruncatesToItself(c, p);
    }
  }

  lemma WholeSeconds(seconds: int)
    ensures seconds * SECOND / SECOND == seconds
  {
  }

  lemma SecondsOfHours(hours: int)
    ensures UnixSeconds(hours * HOUR) * SECOND == hours * HOUR
  {
    assert hours * HOUR == (hours * 3600) * SECOND;
    WholeSeconds(hours * 3600);
  }

  /** Bucket starts are whole seconds, so Unix time tells them apart. */
  lemma StartsAreWholeSeconds(b: Instant, p: Period)
    requires IsStart(b, p)
    ensures b == UnixSeconds(b) * SECOND
  {
    hide CivilOf, Weekday, DayOf;
    if p == Hourly {
      SecondsOfHours(b / HOUR);
    } else {
      SecondsOfHours(b / DAY * 24);
    }
  }

  // ---------------------------------------------------------------- the buckets by date

  lemma FirstDay()
    ensures DayNumber(1970, 1, 1) == 0
  {
  }

  /** Days and hours count on from the first of the month, from a first known one. */
  lemma DatesCountOn(y: int, m: int, d: int, h: int)
    requires 1 <= m <= 12
    ensures Date(1970, 1, 1, 0) == 0
    ensures Date(y, m, d, h) == Date(y, m, 1, 0) + (d - 1) * 86_400_000_000_000 + h * 3_600_000_000_000
  {
    hide YearStart, MonthStart, DayNumber;
    DayNumberOfDate(y, m, d);
    DayNumberOfDate(y, m, 1);
    FirstDay();
  }

  lemma AtClock(y: int, m: int, d: int, h: int, rest: int)
    requires 0 <= h < 24 && 0 <= rest < HOUR
    ensures var t := Date(y, m, d, h) + rest;
      && DayOf(t) == DayNumber(y, m, d) && t - t % DAY == Date(y, m, d, 0) && t - t % HOUR == Date(y, m, d, h)
  {
    hide DayNumber;
    var clock := h * HOUR + rest;
    assert 0 <= clock < DAY;
    WholeHours(DayNumber(y, m, d) * 24 + h, rest);
  }

  /** Main result: a monthly bucket is a calendar month, from its first midnight for as many
      days as section 5.7 of RFC 3339 gives that month to the first of the next. */
  lemma MonthsAreBuckets(y: int, m: int, d: int, h: int, rest: int)
    requires 1 <= m <= 12 && 0 <= h < 24 && 0 <= rest < 3_600_000_000_000
    ensures
      var february := if y % 4 == 0 && (y % 100 != 0 || y % 400 == 0) then 29 else 28;
      var length := [31, february, 31, 30, 31, 30, 31, 31, 30, 31, 30, 31][m - 1];
      var first := Date(y, m, 1, 0);
      && (1 <= d <= length ==> Truncate(Date(y, m, d, h) + rest, ParsePeriod("month")) == first)
      && Advance(first, ParsePeriod("month")) == first + length * 86_400_000_000_000
      && first + length * 86_400_000_000_000 == if m == 12 then Date(y + 1, 1, 1, 0) else Date(y, m + 1, 1, 0)
  {
    hide CivilOf, DayNumber, YearStart, MonthStart;
    var first, t := Date(y, m, 1, 0), Date(y, m, d, h) + rest;
    AtClock(y, m, 1, 0, 0);
    AtClock(y, m, d, h, rest);
    CivilRoundTrip(Civil(y, m, 1));
    AdvanceForms(first);
    NextMonthStart(y, m);
    if m == 12 {
      JanuaryOfNextYear(y);
    }
    if 1 <= d <= DaysInMonth(y, m) {
      CivilRoundTrip(Civil(y, m, d));
      TruncateForms(t);
      DatesCountOn(y, m, d, 0);
    }
  }

  /** An hourly bucket is an hour of the clock and a daily one a calendar day. */
  lemma HoursAndDaysAreBuckets(y: int, m: int, d: int, h: int, rest: int)
    requires 0 <= h < 24 && 0 <= rest < 3_600_000_000_000
    ensures var t := Date(y, m, d, h) + rest;
      && Truncate(t, ParsePeriod("hour")) == Date(y, m, d, h)
      && Advance(t, ParsePeriod("hour")) == t + 3_600_000_000_000
      && Truncate(t, ParsePeriod("day")) == Date(y, m, d, 0)
      && Advance(t, ParsePeriod("day")) == t + 86_400_000_000_000
  {
    hide Truncate, Advance, Date;
    var t := Date(y, m, d, h) + rest;
    AtClock(y, m, d, h, rest);
    TruncateForms(t);
    AdvanceForms(t);
  }

  lemma WholeWeeks(weeks: int)
    ensures ((7 * weeks + 4) * DAY - 4 * DAY) % (7 * DAY) == 0
  {
    assert (7 * weeks + 4) * DAY - 4 * DAY == weeks * (7 * DAY);
  }

  /** Weekly buckets are the seven days from Monday, as 5 January 1970 was; and a text that
      names no period counts as a day. */
  lemma WeeksAreBuckets(t: Instant, period: string)
    ensures var b := Truncate(t, ParsePeriod("week"));
      && (b - Date(1970, 1, 5, 0)) % (7 * 86_400_000_000_000) == 0
      && b <= t < b + 7 * 86_400_000_000_000 == Advance(b, ParsePeriod("week"))
    ensures period != "hour" && period != "week" && period != "month" ==> ParsePeriod(period) == ParsePeriod("day")
  {
    hide Truncate, Advance, Date, CivilOf, Weekday;
    var n := DayOf(t);
    TruncateForms(t);
    BucketContains(t, Weekly);
    AdvanceForms(Truncate(t, Weekly));
    DatesCountOn(1970, 1, 5, 0);
    var weeks := (n + 3) / 7 - 1;
    assert n - (n + 3) % 7 == 7 * weeks + 4;
    WholeWeeks(weeks);
  }

  /** Adding days moves an instant by whole days, whatever months they cross. */
  lemma AddDays(t: Instant, days: int)
    ensures AddDate(t, 0, days) == t + days * 86_400_000_000_000
  {
    hide CivilOf, DayNumber, YearStart, MonthStart, DaysInMonth;
    var c := CivilOf(DayOf(t));
    DayNumberOfDate(c.year, c.month, c.day + days);
    ClockForms(t);
  }
}
