// The Gregorian calendar as the host's Date counts it, and the week a date belongs to: `isoWeekKey` in
// src/activity-patterns.js (section 4.1.4 of ISO 8601:2004).

module Calendar {

  const DAY_MS: int := 86_400_000

  datatype Date = Date(year: int, month: int, day: int)

  predicate Leap(y: int) {
    y % 4 == 0 && (y % 100 != 0 || y % 400 == 0)
  }

  function DaysIn(y: int, m: int): (n: int)
    requires 1 <= m <= 12
    ensures 28 <= n <= 31
  {
    if m == 2 then (if Leap(y) then 29 else 28) else if m == 4 || m == 6 || m == 9 || m == 11 then 30 else 31
  }

  predicate Valid(d: Date) {
    1 <= d.month <= 12 && 1 <= d.day <= DaysIn(d.year, d.month)
  }

  function DaysBeforeYear(y: int): (n: int) {
    365 * (y - 1) + (y - 1) / 4 - (y - 1) / 100 + (y - 1) / 400
  }

  function DaysBeforeMonth(y: int, m: int): (n: int)
    requires 1 <= m <= 12
    decreases m
  {
    if m == 1 then 0 else DaysBeforeMonth(y, m - 1) + DaysIn(y, m - 1)
  }

  const EPOCH: int := DaysBeforeYear(1970)

  // `Date.UTC`, which carries a day past the end of its month into the next.
  function Utc(y: int, m: int, d: int): (t: int)
    requires 1 <= m <= 12
  {
    (DaysBeforeYear(y) + DaysBeforeMonth(y, m) + d - 1 - EPOCH) * DAY_MS
  }

  function NextDate(d: Date): (r: Date)
    requires Valid(d)
    ensures Valid(r)
  {
    if d.day < DaysIn(d.year, d.month) then d.(day := d.day + 1)
    else if d.month < 12 then Date(d.year, d.month + 1, 1)
    else Date(d.year + 1, 1, 1)
  }

  lemma {:induction false} YearLength(y: int)
    ensures DaysBeforeYear(y + 1) == DaysBeforeYear(y) + (if Leap(y) then 366 else 365)
  {
    Crossing(y, 4);
    Crossing(y, 100);
    Crossing(y, 400);
    MultipleOf(y);
  }

  lemma {:induction false} Crossing(y: int, n: int)
    requires n > 1
    ensures y / n - (y - 1) / n == if y % n == 0 then 1 else 0
  {
    var q, r := y / n, y % n;
    assert y == q * n + r;
    if r == 0 {
      assert y - 1 == (q - 1) * n + (n - 1);
      Quotient(y - 1, n, q - 1, n - 1);
    } else {
      Quotient(y - 1, n, q, r - 1);
    }
  }

  lemma {:induction false} Quotient(x: int, n: int, q: int, r: int)
    requires n > 0 && x == q * n + r && 0 <= r < n
    ensures x / n == q
  {
    var d := x / n - q;
    assert x == (x / n) * n + x % n;
    assert d * n == r - x % n;
    assert d >= 1 ==> d * n >= n;
    assert d <= -1 ==> d * n <= -n;
  }

  lemma {:induction false} MultipleOf(y: int)
    ensures y % 100 == 0 ==> y % 4 == 0
    ensures y % 400 == 0 ==> y % 100 == 0
  {
  }

  lemma {:induction false} YearOfMonths(y: int)
    ensures DaysBeforeMonth(y, 12) + 31 == if Leap(y) then 366 else 365
  {
    assert DaysBeforeMonth(y, 3) == 31 + DaysIn(y, 2);
    assert DaysBeforeMonth(y, 6) == DaysBeforeMonth(y, 3) + 92;
    assert DaysBeforeMonth(y, 9) == DaysBeforeMonth(y, 6) + 92;
    assert DaysBeforeMonth(y, 12) == DaysBeforeMonth(y, 9) + 91;
  }

  // The next calendar day is one day later, over the ends of months, years and Februaries.
  lemma {:induction false} NextDateIsNextDay(d: Date)
    requires Valid(d)
    ensures Utc(NextDate(d).year, NextDate(d).month, NextDate(d).day) == Utc(d.year, d.month, d.day + 1)
    ensures Utc(d.year, d.month, d.day + 1) == Utc(d.year, d.month, d.day) + DAY_MS
  {
    if d.day == DaysIn(d.year, d.month) && d.month == 12 {
      YearLength(d.year);
      YearOfMonths(d.year);
    }
  }

  // The months have their lengths, a leap year is one in four but three centuries in four, and the first day of 1970
  // is where time is counted from.
  lemma {:induction false} MonthsAndEpoch(y: int, m: int)
    requires 1 <= m <= 12
    ensures DaysIn(y, m)
         == [31, if y % 400 == 0 || (y % 4 == 0 && y % 100 != 0) then 29 else 28, 31, 30, 31, 30, 31, 31, 30, 31, 30, 31][m - 1]
    ensures Utc(1970, 1, 1) == 0
  {
  }

  // ---- weeks --------------------------------------------------------------------------------

  // The day number of 1 January, counted from the epoch.
  function YearStart(y: int): (n: int) {
    DaysBeforeYear(y) - EPOCH
  }

  lemma {:induction false} YearStartGrows(y: int)
    ensures YearStart(y) + 365 <= YearStart(y + 1) <= YearStart(y) + 366
  {
    YearLength(y);
  }

  function YearUp(n: int, y: int): (r: int)
    requires n >= YearStart(y)
    ensures YearStart(r) <= n < YearStart(r + 1)
    decreases n - YearStart(y)
  {
    YearStartGrows(y);
    if n < YearStart(y + 1) then y else YearUp(n, y + 1)
  }

  function YearDown(n: int, y: int): (r: int)
    requires n < YearStart(y + 1)
    ensures YearStart(r) <= n < YearStart(r + 1)
    decreases YearStart(y + 1) - n
  {
    YearStartGrows(y);
    if n >= YearStart(y) then y else YearDown(n, y - 1)
  }

  // The year of a day number, as `getUTCFullYear` gives it.
  function YearOf(n: int): (y: int)
    ensures YearStart(y) <= n < YearStart(y + 1)
  {
    if n >= YearStart(1970) then YearUp(n, 1970) else YearDown(n, 1969)
  }

  // Monday is 1 and Sunday 7; the epoch was a Thursday.
  function Weekday(n: int): (w: int)
    ensures 1 <= w <= 7
  {
    var day := (n + 4) % 7;
    if day == 0 then 7 else day
  }

  function Monday(n: int): (m: int) {
    n + 1 - Weekday(n)
  }

  datatype WeekKey = WeekKey(year: int, week: int)

  // The week is named by its Thursday: the year the Thursday is in, and how many Thursdays of that year there are up
  // to it.
  function IsoWeekKey(n: int): (k: WeekKey) {
    KeyOfThursday(n + 4 - Weekday(n))
  }

  function KeyOfThursday(thursday: int): (k: WeekKey) {
    var year := YearOf(thursday);
    WeekKey(year, (thursday - YearStart(year)) / 7 + 1)
  }

  // The first day of 1970 was a Thursday, and the days of the week follow each other.
  lemma {:induction false} WeekdaysFollow(n: int)
    ensures Weekday(0) == 4 && YearStart(1970) == 0
    ensures Weekday(n + 1) == if Weekday(n) == 7 then 1 else Weekday(n) + 1
  {
  }

  lemma {:induction false} MondayIsMonday(n: int)
    ensures Weekday(Monday(n)) == 1 && Monday(n) <= n < Monday(n) + 7
  {
    var w := Weekday(n);
    var q := (n + 4) / 7;
    assert n + 4 == 7 * q + (n + 4) % 7;
    assert Monday(n) + 4 == 7 * (if w == 7 then q - 1 else q) + 1;
  }

  lemma {:induction false} MondaysApart(m: int, k: int)
    requires Weekday(m) == 1 && Weekday(k) == 1
    ensures (m - k) % 7 == 0
  {
    var p, q := (m + 4) / 7, (k + 4) / 7;
    assert m + 4 == 7 * p + 1 && k + 4 == 7 * q + 1;
    assert m - k == 7 * (p - q);
  }

  lemma {:induction false} SameKeySameThursday(a: int, b: int)
    requires KeyOfThursday(a) == KeyOfThursday(b) && (a - b) % 7 == 0
    ensures a == b
  {
    var start := YearStart(YearOf(a));
    assert (a - start) - (b - start) == a - b;
    SameSeventh(a - start, b - start);
  }

  // Two days have the same key exactly when they are in the same week from Monday to Sunday, also across the turn of
  // a year; and weeks are numbered from 1 to 53.
  lemma {:induction false} SameKeyIffSameWeek(n: int, k: int)
    ensures IsoWeekKey(n) == IsoWeekKey(k) <==> Monday(n) == Monday(k)
    ensures 1 <= IsoWeekKey(n).week <= 53
  {
    var a, b := Monday(n) + 3, Monday(k) + 3;
    assert IsoWeekKey(n) == KeyOfThursday(a) && IsoWeekKey(k) == KeyOfThursday(b);
    MondayIsMonday(n);
    MondayIsMonday(k);
    MondaysApart(Monday(n), Monday(k));
    YearStartGrows(YearOf(a));
    if IsoWeekKey(n) == IsoWeekKey(k) {
      SameKeySameThursday(a, b);
    }
  }

  lemma {:induction false} SameSeventh(a: int, b: int)
    requires a / 7 == b / 7 && (a - b) % 7 == 0
    ensures a == b
  {
    assert a == 7 * (a / 7) + a % 7 && b == 7 * (b / 7) + b % 7;
    var q := (a - b) / 7;
    assert a - b == 7 * q;
  }

  // Week 1 is the week with the year's first Thursday: the week that 4 January is in.
  lemma {:induction false} FourthOfJanuaryIsInWeekOne(y: int)
    ensures IsoWeekKey(YearStart(y) + 3) == WeekKey(y, 1)
  {
    var n := YearStart(y) + 3;
    var thursday := n + 4 - Weekday(n);
    assert IsoWeekKey(n) == KeyOfThursday(thursday);
    YearStartGrows(y);
    assert YearStart(y) <= thursday < YearStart(y) + 7;
    OneYear(thursday, YearOf(thursday), y);
  }

  lemma {:induction false} OneYear(n: int, a: int, b: int)
    requires YearStart(a) <= n < YearStart(a + 1) && YearStart(b) <= n < YearStart(b + 1)
    ensures a == b
  {
    if a < b {
      YearsGrow(a + 1, b);
    } else if b < a {
      YearsGrow(b + 1, a);
    }
  }

  lemma {:induction false} YearsGrow(a: int, b: int)
    requires a <= b
    ensures YearStart(a) <= YearStart(b)
    decreases b - a
  {
    if a < b {
      YearStartGrows(a);
      YearsGrow(a + 1, b);
    }
  }
}
