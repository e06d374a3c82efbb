/**
 * Calendar dates as Python's `datetime` sees them: the proleptic Gregorian
 * calendar, day ordinals with 0001-01-01 as day 1, `weekday()` with Monday
 * as 0, `strftime("%d-%b-%Y")`, `strptime(..., "%d-%b-%Y")` and the
 * `last_weekday_of_month` helper of the position monitor.
 */
module Dates {
  import opened Wrappers
  import opened Text

  datatype Date = Date(year: int, month: int, day: int)

  predicate IsLeap(y: int) {
    y % 4 == 0 && (y % 100 != 0 || y % 400 == 0)
  }

  function DaysInMonth(y: int, m: int): (n: int)
    requires 1 <= m <= 12
    ensures 28 <= n <= 31
  {
    if m == 2 then (if IsLeap(y) then 29 else 28)
    else if m == 4 || m == 6 || m == 9 || m == 11 then 30
    else 31
  }

  /** A date `datetime` accepts (the upper year bound 9999 is not modelled). */
  predicate Valid(d: Date) {
    d.year >= 1 && 1 <= d.month <= 12 && 1 <= d.day <= DaysInMonth(d.year, d.month)
  }

  function DaysBeforeYear(y: int): int
    requires y >= 1
  {
    var p := y - 1;
    p * 365 + p / 4 - p / 100 + p / 400
  }

  function DaysBeforeMonth(y: int, m: int): int
    requires 1 <= m <= 12
  {
    var common :=
      if m == 1 then 0 else if m == 2 then 31 else if m == 3 then 59
      else if m == 4 then 90 else if m == 5 then 120 else if m == 6 then 151
      else if m == 7 then 181 else if m == 8 then 212 else if m == 9 then 243
      else if m == 10 then 273 else if m == 11 then 304 else 334;
    common + (if m > 2 && IsLeap(y) then 1 else 0)
  }

  /** `date.toordinal()`: 0001-01-01 is day 1. */
  function Ordinal(d: Date): int
    requires d.year >= 1 && 1 <= d.month <= 12
  {
    DaysBeforeYear(d.year) + DaysBeforeMonth(d.year, d.month) + d.day
  }

  /** `date.weekday()`: 0 is Monday, 6 is Sunday. */
  function Weekday(d: Date): (w: int)
    requires d.year >= 1 && 1 <= d.month <= 12
    ensures 0 <= w < 7
  {
    (Ordinal(d) + 6) % 7
  }

  /** `(a - b).days` for two dates. */
  function DaysBetween(a: Date, b: Date): int
    requires Valid(a) && Valid(b)
  {
    Ordinal(a) - Ordinal(b)
  }

  lemma YearLength(y: int)
    requires y >= 1
    ensures DaysBeforeYear(y + 1) == DaysBeforeYear(y) + (if IsLeap(y) then 366 else 365)
  {
    var p := y - 1;
    var a, b, c := (if y % 4 == 0 then 1 else 0), (if y % 100 == 0 then 1 else 0), (if y % 400 == 0 then 1 else 0);
    assert y / 4 == p / 4 + a;
    assert y / 100 == p / 100 + b;
    assert y / 400 == p / 400 + c;
    assert DaysBeforeYear(y + 1) == DaysBeforeYear(y) + 365 + a - b + c;
    DivisibleDown(y);
  }

  /** A multiple of 400 is a multiple of 100, and a multiple of 100 is a multiple of 4. */
  lemma DivisibleDown(y: int)
    ensures y % 400 == 0 ==> y % 100 == 0
    ensures y % 100 == 0 ==> y % 4 == 0
  {
    if y % 400 == 0 {
      var q := y / 400;
      assert y == 400 * q;
      assert y / 100 == 4 * q;
    }
    if y % 100 == 0 {
      var q := y / 100;
      assert y == 100 * q;
      assert y / 4 == 25 * q;
    }
  }

  /** `d + timedelta(days=1)`: the next valid date, one ordinal later. */
  function NextDay(d: Date): (r: Date)
    requires Valid(d)
    ensures Valid(r) && Ordinal(r) == Ordinal(d) + 1
  {
    if d.day < DaysInMonth(d.year, d.month) then Date(d.year, d.month, d.day + 1)
    else if d.month < 12 then Date(d.year, d.month + 1, 1)
    else YearLength(d.year); Date(d.year + 1, 1, 1)
  }

  /** `d + timedelta(days=n)`: a valid date exactly `n` ordinals later. */
  function AddDays(d: Date, n: nat): (r: Date)
    requires Valid(d)
    ensures Valid(r) && Ordinal(r) == Ordinal(d) + n
    decreases n
  {
    if n == 0 then d else AddDays(NextDay(d), n - 1)
  }

  /**
   * Stepping back `back := (x % 7 - wd) % 7` days from a day with weekday
   * number `x % 7` reaches weekday `wd`, and no smaller step does.
   */
  lemma StepBackToWeekday(x: int, wd: int, j: int)
    requires 0 <= wd < 7
    ensures 0 <= (x % 7 - wd) % 7 < 7
    ensures (x - (x % 7 - wd) % 7) % 7 == wd
    ensures 0 <= j < (x % 7 - wd) % 7 ==> (x - j) % 7 != wd
  {
    var q, r := x / 7, x % 7;
    assert x == 7 * q + r;
    if r >= wd {
      assert (r - wd) % 7 == r - wd;
      assert x - (r - wd) == 7 * q + wd;
      if 0 <= j < r - wd {
        assert x - j == 7 * q + (r - j);
      }
    } else {
      assert (r - wd) % 7 == r - wd + 7;
      assert x - (r - wd + 7) == 7 * (q - 1) + wd;
      if 0 <= j < r - wd + 7 {
        if j <= r {
          assert x - j == 7 * q + (r - j);
        } else {
          assert x - j == 7 * (q - 1) + (r - j + 7);
        }
      }
    }
  }

  /** Day of month of the last weekday `wd` of month `m` in year `y`, in closed form. */
  function LastWeekdayDay(y: int, m: int, wd: int): (dd: int)
    requires y >= 1 && 1 <= m <= 12 && 0 <= wd < 7
    ensures DaysInMonth(y, m) - 7 < dd <= DaysInMonth(y, m)
    ensures Weekday(Date(y, m, dd)) == wd
    ensures IsLastWeekdayOf(Date(y, m, dd), y, m, wd)
  {
    var n := DaysInMonth(y, m);
    var c := DaysBeforeYear(y) + DaysBeforeMonth(y, m) + 6;
    StepBackToWeekday(c + n, wd, 0);
    n - ((c + n) % 7 - wd) % 7
  }

  /** No day after `LastWeekdayDay` in the same month falls on that weekday. */
  lemma LastWeekdayDayIsLast(y: int, m: int, wd: int, k: int)
    requires y >= 1 && 1 <= m <= 12 && 0 <= wd < 7
    requires LastWeekdayDay(y, m, wd) < k <= DaysInMonth(y, m)
    ensures Weekday(Date(y, m, k)) != wd
  {
    var n := DaysInMonth(y, m);
    var c := DaysBeforeYear(y) + DaysBeforeMonth(y, m) + 6;
    StepBackToWeekday(c + n, wd, n - k);
    assert c + k == (c + n) - (n - k);
  }

  /** `d` is the last day of month `m`, year `y`, falling on weekday `wd`. */
  predicate IsLastWeekdayOf(d: Date, y: int, m: int, wd: int)
    requires y >= 1 && 1 <= m <= 12
  {
    Valid(d) && d.year == y && d.month == m && Weekday(d) == wd
    && d.day > DaysInMonth(y, m) - 7
  }

  /** A month has only one last occurrence of each weekday. */
  lemma LastWeekdayUnique(d1: Date, d2: Date, y: int, m: int, wd: int)
    requires y >= 1 && 1 <= m <= 12
    requires IsLastWeekdayOf(d1, y, m, wd) && IsLastWeekdayOf(d2, y, m, wd)
    ensures d1 == d2
  {
    var c := DaysBeforeYear(y) + DaysBeforeMonth(y, m) + 6;
    assert Weekday(d1) == (c + d1.day) % 7 && Weekday(d2) == (c + d2.day) % 7;
    SameResidueClose(c, d1.day, d2.day);
  }

  /** Two numbers less than a week apart with the same weekday residue are equal. */
  lemma SameResidueClose(c: int, x: int, y: int)
    requires (c + x) % 7 == (c + y) % 7 && -7 < x - y < 7
    ensures x == y
  {
    var q1, q2 := (c + x) / 7, (c + y) / 7;
    assert c + x == 7 * q1 + (c + x) % 7;
    assert c + y == 7 * q2 + (c + y) % 7;
    assert x - y == 7 * (q1 - q2);
  }

  /** No day of the month after `day` falls on weekday `wd`. */
  predicate NoWeekdayAfter(y: int, m: int, wd: int, day: int)
    requires y >= 1 && 1 <= m <= 12
  {
    forall k | day < k <= DaysInMonth(y, m) :: Weekday(Date(y, m, k)) != wd
  }

  /**
   * `last_weekday_of_month(year, month, weekday)`: start at the last day of the
   * month and step back one day until the weekday matches.
   */
  method LastWeekdayOfMonth(year: int, month: int, weekday: int) returns (d: Date)
    requires year >= 1 && 1 <= month <= 12 && 0 <= weekday < 7
    ensures IsLastWeekdayOf(d, year, month, weekday)
    ensures forall k | d.day < k <= DaysInMonth(year, month) :: Weekday(Date(year, month, k)) != weekday
    ensures d == Date(year, month, LastWeekdayDay(year, month, weekday))
  {
    d := Date(year, month, DaysInMonth(year, month));
    while Weekday(d) != weekday
      invariant d.year == year && d.month == month
      invariant LastWeekdayDay(year, month, weekday) <= d.day <= DaysInMonth(year, month)
      invariant NoWeekdayAfter(year, month, weekday, d.day)
      decreases d.day
    {
      StepBack(year, month, weekday, d.day);
      d := Date(year, month, d.day - 1);
    }
    StopAtWeekday(year, month, weekday, d.day);
  }

  /** A day that is not the weekday sought lies after the last one, and stepping back keeps the loop's facts. */
  lemma StepBack(y: int, m: int, wd: int, day: int)
    requires y >= 1 && 1 <= m <= 12 && 0 <= wd < 7
    requires LastWeekdayDay(y, m, wd) <= day <= DaysInMonth(y, m)
    requires NoWeekdayAfter(y, m, wd, day) && Weekday(Date(y, m, day)) != wd
    ensures LastWeekdayDay(y, m, wd) <= day - 1
    ensures NoWeekdayAfter(y, m, wd, day - 1)
  {
  }

  /** The loop stops exactly at the last weekday of the month. */
  lemma StopAtWeekday(y: int, m: int, wd: int, day: int)
    requires y >= 1 && 1 <= m <= 12 && 0 <= wd < 7
    requires LastWeekdayDay(y, m, wd) <= day <= DaysInMonth(y, m)
    requires NoWeekdayAfter(y, m, wd, day) && Weekday(Date(y, m, day)) == wd
    ensures day == LastWeekdayDay(y, m, wd)
  {
    if day > LastWeekdayDay(y, m, wd) {
      LastWeekdayDayIsLast(y, m, wd, day);
    }
  }

  /** `strftime("%b")`: English three-letter month abbreviation. */
  function MonthAbbrev(m: int): (s: string)
    requires 1 <= m <= 12
    ensures |s| == 3
  {
    if m == 1 then "Jan" else if m == 2 then "Feb" else if m == 3 then "Mar"
    else if m == 4 then "Apr" else if m == 5 then "May" else if m == 6 then "Jun"
    else if m == 7 then "Jul" else if m == 8 then "Aug" else if m == 9 then "Sep"
    else if m == 10 then "Oct" else if m == 11 then "Nov" else "Dec"
  }

  /**
   * `strftime("%b").upper()`: the abbreviation in capitals, as trading symbols carry it.
   * The capitals are spelled out as literals rather than computed with `Upper` from
   * `MonthAbbrev`, which keeps the proof of `MonthNumberOfName` small; the lemma
   * `MonthAbbrevUpper` proves that the two tables agree.
   */
  function MonthName(m: int): (s: string)
    requires 1 <= m <= 12
    ensures |s| == 3
  {
    if m == 1 then "JAN" else if m == 2 then "FEB" else if m == 3 then "MAR"
    else if m == 4 then "APR" else if m == 5 then "MAY" else if m == 6 then "JUN"
    else if m == 7 then "JUL" else if m == 8 then "AUG" else if m == 9 then "SEP"
    else if m == 10 then "OCT" else if m == 11 then "NOV" else "DEC"
  }

  /** The month whose upper-case abbreviation is `u`. */
  function MonthNumber(u: string): (r: Option<int>)
    ensures r.Some? ==> 1 <= r.value <= 12 && u == MonthName(r.value)
  {
    if u == "JAN" then Some(1) else if u == "FEB" then Some(2) else if u == "MAR" then Some(3)
    else if u == "APR" then Some(4) else if u == "MAY" then Some(5) else if u == "JUN" then Some(6)
    else if u == "JUL" then Some(7) else if u == "AUG" then Some(8) else if u == "SEP" then Some(9)
    else if u == "OCT" then Some(10) else if u == "NOV" then Some(11) else if u == "DEC" then Some(12)
    else None
  }

  /** Every month's upper-case abbreviation reads back as that month. */
  lemma MonthNumberOfName(m: int)
    requires 1 <= m <= 12
    ensures MonthNumber(MonthName(m)) == Some(m)
  {
    if m == 1 {} else if m == 2 {} else if m == 3 {} else if m == 4 {}
    else if m == 5 {} else if m == 6 {} else if m == 7 {} else if m == 8 {}
    else if m == 9 {} else if m == 10 {} else if m == 11 {} else {}
  }

  /** `strptime(s, "%b").month`: the month whose abbreviation matches `s`, ignoring case. */
  function MonthFromAbbrev(s: string): (r: Option<int>)
    ensures r.Some? ==> 1 <= r.value <= 12 && Upper(s) == MonthName(r.value)
  {
    MonthNumber(Upper(s))
  }

  /** Both the `%b` spelling and its upper-case form read back as their month. */
  lemma MonthFromAbbrevInverse(m: int)
    requires 1 <= m <= 12
    ensures MonthFromAbbrev(MonthAbbrev(m)) == Some(m)
    ensures MonthFromAbbrev(MonthName(m)) == Some(m)
  {
    MonthAbbrevUpper(m);
    MonthFromUpper(MonthAbbrev(m), m);
    MonthFromUpper(MonthName(m), m);
  }

  /** Capitalising the `%b` abbreviation gives the month's name, which capitalising keeps. */
  lemma MonthAbbrevUpper(m: int)
    requires 1 <= m <= 12
    ensures Upper(MonthAbbrev(m)) == MonthName(m)
    ensures Upper(MonthName(m)) == MonthName(m)
  {
    var a, n := MonthAbbrev(m), MonthName(m);
    assert Upper(a) == [UpperChar(a[0]), UpperChar(a[1]), UpperChar(a[2])];
    assert Upper(n) == [UpperChar(n[0]), UpperChar(n[1]), UpperChar(n[2])];
    if m == 1 {} else if m == 2 {} else if m == 3 {} else if m == 4 {}
    else if m == 5 {} else if m == 6 {} else if m == 7 {} else if m == 8 {}
    else if m == 9 {} else if m == 10 {} else if m == 11 {} else {}
  }

  /** Any spelling whose capitals are a month's name reads back as that month. */
  lemma MonthFromUpper(s: string, m: int)
    requires 1 <= m <= 12 && Upper(s) == MonthName(m)
    ensures MonthFromAbbrev(s) == Some(m)
  {
    MonthNumberOfName(m);
  }

  /** `d.strftime("%d-%b-%Y")`, e.g. "31-Dec-2024". */
  function FormatDate(d: Date): (s: string)
    requires Valid(d)
    ensures |s| == 7 + |NatToString(d.year)|
    ensures s[2] == '-' && s[6] == '-' && s[3..6] == MonthAbbrev(d.month)
  {
    Pad2(d.day) + "-" + MonthAbbrev(d.month) + "-" + NatToString(d.year)
  }

  /**
   * `datetime.strptime(s, "%d-%b-%Y")`: a day field of two digits 01-31, or of
   * one digit 1-9 (optionally after a space); a month abbreviation in any case;
   * exactly four year digits; nothing after them; and a day that exists in that
   * month. Every other string raises `ValueError`, modelled as `None`.
   */
  function ParseDate(s: string): (r: Option<Date>)
    ensures r.Some? ==> Valid(r.value)
    ensures r.Some? ==> |s| == 10 || |s| == 11
  {
    var dayLen :=
      if |s| >= 3 && IsDigit(s[0]) && IsDigit(s[1]) && s[2] == '-' then 2
      else if |s| >= 2 && IsDigit(s[0]) && s[0] != '0' && s[1] == '-' then 1
      else if |s| >= 3 && s[0] == ' ' && IsDigit(s[1]) && s[1] != '0' && s[2] == '-' then 2
      else 0;
    if dayLen == 0 then None
    else
      var dayText := if s[0] == ' ' then s[1..2] else s[..dayLen];
      var day := DigitsValue(dayText);
      var rest := s[dayLen + 1..];
      if !(1 <= day <= 31) || |rest| != 8 || rest[3] != '-' || !AllDigits(rest[4..]) then None
      else
        match MonthFromAbbrev(rest[..3])
        case None => None
        case Some(month) =>
          var year := DigitsValue(rest[4..]);
          if year >= 1 && day <= DaysInMonth(year, month) then Some(Date(year, month, day))
          else None
  }

  lemma NatToStringFourDigits(n: nat)
    requires 1000 <= n <= 9999
    ensures |NatToString(n)| == 4
  {
    assert |NatToString(n / 1000)| == 1;
    assert |NatToString(n / 100)| == 2;
    assert |NatToString(n / 10)| == 3;
  }

  /** Printing a date with `%d-%b-%Y` and parsing it back gives the same date. */
  lemma FormatDateRoundTrip(d: Date)
    requires Valid(d) && 1000 <= d.year <= 9999
    ensures ParseDate(FormatDate(d)) == Some(d)
  {
    var s := FormatDate(d);
    NatToStringFourDigits(d.year);
    NatToStringValue(d.year);
    Pad2RoundTrip(d.day);
    assert s[..2] == Pad2(d.day);
    var rest := s[3..];
    assert rest == MonthAbbrev(d.month) + "-" + NatToString(d.year);
    assert rest[..3] == MonthAbbrev(d.month);
    assert rest[4..] == NatToString(d.year);
    assert DigitsValue(s[..2]) == d.day by {
      assert ParseInt(Pad2(d.day)) == Some(DigitsValue(Pad2(d.day)));
    }
    MonthFromAbbrevInverse(d.month);
  }
}
