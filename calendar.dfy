/**
 * UTC calendar arithmetic behind the board's week identity: instants are milliseconds since
 * 1970-01-01T00:00:00Z, days are whole days since 1970-01-01, dates are proleptic Gregorian,
 * and `IsoDate` renders the date part of `Date.prototype.toISOString`.
 */
module Calendar {
  import opened Options

  /** An instant, in milliseconds since the epoch (what `new Date()` holds). */
  type Timestamp = int

  const MS_PER_DAY: int := 86400000

  /** The largest distance from the epoch that a JavaScript `Date` can hold. */
  const MAX_TIME: int := 8640000000000000

  /** The UTC day containing instant `t`: the floor of `t` over one day, also for instants before 1970. */
  function DayOf(t: Timestamp): (day: int)
    ensures day * MS_PER_DAY <= t < day * MS_PER_DAY + MS_PER_DAY
  {
    t / MS_PER_DAY
  }

  /** `getUTCDay`: 0 is Sunday, 1 Monday, ..., 6 Saturday; 1970-01-01 was a Thursday. */
  function Weekday(day: int): (w: int)
    ensures 0 <= w < 7
  {
    (day + 4) % 7
  }

  /** Consecutive days have consecutive weekdays. */
  lemma WeekdayAdd(day: int, k: int)
    requires 0 <= k
    ensures Weekday(day + k) == (Weekday(day) + k) % 7
  {
    var q := (day + 4) / 7;
    assert day + 4 == 7 * q + Weekday(day);
    assert day + k + 4 == 7 * q + (Weekday(day) + k);
  }

  /**
   * The Monday of the week (Monday to Sunday) that holds `day`: a Sunday steps back six days,
   * any other day steps back weekday - 1 days.
   */
  function MondayOf(day: int): (monday: int)
    ensures Weekday(monday) == 1
    ensures monday <= day <= monday + 6
  {
    var wd := Weekday(day);
    var monday := day - (if wd == 0 then 6 else wd - 1);
    WeekdayAdd(monday, day - monday);
    monday
  }

  /** The Monday found by `MondayOf` is the only Monday at most six days before `day`. */
  lemma MondayUnique(m: int, day: int)
    requires Weekday(m) == 1 && m <= day <= m + 6
    ensures MondayOf(day) == m
  {
    var m' := MondayOf(day);
    if m < m' {
      WeekdayAdd(m, m' - m);
    } else if m' < m {
      WeekdayAdd(m', m - m');
    }
  }

  /** Every day from a Monday to the following Sunday belongs to the week of that Monday. */
  lemma SameWeek(day1: int, day2: int)
    requires MondayOf(day1) <= day2 <= MondayOf(day1) + 6
    ensures MondayOf(day2) == MondayOf(day1)
  {
    MondayUnique(MondayOf(day1), day2);
  }

  // ---------------------------------------------------------------------------------------------
  // Civil dates

  datatype Date = Date(year: int, month: int, day: int)

  predicate IsLeapYear(y: int) {
    y % 4 == 0 && (y % 100 != 0 || y % 400 == 0)
  }

  function DaysInYear(y: int): int {
    if IsLeapYear(y) then 366 else 365
  }

  function DaysInMonth(y: int, m: int): int
    requires 1 <= m <= 12
  {
    if m == 2 then (if IsLeapYear(y) then 29 else 28)
    else if m == 4 || m == 6 || m == 9 || m == 11 then 30
    else 31
  }

  predicate ValidDate(dt: Date) {
    1 <= dt.month <= 12 && 1 <= dt.day <= DaysInMonth(dt.year, dt.month)
  }

  /** The number of days from 1970-01-01 to the first day of year `y` (negative before 1970). */
  function YearStart(y: int): int
    decreases if y >= 1970 then y - 1970 else 1970 - y
  {
    if y == 1970 then 0
    else if y > 1970 then YearStart(y - 1) + DaysInYear(y - 1)
    else YearStart(y + 1) - DaysInYear(y)
  }

  lemma YearStartStep(y: int)
    ensures YearStart(y + 1) == YearStart(y) + DaysInYear(y)
  {
  }

  /** Later years start later. */
  lemma {:induction false} YearStartMonotone(a: int, b: int)
    requires a < b
    ensures YearStart(a) + DaysInYear(a) <= YearStart(b)
    decreases b - a
  {
    YearStartStep(a);
    if a + 1 < b {
      YearStartMonotone(a + 1, b);
    }
  }

  /** From 1970 on, a year starts at least 365 days per elapsed year after the epoch. */
  lemma {:induction false} YearStartAfterEpoch(y: int)
    requires y >= 1970
    ensures YearStart(y) >= 365 * (y - 1970)
    decreases y - 1970
  {
    if y > 1970 {
      YearStartAfterEpoch(y - 1);
    }
  }

  /** Before 1970, a year starts at least 365 days per year before the epoch. */
  lemma {:induction false} YearStartBeforeEpoch(y: int)
    requires y <= 1970
    ensures YearStart(y) <= 365 * (y - 1970)
    decreases 1970 - y
  {
    if y < 1970 {
      YearStartBeforeEpoch(y + 1);
    }
  }

  /** The number of days of year `y` before the first day of month `m` (13 stands for the year's end). */
  function MonthStart(y: int, m: int): int
    requires 1 <= m <= 13
  {
    [0, 31, 59, 90, 120, 151, 181, 212, 243, 273, 304, 334, 365][m - 1]
    + (if m > 2 && IsLeapYear(y) then 1 else 0)
  }

  lemma MonthStartStep(y: int, m: int)
    requires 1 <= m <= 12
    ensures MonthStart(y, m + 1) == MonthStart(y, m) + DaysInMonth(y, m)
    ensures MonthStart(y, 13) == DaysInYear(y)
  {
  }

  /** Later months start later. */
  lemma {:induction false} MonthStartMonotone(y: int, a: int, b: int)
    requires 1 <= a < b <= 13
    ensures MonthStart(y, a) + DaysInMonth(y, a) <= MonthStart(y, b)
    decreases b - a
  {
    MonthStartStep(y, a);
    if a + 1 < b {
      MonthStartMonotone(y, a + 1, b);
    }
  }

  /** The day number of a civil date. */
  function DaysFromCivil(dt: Date): int
    requires 1 <= dt.month <= 12
  {
    YearStart(dt.year) + MonthStart(dt.year, dt.month) + dt.day - 1
  }

  /** The year holding day `n`, searched for from year `y`. */
  function FindYear(n: int, y: int): (r: int)
    ensures YearStart(r) <= n < YearStart(r) + DaysInYear(r)
    decreases if n < YearStart(y) then YearStart(y) - n + 400 else n - YearStart(y)
  {
    YearStartStep(y - 1);
    YearStartStep(y);
    if n < YearStart(y) then FindYear(n, y - 1)
    else if n < YearStart(y) + DaysInYear(y) then y
    else FindYear(n, y + 1)
  }

  /** The month of year `y` holding day-of-year `o`, searched for from month `m`. */
  function FindMonth(o: int, y: int, m: int): (r: int)
    requires 1 <= m <= 12 && MonthStart(y, m) <= o < DaysInYear(y)
    ensures 1 <= r <= 12 && MonthStart(y, r) <= o < MonthStart(y, r) + DaysInMonth(y, r)
    decreases 12 - m
  {
    MonthStartStep(y, m);
    if m == 12 || o < MonthStart(y, m + 1) then m else FindMonth(o, y, m + 1)
  }

  /** The civil date of day `n`: a valid date whose day number is `n`. */
  function CivilFromDays(n: int): (dt: Date)
    ensures ValidDate(dt) && DaysFromCivil(dt) == n
  {
    var y := FindYear(n, 1970);
    var o := n - YearStart(y);
    var m := FindMonth(o, y, 1);
    Date(y, m, o - MonthStart(y, m) + 1)
  }

  /** Converting back: the civil date of a valid date's day number is that date. */
  lemma CivilOfDaysFromCivil(dt: Date)
    requires ValidDate(dt)
    ensures CivilFromDays(DaysFromCivil(dt)) == dt
  {
    var n := DaysFromCivil(dt);
    MonthStartStep(dt.year, dt.month);
    var y := FindYear(n, 1970);
    if y < dt.year {
      YearStartMonotone(y, dt.year);
    } else if dt.year < y {
      YearStartMonotone(dt.year, y);
    }
    assert y == dt.year;
    var o := n - YearStart(y);
    var m := FindMonth(o, y, 1);
    if m < dt.month {
      MonthStartMonotone(y, m, dt.month);
    } else if dt.month < m {
      MonthStartMonotone(y, dt.month, m);
    }
  }

  /**
   * Days less than 200 million days from the epoch (a JavaScript `Date` reaches 100 million)
   * fall in years of at most six digits.
   */
  lemma YearOfValidDay(n: int)
    requires -200000000 <= n <= 200000000
    ensures -999999 <= CivilFromDays(n).year <= 999999
  {
    var y := CivilFromDays(n).year;
    assert YearStart(y) <= n < YearStart(y) + DaysInYear(y);
    if y > 999999 {
      YearStartAfterEpoch(y);
    } else if y < -999999 {
      YearStartBeforeEpoch(y + 1);
      YearStartStep(y);
    }
  }

  // ---------------------------------------------------------------------------------------------
  // ISO 8601 rendering of a date, as the part of `toISOString()` before the 'T'

  predicate IsDigit(c: char) {
    '0' <= c <= '9'
  }

  predicate AllDigits(s: string) {
    forall i :: 0 <= i < |s| ==> IsDigit(s[i])
  }

  function Pow10(k: nat): nat {
    if k == 0 then 1 else 10 * Pow10(k - 1)
  }

  /** The last `width` decimal digits of `n`, padded with leading zeros. */
  function PadDigits(n: nat, width: nat): (s: string)
    ensures |s| == width && AllDigits(s)
  {
    if width == 0 then ""
    else PadDigits(n / 10, width - 1) + [(48 + n % 10) as char]
  }

  /** The number that a string of decimal digits denotes. */
  function DigitsValue(s: string): nat
    requires AllDigits(s)
  {
    if s == "" then 0 else 10 * DigitsValue(s[..|s| - 1]) + (s[|s| - 1] as int - 48)
  }

  /** Reading back a padded number wide enough to hold it gives the number. */
  lemma {:induction false} DigitsRoundTrip(n: nat, width: nat)
    requires n < Pow10(width)
    ensures DigitsValue(PadDigits(n, width)) == n
  {
    if width > 0 {
      DigitsRoundTrip(n / 10, width - 1);
      var s := PadDigits(n, width);
      assert s[..|s| - 1] == PadDigits(n / 10, width - 1);
    }
  }

  /** Years 0 to 9999 take four digits; others a sign and six digits. */
  function IsoYear(y: int): string {
    if 0 <= y <= 9999 then PadDigits(y, 4)
    else if y < 0 then "-" + PadDigits(-y, 6)
    else "+" + PadDigits(y, 6)
  }

  /** `YYYY-MM-DD`. */
  function IsoDate(dt: Date): string
    requires ValidDate(dt)
  {
    IsoYear(dt.year) + "-" + PadDigits(dt.month, 2) + "-" + PadDigits(dt.day, 2)
  }

  /** Reads a date written as `YYYY-MM-DD` or `+YYYYYY-MM-DD` / `-YYYYYY-MM-DD`. */
  function ParseIsoDate(s: string): Option<Date> {
    if |s| == 10 && AllDigits(s[..4]) && s[4] == '-' && AllDigits(s[5..7]) && s[7] == '-'
       && AllDigits(s[8..])
    then Some(Date(DigitsValue(s[..4]), DigitsValue(s[5..7]), DigitsValue(s[8..])))
    else if |s| == 13 && (s[0] == '+' || s[0] == '-') && AllDigits(s[1..7]) && s[7] == '-'
       && AllDigits(s[8..10]) && s[10] == '-' && AllDigits(s[11..])
    then
      var magnitude: int := DigitsValue(s[1..7]);
      Some(Date(if s[0] == '-' then -magnitude else magnitude, DigitsValue(s[8..10]), DigitsValue(s[11..])))
    else None
  }

  /** Reading back a rendered date gives the date, for every year a JavaScript `Date` can hold. */
  lemma IsoDateRoundTrip(dt: Date)
    requires ValidDate(dt) && -999999 <= dt.year <= 999999
    ensures ParseIsoDate(IsoDate(dt)) == Some(dt)
  {
    var mm, dd := PadDigits(dt.month, 2), PadDigits(dt.day, 2);
    DigitsRoundTrip(dt.month, 2);
    DigitsRoundTrip(dt.day, 2);
    var s := IsoDate(dt);
    if 0 <= dt.year <= 9999 {
      var yy := PadDigits(dt.year, 4);
      DigitsRoundTrip(dt.year, 4);
      assert s == yy + "-" + mm + "-" + dd;
      assert s[..4] == yy && s[5..7] == mm && s[8..] == dd;
    } else {
      var magnitude := if dt.year < 0 then -dt.year else dt.year;
      var yy := PadDigits(magnitude, 6);
      DigitsRoundTrip(magnitude, 6);
      var sign := if dt.year < 0 then "-" else "+";
      assert s == sign + yy + "-" + mm + "-" + dd;
      assert s[1..7] == yy && s[8..10] == mm && s[11..] == dd;
    }
  }
}
