/** The date of a second count: Hinnant's algorithm against the Gregorian calendar. */
module Calendar {
  datatype Date = Date(year: int, month: int, day: int)

  datatype Civil = Civil(date: Date, hour: int, minute: int, second: int)

  /******* The calendar, by its rules *******/

  predicate Leap(y: int) { y % 4 == 0 && (y % 100 != 0 || y % 400 == 0) }

  function DaysInMonth(y: int, m: int): int
    requires 1 <= m <= 12
  {
    if m == 2 then (if Leap(y) then 29 else 28) else if m in {4, 6, 9, 11} then 30 else 31
  }

  predicate ValidDate(d: Date) {
    1 <= d.month <= 12 && 1 <= d.day <= DaysInMonth(d.year, d.month)
  }

  predicate ValidCivil(c: Civil) {
    ValidDate(c.date) && 0 <= c.hour < 24 && 0 <= c.minute < 60 && 0 <= c.second < 60
  }

  /** The next day, as one turns the page of a calendar. */
  function Tomorrow(d: Date): Date
    requires ValidDate(d)
  {
    if d.day < DaysInMonth(d.year, d.month) then d.(day := d.day + 1)
    else if d.month < 12 then Date(d.year, d.month + 1, 1)
    else Date(d.year + 1, 1, 1)
  }

  predicate DateBefore(a: Date, b: Date) {
    a.year < b.year || (a.year == b.year && (a.month < b.month || (a.month == b.month && a.day < b.day)))
  }

  predicate Before(a: Civil, b: Civil) {
    DateBefore(a.date, b.date) || (a.date == b.date &&
      (a.hour < b.hour || (a.hour == b.hour && (a.minute < b.minute || (a.minute == b.minute && a.second < b.second)))))
  }

  /** Leap years from the year 1 up to `y`, not counting `y`; negative before that. */
  function LeapsBefore(y: int): int { (y - 1) / 4 - (y - 1) / 100 + (y - 1) / 400 }

  function DaysBeforeMonth(y: int, m: int): int
    requires 1 <= m <= 12
    decreases m
  {
    if m == 1 then 0 else DaysBeforeMonth(y, m - 1) + DaysInMonth(y, m - 1)
  }

  /** Days since 1 January 1970. */
  function DayNumber(d: Date): int
    requires ValidDate(d)
  {
    365 * (d.year - 1970) + LeapsBefore(d.year) - LeapsBefore(1970) + DaysBeforeMonth(d.year, d.month) + d.day - 1
  }

  /******* The algorithm *******/

  function YearOfEra(doe: int): int { (doe - doe / 1460 + doe / 36_524 - doe / 146_096) / 365 }

  function MonthDay(y: int, doy: int): Date {
    var mp := (5 * doy + 2) / 153;
    var d := doy - (153 * mp + 2) / 5 + 1;
    var m := if mp < 10 then mp + 3 else mp - 9;
    Date(if m <= 2 then y + 1 else y, m, d)
  }

  function DateOf(days: int): Date {
    var z := days + 719_468;
    var era := z / 146_097;
    var doe := z % 146_097;
    var yoe := YearOfEra(doe);
    var doy := doe - (365 * yoe + yoe / 4 - yoe / 100);
    MonthDay(yoe + era * 400, doy)
  }

  /** `div_euclid` and `rem_euclid` are Dafny's own division and remainder. */
  function CivilFromUnix(secs: int): Civil {
    var days := secs / 86_400;
    var rem := secs % 86_400;
    Civil(DateOf(days), rem / 3600, rem % 3600 / 60, rem % 60)
  }

  /******* Years *******/

  lemma Divided(a: int, n: int, q: int, r: int)
    requires n == 4 || n == 100 || n == 400
    requires a == n * q + r && 0 <= r < n
    ensures a / n == q && a % n == r
  {
    if n == 4 {
      assert a / 4 == q;
    } else if n == 100 {
      assert a / 100 == q;
    } else {
      assert a / 400 == q;
    }
  }

  lemma DivStep(y: int, n: int)
    requires n == 4 || n == 100 || n == 400
    ensures y / n == (y - 1) / n + if y % n == 0 then 1 else 0
  {
    var q, r := y / n, y % n;
    if r == 0 { Divided(y - 1, n, q - 1, n - 1); } else { Divided(y - 1, n, q, r - 1); }
  }

  lemma LeapStep(y: int)
    ensures LeapsBefore(y + 1) == LeapsBefore(y) + if Leap(y) then 1 else 0
  {
    DivStep(y, 4);
    DivStep(y, 100);
    DivStep(y, 400);
    LeapIsNested(y);
  }

  lemma LeapIsNested(y: int)
    ensures y % 400 == 0 ==> y % 100 == 0
    ensures y % 100 == 0 ==> y % 4 == 0
  {
  }

  /** The day of its era on which the `y`-th year from a March begins. */
  function Start(y: int): int { 365 * y + LeapsBefore(y + 1) }

  lemma {:induction false} FindYear(doe: int, above: int) returns (y: int)
    requires 0 < above <= 400 && 0 <= doe < Start(above)
    ensures 0 <= y < above && Start(y) <= doe < Start(y + 1)
    decreases above
  {
    if doe >= Start(above - 1) { return above - 1; }
    y := FindYear(doe, above - 1);
  }

  /** The one-line division finds the year. */
  lemma YearIsFound(doe: int, y: int)
    requires 0 <= y < 400 && Start(y) <= doe < Start(y + 1)
    ensures YearOfEra(doe) == y
    ensures 365 * y + y / 4 - y / 100 == Start(y)
  {
    LeapStep(y + 1);
    var doy := doe - Start(y);
    var a, b := y / 4, y / 100;
    assert doe == 365 * y + a - b + doy;
    CenturyPart(doe, y, doy);
    FourYearPart(doe, y, doy);
    assert doe - doe / 1460 + doe / 36_524 - doe / 146_096 == 365 * y + doy - (doe / 1460 - a);
  }

  lemma CenturyPart(doe: int, y: int, doy: int)
    requires 0 <= y < 400 && 0 <= doy <= 365 && (doy == 365 ==> Leap(y + 1))
    requires doe == 365 * y + y / 4 - y / 100 + doy
    ensures doe / 36_524 - doe / 146_096 == y / 100
  {
    var c, k := y / 100, y % 100;
    assert y / 4 == 25 * c + k / 4;
    assert doe == 36_524 * c + (365 * k + k / 4 + doy);
    if k == 99 && c == 3 && doy == 365 {
      assert doe == 146_096;
    } else {
      assert 365 * k + k / 4 + doy < 36_524;
    }
  }

  lemma FourYearPart(doe: int, y: int, doy: int)
    requires 0 <= y < 400 && 0 <= doy <= 365 && (doy == 365 ==> Leap(y + 1))
    requires doe == 365 * y + y / 4 - y / 100 + doy
    ensures 0 <= doe / 1460 - y / 4 <= 1
    ensures doy == 0 ==> doe / 1460 == y / 4
    ensures doy == 365 ==> doe / 1460 == y / 4 + 1
  {
    var a, r := y / 4, y % 4;
    assert doe == 1460 * a + (365 * r + a - y / 100 + doy);
    assert doy == 365 ==> r == 3;
  }

  /******* Months *******/

  lemma MonthTable(y: int)
    ensures var l := if Leap(y) then 1 else 0;
      && DaysBeforeMonth(y, 1) == 0 && DaysBeforeMonth(y, 2) == 31 && DaysBeforeMonth(y, 3) == 59 + l
      && DaysBeforeMonth(y, 4) == 90 + l && DaysBeforeMonth(y, 5) == 120 + l && DaysBeforeMonth(y, 6) == 151 + l
      && DaysBeforeMonth(y, 7) == 181 + l && DaysBeforeMonth(y, 8) == 212 + l && DaysBeforeMonth(y, 9) == 243 + l
      && DaysBeforeMonth(y, 10) == 273 + l && DaysBeforeMonth(y, 11) == 304 + l && DaysBeforeMonth(y, 12) == 334 + l
  {
    assert DaysBeforeMonth(y, 3) == DaysBeforeMonth(y, 2) + DaysInMonth(y, 2);
    assert DaysBeforeMonth(y, 5) == DaysBeforeMonth(y, 4) + DaysInMonth(y, 4);
    assert DaysBeforeMonth(y, 7) == DaysBeforeMonth(y, 6) + DaysInMonth(y, 6);
    assert DaysBeforeMonth(y, 9) == DaysBeforeMonth(y, 8) + DaysInMonth(y, 8);
    assert DaysBeforeMonth(y, 11) == DaysBeforeMonth(y, 10) + DaysInMonth(y, 10);
  }

  /** A day of a year that begins in March. */
  lemma MonthIsFound(y: int, doy: int)
    requires 0 <= doy <= 365 && (doy == 365 ==> Leap(y + 1))
    ensures var d := MonthDay(y, doy);
      && ValidDate(d)
      && d.year == (if d.month <= 2 then y + 1 else y)
      && DaysBeforeMonth(d.year, d.month) + d.day - 1 ==
           if d.month <= 2 then doy - 306 else doy + 59 + if Leap(y) then 1 else 0
  {
    MonthTable(y);
    MonthTable(y + 1);
    var mp := (5 * doy + 2) / 153;
    assert 153 * mp <= 5 * doy + 2 < 153 * mp + 153;
    assert mp == 0 || mp == 1 || mp == 2 || mp == 3 || mp == 4 || mp == 5 || mp == 6 || mp == 7 || mp == 8 || mp == 9
      || mp == 10 || mp == 11;
  }

  /******* The promises *******/

  lemma DivShift(x: int, n: int, k: int, shift: int)
    requires (n == 4 || n == 100 || n == 400) && shift == n * k
    ensures (x + shift) / n == x / n + k && (x + shift) % n == x % n
  {
    Divided(x + shift, n, x / n + k, x % n);
  }

  lemma EraShift(y: int, era: int)
    ensures LeapsBefore(y + 400 * era) == LeapsBefore(y) + 97 * era
    ensures Leap(y + 400 * era) == Leap(y)
  {
    var shift := 400 * era;
    DivShift(y - 1, 4, 100 * era, shift);
    DivShift(y - 1, 100, 4 * era, shift);
    DivShift(y - 1, 400, era, shift);
    DivShift(y, 4, 100 * era, shift);
    DivShift(y, 100, 4 * era, shift);
    DivShift(y, 400, era, shift);
    assert y - 1 + shift == (y + shift) - 1;
  }

  lemma FindsDay(days: int) returns (y: int, era: int, doy: int)
    ensures DateOf(days) == MonthDay(y + 400 * era, doy)
    ensures days + 719_468 == 146_097 * era + Start(y) + doy
    ensures 0 <= y < 400 && 0 <= doy <= 365 && (doy == 365 ==> Leap(y + 1))
  {
    var z := days + 719_468;
    era := z / 146_097;
    var doe := z % 146_097;
    assert Start(400) == 146_097;
    y := FindYear(doe, 400);
    YearIsFound(doe, y);
    LeapStep(y + 1);
    doy := doe - Start(y);
  }

  /** For every day count: a valid date, whose day count it is. */
  lemma DateOfInverts(days: int)
    ensures ValidDate(DateOf(days)) && DayNumber(DateOf(days)) == days
  {
    var y, era, doy := FindsDay(days);
    var year := y + 400 * era;
    EraShift(y + 1, era);
    LeapStep(year);
    hide DateOf, LeapsBefore, MonthDay, DaysBeforeMonth, Leap;
    MonthIsFound(year, doy);
    assert LeapsBefore(1970) == 477 by { LeapsTo1970(); }
    assert year + 1 == y + 1 + 400 * era;
  }

  lemma LeapsTo1970()
    ensures LeapsBefore(1970) == 477
  {
  }

  function NewYear(y: int): int { 365 * (y - 1970) + LeapsBefore(y) - LeapsBefore(1970) }

  lemma {:induction false} NewYearsGrow(y: int, y': int)
    requires y <= y'
    ensures NewYear(y) + 365 * (y' - y) <= NewYear(y')
    decreases y' - y
  {
    if y < y' {
      LeapStep(y' - 1);
      NewYearsGrow(y, y' - 1);
    }
  }

  lemma WithinYear(d: Date)
    requires ValidDate(d)
    ensures NewYear(d.year) <= DayNumber(d) < NewYear(d.year + 1)
  {
    MonthTable(d.year);
    LeapStep(d.year);
    hide LeapsBefore;
  }

  lemma DayNumberIncreases(a: Date, b: Date)
    requires ValidDate(a) && ValidDate(b) && DateBefore(a, b)
    ensures DayNumber(a) < DayNumber(b)
  {
    hide LeapsBefore;
    if a.year < b.year {
      WithinYear(a);
      WithinYear(b);
      NewYearsGrow(a.year + 1, b.year);
    } else {
      MonthTable(a.year);
    }
  }

  /** And the other way: every valid date is the date of its own day count. */
  lemma DayNumberInverts(d: Date)
    requires ValidDate(d)
    ensures DateOf(DayNumber(d)) == d
  {
    hide DateOf, LeapsBefore, DayNumber;
    var e := DateOf(DayNumber(d));
    DateOfInverts(DayNumber(d));
    if DateBefore(d, e) { DayNumberIncreases(d, e); }
    if DateBefore(e, d) { DayNumberIncreases(e, d); }
  }

  lemma TomorrowIsNext(d: Date)
    requires ValidDate(d)
    ensures ValidDate(Tomorrow(d)) && DayNumber(Tomorrow(d)) == DayNumber(d) + 1
  {
    MonthTable(d.year);
    LeapStep(d.year);
    hide LeapsBefore;
  }

  /** Each day is followed by its successor in the calendar. */
  lemma NextDayIsTomorrow(days: int)
    ensures ValidDate(DateOf(days)) && DateOf(days + 1) == Tomorrow(DateOf(days))
  {
    hide DateOf, LeapsBefore, DayNumber, Tomorrow;
    DateOfInverts(days);
    TomorrowIsNext(DateOf(days));
    DayNumberInverts(Tomorrow(DateOf(days)));
  }

  function Unix(c: Civil): int
    requires ValidDate(c.date)
  {
    86_400 * DayNumber(c.date) + 3600 * c.hour + 60 * c.minute + c.second
  }

  /** For every second count: a valid date and time of day, whose count it is. */
  lemma CivilInverts(secs: int)
    ensures ValidCivil(CivilFromUnix(secs)) && Unix(CivilFromUnix(secs)) == secs
  {
    hide DateOf, DayNumber, ValidDate;
    DateOfInverts(secs / 86_400);
    TimeOfDay(secs % 86_400);
  }

  lemma TimeOfDay(rem: int)
    requires 0 <= rem < 86_400
    ensures 0 <= rem / 3600 < 24 && 0 <= rem % 3600 / 60 < 60
    ensures rem == 3600 * (rem / 3600) + 60 * (rem % 3600 / 60) + rem % 60
  {
    assert rem % 60 == rem % 3600 % 60;
  }

  lemma UnixIncreases(a: Civil, b: Civil)
    requires ValidCivil(a) && ValidCivil(b) && Before(a, b)
    ensures Unix(a) < Unix(b)
  {
    if DateBefore(a.date, b.date) { DayNumberIncreases(a.date, b.date); }
    hide DayNumber;
  }

  lemma UnixInverts(c: Civil)
    requires ValidCivil(c)
    ensures CivilFromUnix(Unix(c)) == c
  {
    hide CivilFromUnix, DayNumber, DaysInMonth, Unix;
    var e := CivilFromUnix(Unix(c));
    CivilInverts(Unix(c));
    if Before(c, e) { UnixIncreases(c, e); }
    if Before(e, c) { UnixIncreases(e, c); }
  }

  /** Later is later: the order of second counts is the order of dates and times. */
  lemma CivilIncreases(s: int, t: int)
    requires s < t
    ensures Before(CivilFromUnix(s), CivilFromUnix(t))
  {
    hide CivilFromUnix, DayNumber, DaysInMonth, Unix;
    var a, b := CivilFromUnix(s), CivilFromUnix(t);
    CivilInverts(s);
    CivilInverts(t);
    if Before(b, a) { UnixIncreases(b, a); }
  }

  lemma FirstDay(d: Date)
    requires d == Date(1970, 1, 1)
    ensures ValidDate(d) && DayNumber(d) == 0
  {
    hide LeapsBefore;
    MonthTable(d.year);
    hide DaysBeforeMonth;
  }

  lemma UnixOfEpoch(c: Civil)
    requires c == Civil(Date(1970, 1, 1), 0, 0, 0)
    ensures ValidCivil(c) && Unix(c) == 0
  {
    hide DayNumber, ValidDate;
    FirstDay(c.date);
  }

  lemma Epoch()
    ensures CivilFromUnix(0) == Civil(Date(1970, 1, 1), 0, 0, 0)
  {
    var epoch := Civil(Date(1970, 1, 1), 0, 0, 0);
    hide CivilFromUnix, Unix;
    UnixOfEpoch(epoch);
    UnixInverts(epoch);
  }
}
