/**
 * The calendar arithmetic of the home-kitchen caps: printed dates, day numbers as in section 21.4.1 of
 * ECMA-262, and Monday-to-Sunday weeks. A Date at UTC midnight is represented by its day number.
 */
module Calendar {
  import opened Text

  datatype Date = Date(year: int, month: int, day: int) {
    predicate Valid() { 1 <= month <= 12 && 1 <= day <= DaysInMonth(month, IsLeap(year)) }
  }

  predicate IsLeap(y: int)
  {
    y % 4 == 0 && (y % 100 != 0 || y % 400 == 0)
  }

  function DaysInYear(y: int): int
  {
    if IsLeap(y) then 366 else 365
  }

  function DaysInMonth(m: int, leap: bool): int
    requires 1 <= m <= 12
  {
    if m == 2 then (if leap then 29 else 28)
    else if m == 4 || m == 6 || m == 9 || m == 11 then 30
    else 31
  }

  /** Days of the year before month m. */
  function DaysBefore(m: int, leap: bool): int
    requires 1 <= m <= 13
  {
    if m == 1 then 0 else DaysBefore(m - 1, leap) + DaysInMonth(m - 1, leap)
  }

  /** DayFromYear: the day number of the first of January. */
  function DayFromYear(y: int): int
  {
    365 * (y - 1970) + (y - 1969) / 4 - (y - 1901) / 100 + (y - 1601) / 400
  }

  lemma FourthYear(y: int)
    ensures (y - 1968) / 4 == (y - 1969) / 4 + if y % 4 == 0 then 1 else 0
  {
  }

  lemma HundredthYear(y: int)
    ensures (y - 1900) / 100 == (y - 1901) / 100 + if y % 100 == 0 then 1 else 0
  {
  }

  lemma FourHundredthYear(y: int)
    ensures (y - 1600) / 400 == (y - 1601) / 400 + if y % 400 == 0 then 1 else 0
  {
  }

  lemma Centuries(y: int)
    ensures (y % 400 == 0 ==> y % 100 == 0) && (y % 100 == 0 ==> y % 4 == 0)
  {
  }

  lemma NextYear(y: int)
    ensures DayFromYear(y + 1) == DayFromYear(y) + DaysInYear(y)
  {
    FourthYear(y);
    HundredthYear(y);
    FourHundredthYear(y);
    Centuries(y);
  }

  lemma {:induction false} YearsOrdered(y: int, z: int)
    requires y <= z
    ensures DayFromYear(z) - DayFromYear(y) >= 365 * (z - y)
    decreases z - y
  {
    if y < z {
      NextYear(z - 1);
      YearsOrdered(y, z - 1);
    }
  }

  /** YearFromTime: the year a day falls in. */
  function YearOf(n: int): (y: int)
    ensures DayFromYear(y) <= n < DayFromYear(y + 1)
  {
    if n >= 0 then YearFrom(1970, n)
    else
      YearsOrdered(1970 + n, 1970);
      YearFrom(1970 + n, n)
  }

  function YearFrom(y: int, n: int): (r: int)
    requires DayFromYear(y) <= n
    ensures DayFromYear(r) <= n < DayFromYear(r + 1)
    decreases n - DayFromYear(y)
  {
    NextYear(y);
    if n < DayFromYear(y + 1) then y else YearFrom(y + 1, n)
  }

  lemma YearIsUnique(n: int, y: int)
    requires DayFromYear(y) <= n < DayFromYear(y + 1)
    ensures YearOf(n) == y
  {
    SameYear(n, YearOf(n), y);
  }

  lemma SameYear(n: int, y: int, z: int)
    requires DayFromYear(y) <= n < DayFromYear(y + 1) && DayFromYear(z) <= n < DayFromYear(z + 1)
    ensures y == z
  {
    if y < z {
      YearsOrdered(y + 1, z);
    } else if z < y {
      YearsOrdered(z + 1, y);
    }
  }

  lemma DaysBeforeTable(leap: bool)
    ensures var f := if leap then 1 else 0;
      && DaysBefore(1, leap) == 0 && DaysBefore(2, leap) == 31 && DaysBefore(3, leap) == 59 + f
      && DaysBefore(4, leap) == 90 + f && DaysBefore(5, leap) == 120 + f && DaysBefore(6, leap) == 151 + f
      && DaysBefore(7, leap) == 181 + f && DaysBefore(8, leap) == 212 + f && DaysBefore(9, leap) == 243 + f
      && DaysBefore(10, leap) == 273 + f && DaysBefore(11, leap) == 304 + f && DaysBefore(12, leap) == 334 + f
      && DaysBefore(13, leap) == 365 + f
  {
    assert DaysBefore(4, leap) == DaysBefore(3, leap) + 31;
    assert DaysBefore(7, leap) == DaysBefore(6, leap) + 30;
    assert DaysBefore(10, leap) == DaysBefore(9, leap) + 30;
  }

  /** MonthFromTime, counted from 1: the month of the k-th day of a year. */
  function MonthOf(k: int, leap: bool): (m: int)
    requires 0 <= k < (if leap then 366 else 365)
    ensures 1 <= m <= 12 && DaysBefore(m, leap) <= k < DaysBefore(m + 1, leap)
  {
    DaysBeforeTable(leap);
    MonthFrom(1, k, leap)
  }

  function MonthFrom(m: int, k: int, leap: bool): (r: int)
    requires 1 <= m <= 12 && DaysBefore(m, leap) <= k < DaysBefore(13, leap)
    ensures 1 <= r <= 12 && DaysBefore(r, leap) <= k < DaysBefore(r + 1, leap)
    decreases 12 - m
  {
    if m == 12 || k < DaysBefore(m + 1, leap) then m else MonthFrom(m + 1, k, leap)
  }

  lemma {:induction false} MonthsOrdered(m: int, n: int, leap: bool)
    requires 1 <= m <= n <= 13
    ensures DaysBefore(n, leap) - DaysBefore(m, leap) >= 28 * (n - m)
    decreases n - m
  {
    if m < n {
      MonthsOrdered(m, n - 1, leap);
    }
  }

  /** MakeDay on a date of the calendar. */
  function DayNumber(d: Date): int
    requires 1 <= d.month <= 12
  {
    DayFromYear(d.year) + DaysBefore(d.month, IsLeap(d.year)) + d.day - 1
  }

  function DateOf(n: int): (d: Date)
  {
    var y := YearOf(n);
    NextYear(y);
    var k := n - DayFromYear(y);
    var m := MonthOf(k, IsLeap(y));
    Date(y, m, k - DaysBefore(m, IsLeap(y)) + 1)
  }

  lemma DayWithinYear(d: Date)
    requires d.Valid()
    ensures DayFromYear(d.year) <= DayNumber(d) < DayFromYear(d.year + 1)
  {
    DaysBeforeTable(IsLeap(d.year));
    NextYear(d.year);
    MonthsOrdered(1, d.month, IsLeap(d.year));
    MonthsOrdered(d.month + 1, 13, IsLeap(d.year));
  }

  /** The day after a date. */
  function NextDay(d: Date): Date
    requires d.Valid()
  {
    if d.day < DaysInMonth(d.month, IsLeap(d.year)) then d.(day := d.day + 1)
    else if d.month < 12 then Date(d.year, d.month + 1, 1)
    else Date(d.year + 1, 1, 1)
  }

  /** Days are numbered one by one, from 1 January 1970 as 0. */
  lemma DaysFromEpoch(d: Date)
    requires d.Valid()
    ensures DayNumber(Date(1970, 1, 1)) == 0
    ensures NextDay(d).Valid() && DayNumber(NextDay(d)) == DayNumber(d) + 1
  {
    NextYear(d.year);
    DaysBeforeTable(IsLeap(d.year));
  }

  /** Every day number is the number of exactly one date. */
  lemma DayNumberOfDate(n: int)
    ensures DateOf(n).Valid() && DayNumber(DateOf(n)) == n
  {
    NextYear(YearOf(n));
  }

  lemma DateOfDayNumber(d: Date)
    requires d.Valid()
    ensures DateOf(DayNumber(d)) == d
  {
    var n := DayNumber(d);
    DayWithinYear(d);
    YearIsUnique(n, d.year);
    NextYear(d.year);
    MonthIsUnique(n - DayFromYear(d.year), IsLeap(d.year), d.month);
  }

  lemma MonthIsUnique(k: int, leap: bool, m: int)
    requires 0 <= k < (if leap then 366 else 365) && 1 <= m <= 12 && DaysBefore(m, leap) <= k < DaysBefore(m + 1, leap)
    ensures MonthOf(k, leap) == m
  {
    if MonthOf(k, leap) < m {
      MonthsOrdered(MonthOf(k, leap) + 1, m, leap);
    } else if m < MonthOf(k, leap) {
      MonthsOrdered(m + 1, MonthOf(k, leap), leap);
    }
  }

  // ---- printed dates ---------------------------------------------------------------------------

  /** YYYY-MM-DD. */
  function Printed(d: Date): string
    requires 0 <= d.year && 0 <= d.month && 0 <= d.day
  {
    Join([Digits(d.year, 4), Digits(d.month, 2), Digits(d.day, 2)], '-')
  }

  /** Date.UTC: two-digit years belong to the twentieth century; months carry into years. */
  function UtcDay(y: int, monthIndex: int, day: int): int
  {
    var year := if 0 <= y <= 99 then 1900 + y else y;
    DayNumber(Date(year + monthIndex / 12, monthIndex % 12 + 1, 1)) + day - 1
  }

  predicate IsReadable(s: string)
  {
    AreNumbers(Split(s, '-'))
  }

  predicate AreNumbers(parts: seq<string>)
  {
    |parts| >= 3 && IsNumeral(parts[0]) && IsNumeral(parts[1]) && IsNumeral(parts[2])
  }

  /** calendarUtc: split at the dashes, read three numbers, count the days. */
  function CalendarUtc(s: string): int
    requires IsReadable(s)
  {
    DayOfParts(Split(s, '-'))
  }

  function DayOfParts(parts: seq<string>): int
    requires AreNumbers(parts)
  {
    UtcDay(Value(parts[0]), Value(parts[1]) - 1, Value(parts[2]))
  }

  /** The days of the years 0 to 9999, whose ISO form begins with the plain ten-character date. */
  predicate IsFormattable(n: int)
  {
    -719528 <= n < 2932897
  }

  lemma FormattableYears(n: int)
    ensures IsFormattable(n) <==> 0 <= YearOf(n) <= 9999
  {
    assert DayFromYear(0) == -719528 && DayFromYear(10000) == 2932897;
    if YearOf(n) < 0 {
      YearsOrdered(YearOf(n) + 1, 0);
    } else {
      YearsOrdered(0, YearOf(n));
    }
    if YearOf(n) < 10000 {
      YearsOrdered(YearOf(n) + 1, 10000);
    } else {
      YearsOrdered(10000, YearOf(n));
    }
  }

  /** formatCalendarUtc: the first ten characters of the ISO form. */
  function FormatCalendarUtc(n: int): string
    requires IsFormattable(n)
  {
    FormattableYears(n);
    DayNumberOfDate(n);
    Printed(DateOf(n))
  }

  predicate Printable(d: Date)
  {
    d.Valid() && 0 <= d.year <= 9999
  }

  lemma NumeralIsPlain(n: nat, width: nat)
    requires width > 0
    ensures IsNumeral(Digits(n, width)) && '-' !in Digits(n, width)
  {
  }

  lemma ValueOfPart(n: nat, width: nat)
    requires (width == 2 && n < 100) || (width == 4 && n < 10000)
    ensures Value(Digits(n, width)) == n
  {
    Pow10Table();
    ValueOfDigits(n, width);
  }

  lemma SplitPrinted(d: Date)
    requires Printable(d)
    ensures Split(Printed(d), '-') == [Digits(d.year, 4), Digits(d.month, 2), Digits(d.day, 2)]
    ensures IsNumeral(Digits(d.year, 4)) && IsNumeral(Digits(d.month, 2)) && IsNumeral(Digits(d.day, 2))
  {
    NumeralIsPlain(d.year, 4);
    NumeralIsPlain(d.month, 2);
    NumeralIsPlain(d.day, 2);
    SplitOfJoin([Digits(d.year, 4), Digits(d.month, 2), Digits(d.day, 2)], '-');
  }

  lemma UtcDayOfDate(d: Date)
    requires Printable(d)
    ensures UtcDay(d.year, d.month - 1, d.day) == DayNumber(d) <==> d.year >= 100
  {
    assert (d.month - 1) / 12 == 0 && (d.month - 1) % 12 == d.month - 1;
    var year := if d.year <= 99 then 1900 + d.year else d.year;
    assert UtcDay(d.year, d.month - 1, d.day) == DayNumber(Date(year, d.month, 1)) + d.day - 1;
    if d.year < 100 {
      TwoDigitYear(d);
    }
  }

  lemma TwoDigitYear(d: Date)
    requires Printable(d) && d.year < 100
    ensures DayNumber(d) < DayNumber(Date(1900 + d.year, d.month, 1))
  {
    DayWithinYear(d);
    DayWithinYear(Date(1900 + d.year, d.month, 1));
    YearsOrdered(d.year + 1, 1900 + d.year);
  }

  lemma CalendarUtcOfPrinted(d: Date)
    requires Printable(d)
    ensures IsReadable(Printed(d)) && CalendarUtc(Printed(d)) == UtcDay(d.year, d.month - 1, d.day)
  {
    SplitPrinted(d);
    PartsOfPrinted(d);
  }

  lemma PartsOfPrinted(d: Date)
    requires Printable(d)
    ensures var parts := [Digits(d.year, 4), Digits(d.month, 2), Digits(d.day, 2)];
      AreNumbers(parts) && DayOfParts(parts) == UtcDay(d.year, d.month - 1, d.day)
  {
    ValueOfPart(d.year, 4);
    ValueOfPart(d.month, 2);
    ValueOfPart(d.day, 2);
    NumeralIsPlain(d.year, 4);
    NumeralIsPlain(d.month, 2);
    NumeralIsPlain(d.day, 2);
  }

  /** Reading a printed date gives its day number exactly from the year 100 on: earlier years move to the 1900s. */
  lemma ReadsPrinted(d: Date)
    requires Printable(d)
    ensures IsReadable(Printed(d))
    ensures CalendarUtc(Printed(d)) == DayNumber(d) <==> d.year >= 100
  {
    CalendarUtcOfPrinted(d);
    UtcDayOfDate(d);
  }

  /** Printing what was read gives the same string back, and reading what was printed the same day. */
  lemma PrintReadRoundTrip(d: Date)
    requires Printable(d) && d.year >= 100
    ensures IsReadable(Printed(d))
    ensures var n := CalendarUtc(Printed(d)); IsFormattable(n) && DateOf(n) == d && FormatCalendarUtc(n) == Printed(d)
  {
    ReadsPrinted(d);
    DateOfDayNumber(d);
    FormattableYears(DayNumber(d));
  }

  // ---- order -----------------------------------------------------------------------------------

  predicate Earlier(d: Date, e: Date)
  {
    d.year < e.year || (d.year == e.year && (d.month < e.month || (d.month == e.month && d.day < e.day)))
  }

  lemma DayNumberOrdered(d: Date, e: Date)
    requires d.Valid() && e.Valid() && Earlier(d, e)
    ensures DayNumber(d) < DayNumber(e)
  {
    if d.year < e.year {
      DayWithinYear(d);
      DayWithinYear(e);
      YearsOrdered(d.year + 1, e.year);
    } else if d.month < e.month {
      MonthsOrdered(d.month + 1, e.month, IsLeap(d.year));
    }
  }

  lemma PrintedOrdered(d: Date, e: Date)
    requires Printable(d) && Printable(e)
    ensures Precedes(Printed(d), Printed(e)) <==> Earlier(d, e)
  {
    Pow10Table();
    DigitsOrdered(d.year, e.year, 4);
    DigitsOrdered(d.month, e.month, 2);
    DigitsOrdered(d.day, e.day, 2);
    var dd, ed := Digits(d.day, 2), Digits(e.day, 2);
    var dm, em := Digits(d.month, 2), Digits(e.month, 2);
    PartOrdered(dm, dd, em, ed);
    PartOrdered(Digits(d.year, 4), dm + ['-'] + dd, Digits(e.year, 4), em + ['-'] + ed);
    JoinThree(Digits(d.year, 4), dm, dd, '-');
    JoinThree(Digits(e.year, 4), em, ed, '-');
  }

  lemma PartOrdered(part: string, rest: string, part': string, rest': string)
    requires |part| == |part'|
    ensures Precedes(part + ['-'] + rest, part' + ['-'] + rest') <==>
              Precedes(part, part') || (part == part' && Precedes(rest, rest'))
  {
    assert part + ['-'] + rest == part + (['-'] + rest) && part' + ['-'] + rest' == part' + (['-'] + rest');
    PrecedesConcat(part, ['-'] + rest, part', ['-'] + rest');
    PrecedesConcat(['-'], rest, ['-'], rest');
    assert !Precedes(['-'], ['-']);
  }

  /** The order of printed dates is the order of their days. */
  lemma PrintedOrderIsDayOrder(m: int, n: int)
    requires IsFormattable(m) && IsFormattable(n)
    ensures Precedes(FormatCalendarUtc(m), FormatCalendarUtc(n)) <==> m < n
  {
    var d, e := DateOf(m), DateOf(n);
    FormattableYears(m);
    FormattableYears(n);
    DayNumberOfDate(m);
    DayNumberOfDate(n);
    PrintedOrdered(d, e);
    if Earlier(d, e) {
      DayNumberOrdered(d, e);
    } else if d != e {
      DayNumberOrdered(e, d);
    }
  }

  // ---- weeks -----------------------------------------------------------------------------------

  /** WeekDay: 0 is Sunday. */
  function WeekDay(n: int): int
  {
    (n + 4) % 7
  }

  function WeekStart(n: int): int
  {
    n - (WeekDay(n) + 7 - 1) % 7
  }

  datatype WeekRange = WeekRange(weekStart: string, weekEnd: string)

  /** Local dates this arithmetic is for; ReadsPrinted and WeekIsFormattable say why these years. */
  ghost predicate IsWorkingDate(s: string, d: Date)
  {
    Printable(d) && 100 <= d.year <= 9998 && s == Printed(d)
  }

  /**
   * weekRangeFor on the local date of an instant, which prints d: the printed bounds of the Monday-to-Sunday
   * block around d.
   */
  function WeekRangeFor(localDate: string, ghost d: Date): (w: WeekRange)
    requires IsWorkingDate(localDate, d)
    ensures var monday := WeekStart(DayNumber(d));
      && IsFormattable(monday) && IsFormattable(monday + 6) && w == WeekRange(FormatCalendarUtc(monday), FormatCalendarUtc(monday + 6))
      && monday <= DayNumber(d) <= monday + 6 && WeeksApart(DayNumber(AMonday), monday)
  {
    ReadsWorkingDate(localDate, d);
    WeeksFromMonday(DayNumber(d));
    var asUtc := CalendarUtc(localDate);
    WeekIsFormattable(d, asUtc);
    WeekRangeOf(asUtc)
  }

  function WeekRangeOf(asUtc: int): WeekRange
    requires IsFormattable(WeekStart(asUtc)) && IsFormattable(WeekStart(asUtc) + 6)
  {
    WeekRange(FormatCalendarUtc(WeekStart(asUtc)), FormatCalendarUtc(WeekStart(asUtc) + 6))
  }

  lemma ReadsWorkingDate(s: string, d: Date)
    requires IsWorkingDate(s, d)
    ensures IsReadable(s) && CalendarUtc(s) == DayNumber(d)
  {
    ReadsPrinted(d);
  }

  lemma WeekIsFormattable(d: Date, n: int)
    requires d.Valid() && 100 <= d.year <= 9998 && n == DayNumber(d)
    ensures IsFormattable(WeekStart(n)) && IsFormattable(WeekStart(n) + 6)
  {
    DayWithinYear(d);
    MondayBlock(n);
    YearsOrdered(100, d.year);
    YearsOrdered(d.year + 1, 9999);
  }

  /** b is a whole number of weeks from a. */
  predicate WeeksApart(a: int, b: int)
  {
    (b - a) % 7 == 0
  }

  /** 5 January 1970 was a Monday. */
  const AMonday := Date(1970, 1, 5)

  /**
   * Weeks begin on Mondays: that Monday begins a week, and the week of day n begins on the one day up to six days
   * before it that is a whole number of weeks from there.
   */
  lemma WeeksFromMonday(n: int)
    ensures WeekStart(DayNumber(AMonday)) == DayNumber(AMonday)
    ensures WeekStart(n) <= n <= WeekStart(n) + 6 && WeeksApart(DayNumber(AMonday), WeekStart(n))
    ensures forall m :: WeeksApart(DayNumber(AMonday), m) && m <= n <= m + 6 ==> m == WeekStart(n)
    ensures forall m :: WeekDay(m) == 1 <==> WeeksApart(DayNumber(AMonday), m)
  {
    assert DayNumber(AMonday) == 4;
  }

  /** The block of a day that begins on its Monday is the only one. */
  lemma MondayBlock(n: int)
    ensures WeekDay(WeekStart(n)) == 1 && WeekDay(WeekStart(n) + 6) == 0 && WeekStart(n) <= n <= WeekStart(n) + 6
    ensures forall m :: WeekDay(m) == 1 && m <= n <= m + 6 ==> m == WeekStart(n)
  {
  }

  /** The weeks partition the days: two weeks are equal or disjoint, and the next one starts where one ends. */
  lemma WeeksPartition(m: int, n: int)
    ensures WeekStart(m) == WeekStart(n) <==> WeekStart(n) <= m <= WeekStart(n) + 6
    ensures WeekStart(WeekStart(n) + 7) == WeekStart(n) + 7
  {
    MondayBlock(m);
    MondayBlock(n);
  }
}
