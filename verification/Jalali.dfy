/** The conversion of a Gregorian date into a Jalali one, against day counts of both calendars. */
module Jalali {
  datatype Date = Date(year: int, month: int, day: int)

  /** Division and remainder that truncate toward zero. */
  function Quot(a: int, b: int): int
    requires b > 0
  {
    if a >= 0 then a / b else -(-a / b)
  }

  function Rem(a: int, b: int): int
    requires b > 0
  {
    a - b * Quot(a, b)
  }

  // ---------- The Jalali calendar ----------

  predicate IsJalaliLeap(y: int) { Rem(y, 33) in {1, 5, 9, 13, 17, 22, 26, 30} }

  function JalaliMonthDays(y: int, m: int): int {
    if m <= 6 then 31 else if m <= 11 then 30 else if IsJalaliLeap(y) then 30 else 29
  }

  predicate ValidJalali(j: Date) { 1 <= j.month <= 12 && 1 <= j.day <= JalaliMonthDays(j.year, j.month) }

  function JalaliYearDays(y: int): int { if IsJalaliLeap(y) then 366 else 365 }

  /** Days from the start of year 0 to the start of year y, counted year by year. */
  function JalaliYearStart(y: int): int
    decreases if y >= 0 then y else -y
  {
    if y == 0 then 0
    else if y > 0 then JalaliYearStart(y - 1) + JalaliYearDays(y - 1)
    else JalaliYearStart(y + 1) - JalaliYearDays(y)
  }

  function JalaliMonthStart(m: int): int { if m <= 7 then 31 * (m - 1) else 186 + 30 * (m - 7) }

  function JalaliDay(j: Date): int { JalaliYearStart(j.year) + JalaliMonthStart(j.month) + j.day }

  function NextJalali(j: Date): Date {
    if j.day < JalaliMonthDays(j.year, j.month) then j.(day := j.day + 1)
    else if j.month < 12 then Date(j.year, j.month + 1, 1)
    else Date(j.year + 1, 1, 1)
  }

  lemma NextYearStart(y: int)
    ensures JalaliYearStart(y + 1) == JalaliYearStart(y) + JalaliYearDays(y)
  {
    if y < 0 { assert JalaliYearStart(y) == JalaliYearStart(y + 1) - JalaliYearDays(y); }
  }

  /** The day after a valid date is valid and one day later. */
  lemma NextJalaliDay(j: Date)
    requires ValidJalali(j)
    ensures ValidJalali(NextJalali(j)) && JalaliDay(NextJalali(j)) == JalaliDay(j) + 1
  {
    if j.month == 12 { NextYearStart(j.year); }
  }

  lemma {:induction false} JalaliYearsApart(y: int, z: int)
    requires y < z
    ensures JalaliYearStart(z) >= JalaliYearStart(y) + JalaliYearDays(y)
    decreases z - y
  {
    NextYearStart(z - 1);
    if y < z - 1 { JalaliYearsApart(y, z - 1); }
  }

  lemma JalaliDayInYear(j: Date)
    requires ValidJalali(j)
    ensures JalaliYearStart(j.year) < JalaliDay(j) <= JalaliYearStart(j.year) + JalaliYearDays(j.year)
  {
  }

  /** A day count names one valid Jalali date. */
  lemma JalaliDayIsInjective(a: Date, b: Date)
    requires ValidJalali(a) && ValidJalali(b) && JalaliDay(a) == JalaliDay(b)
    ensures a == b
  {
    JalaliDayInYear(a);
    JalaliDayInYear(b);
    if a.year < b.year { JalaliYearsApart(a.year, b.year); }
    if b.year < a.year { JalaliYearsApart(b.year, a.year); }
  }

  /** Eight leap years in every 33, spread so that the year starts follow one division. */
  lemma {:induction false} JalaliYearStartClosed(y: nat)
    ensures JalaliYearStart(y) == 365 * y + LeapsBefore(y)
  {
    if y > 0 {
      JalaliYearStartClosed(y - 1);
      LeapByDivision(y - 1);
    }
  }

  function LeapsBefore(y: nat): int { (8 * y + 21) / 33 }

  lemma By33(x: int, q: int, r: int)
    requires x == 33 * q + r && 0 <= r < 33
    ensures x / 33 == q && x % 33 == r
  {
  }

  lemma LeapPattern(r: nat)
    requires r < 33
    ensures (8 * r + 29) / 33 - (8 * r + 21) / 33 == if r in {1, 5, 9, 13, 17, 22, 26, 30} then 1 else 0
  {
  }

  lemma LeapByDivision(y: nat)
    ensures LeapsBefore(y + 1) == LeapsBefore(y) + JalaliYearDays(y) - 365
  {
    var q, r := y / 33, y % 33;
    By33(8 * y + 21, 8 * q + (8 * r + 21) / 33, (8 * r + 21) % 33);
    By33(8 * y + 29, 8 * q + (8 * r + 29) / 33, (8 * r + 29) % 33);
    LeapPattern(r);
    assert Rem(y, 33) == r;
  }

  // ---------- The Gregorian calendar ----------

  predicate IsLeap(y: int) { y % 4 == 0 && (y % 100 != 0 || y % 400 == 0) }

  function MonthDays(y: int, m: int): int {
    if m == 2 then (if IsLeap(y) then 29 else 28) else if m in {4, 6, 9, 11} then 30 else 31
  }

  predicate Valid(g: Date) { 1 <= g.month <= 12 && 1 <= g.day <= MonthDays(g.year, g.month) }

  function Next(g: Date): Date {
    if g.day < MonthDays(g.year, g.month) then g.(day := g.day + 1)
    else if g.month < 12 then Date(g.year, g.month + 1, 1)
    else Date(g.year + 1, 1, 1)
  }

  /** The Julian day number as the source computes it, with January and February counted to the year before. */
  function JulianDay(g: Date): int {
    var a := Quot(14 - g.month, 12);
    var y := g.year + 4800 - a;
    var m := g.month + 12 * a - 3;
    g.day + Quot(153 * m + 2, 5) + 365 * y + Quot(y, 4) - Quot(y, 100) + Quot(y, 400) - 32045
  }

  /** The dates for which no division in the formula meets a negative year: from 1 March -4800 on. */
  predicate InDomain(g: Date) { g.year > -4800 || (g.year == -4800 && g.month >= 3) }

  function LeapsThrough(y: nat): int { y / 4 - y / 100 + y / 400 }

  lemma Carry(y: nat)
    ensures (y + 1) / 4 - y / 4 == if (y + 1) % 4 == 0 then 1 else 0
    ensures (y + 1) / 100 - y / 100 == if (y + 1) % 100 == 0 then 1 else 0
    ensures (y + 1) / 400 - y / 400 == if (y + 1) % 400 == 0 then 1 else 0
  {
  }

  lemma By4(x: int, q: int, r: int)
    requires x == 4 * q + r && 0 <= r < 4
    ensures x / 4 == q && x % 4 == r
  {
  }

  lemma By100(x: int, q: int, r: int)
    requires x == 100 * q + r && 0 <= r < 100
    ensures x / 100 == q && x % 100 == r
  {
  }

  lemma By400(x: int, q: int, r: int)
    requires x == 400 * q + r && 0 <= r < 400
    ensures x / 400 == q && x % 400 == r
  {
  }

  lemma Multiples(x: nat)
    ensures x % 400 == 0 ==> x % 100 == 0
    ensures x % 100 == 0 ==> x % 4 == 0
  {
    if x % 400 == 0 { By100(x, 4 * (x / 400), 0); }
    if x % 100 == 0 { By4(x, 25 * (x / 100), 0); }
  }

  lemma OneMoreYear(y: nat)
    ensures LeapsThrough(y + 1) - LeapsThrough(y) == if IsLeap(y + 1) then 1 else 0
  {
    Carry(y);
    Multiples(y + 1);
  }

  lemma LeapShift(y: int)
    ensures IsLeap(y + 4800) <==> IsLeap(y)
  {
    By4(y + 4800, y / 4 + 1200, y % 4);
    By100(y + 4800, y / 100 + 48, y % 100);
    By400(y + 4800, y / 400 + 12, y % 400);
  }

  /** The day number of a date from that of 1 January, by the lengths of the months. */
  function MonthStart(y: int, m: int): int
    requires 1 <= m <= 12
  {
    if m == 1 then 0 else MonthStart(y, m - 1) + MonthDays(y, m - 1)
  }

  function DayOfYear(g: Date): int
    requires 1 <= g.month <= 12
  {
    MonthStart(g.year, g.month) + g.day
  }

  function YearDays(y: int): int { if IsLeap(y) then 366 else 365 }

  lemma MonthStarts(y: int)
    ensures var l := if IsLeap(y) then 1 else 0;
      && MonthStart(y, 2) == 31 && MonthStart(y, 3) == 59 + l && MonthStart(y, 4) == 90 + l
      && MonthStart(y, 5) == 120 + l && MonthStart(y, 6) == 151 + l && MonthStart(y, 7) == 181 + l
      && MonthStart(y, 8) == 212 + l && MonthStart(y, 9) == 243 + l && MonthStart(y, 10) == 273 + l
      && MonthStart(y, 11) == 304 + l && MonthStart(y, 12) == 334 + l
  {
    assert MonthStart(y, 3) == MonthStart(y, 2) + MonthDays(y, 2);
    assert MonthStart(y, 5) == MonthStart(y, 4) + 30 == MonthStart(y, 3) + 61;
    assert MonthStart(y, 7) == MonthStart(y, 6) + 30 == MonthStart(y, 5) + 61;
    assert MonthStart(y, 9) == MonthStart(y, 8) + 31 == MonthStart(y, 7) + 62;
    assert MonthStart(y, 11) == MonthStart(y, 10) + 31 == MonthStart(y, 9) + 61;
  }

  /** The formula with the divisions that depend on the year gathered. */
  lemma JulianByYear(g: Date)
    requires InDomain(g) && 1 <= g.month <= 12
    ensures var m := g.month;
      if m <= 2 then JulianDay(g) == g.day + (153 * (m + 9) + 2) / 5 + 365 * (g.year + 4799) + LeapsThrough(g.year + 4799) - 32045
      else JulianDay(g) == g.day + (153 * (m - 3) + 2) / 5 + 365 * (g.year + 4800) + LeapsThrough(g.year + 4800) - 32045
  {
  }

  /** The day number before 1 January of a year. */
  function YearStart(y: int): int { JulianDay(Date(y + 1, 1, 1)) - YearDays(y) - 1 }

  lemma YearStartIs(y: int)
    requires y >= -4800
    ensures YearStart(y) + 60 + (if IsLeap(y) then 1 else 0) == 1 + 365 * (y + 4800) + LeapsThrough(y + 4800) - 32045
  {
    JulianByYear(Date(y + 1, 1, 1));
  }

  /** The fifths of 153 are the month lengths from March on. */
  lemma Fifths(y: int, m: int)
    requires 1 <= m <= 12
    ensures m > 2 ==> MonthStart(y, m) == 59 + (if IsLeap(y) then 1 else 0) + (153 * (m - 3) + 2) / 5
    ensures m <= 2 ==> MonthStart(y, m) == (153 * (m + 9) + 2) / 5 - 306
  {
    MonthStarts(y);
  }

  /** Within a year the formula counts days. */
  lemma JulianInYear(g: Date)
    requires Valid(g) && InDomain(g)
    ensures JulianDay(g) == YearStart(g.year) + DayOfYear(g)
  {
    JulianByYear(g);
    YearStartIs(g.year);
    Fifths(g.year, g.month);
    if g.month <= 2 {
      OneMoreYear(g.year + 4799);
      LeapShift(g.year);
    }
  }

  lemma JulianYear(y: int)
    requires y >= -4800
    ensures YearStart(y + 1) == YearStart(y) + YearDays(y)
  {
    YearStartIs(y);
    YearStartIs(y + 1);
    OneMoreYear(y + 4800);
    LeapShift(y + 1);
  }

  lemma LastDay(y: int)
    ensures DayOfYear(Date(y, 12, 31)) == YearDays(y)
  {
    MonthStarts(y);
  }

  /** The formula moves by one with each Gregorian day, across months, leap days and years. */
  lemma NextJulianDay(g: Date)
    requires Valid(g) && InDomain(g)
    ensures Valid(Next(g)) && InDomain(Next(g)) && JulianDay(Next(g)) == JulianDay(g) + 1
  {
    JulianInYear(g);
    JulianInYear(Next(g));
    if g.month == 12 && g.day == 31 {
      LastDay(g.year);
      JulianYear(g.year);
    }
  }

  lemma DayOfYearBounds(g: Date)
    requires Valid(g)
    ensures 1 <= DayOfYear(g) <= YearDays(g.year)
  {
    MonthStarts(g.year);
  }

  lemma DayOfYearIsInjective(a: Date, b: Date)
    requires Valid(a) && Valid(b) && a.year == b.year && DayOfYear(a) == DayOfYear(b)
    ensures a == b
  {
    MonthStarts(a.year);
  }

  lemma {:induction false} JulianYearsApart(y: int, z: int)
    requires -4800 <= y < z
    ensures YearStart(z) >= YearStart(y) + YearDays(y)
    decreases z - y
  {
    JulianYear(z - 1);
    if y < z - 1 { JulianYearsApart(y, z - 1); }
  }

  lemma JulianDayIsInjective(a: Date, b: Date)
    requires Valid(a) && Valid(b) && InDomain(a) && InDomain(b) && JulianDay(a) == JulianDay(b)
    ensures a == b
  {
    JulianInYear(a);
    JulianInYear(b);
    DayOfYearBounds(a);
    DayOfYearBounds(b);
    if a.year < b.year { JulianYearsApart(a.year, b.year); }
    if b.year < a.year { JulianYearsApart(b.year, a.year); }
    if a.year == b.year { DayOfYearIsInjective(a, b); }
  }

  // ---------- The conversion ----------

  const REFERENCE := Date(1402, 10, 11)
  const REFERENCE_DAY := 2460311

  /** j is the valid Jalali date as many days from 1402-10-11 as g is from 2024-01-01. */
  predicate Corresponds(g: Date, j: Date) {
    ValidJalali(j) && JalaliDay(j) - JalaliDay(REFERENCE) == JulianDay(g) - JulianDay(Date(2024, 1, 1))
  }

  /** The reference day number is that of 2024-01-01. */
  lemma ReferenceDay()
    ensures JulianDay(Date(2024, 1, 1)) == REFERENCE_DAY
  {
  }

  method GregorianToJalali(g: Date) returns (j: Date)
    ensures Corresponds(g, j)
  {
    ReferenceDay();
    var days := JulianDay(g) - REFERENCE_DAY;
    ghost var target := JalaliDay(REFERENCE) + days;
    var y, m, d := 1402, 10, 11;
    while days > 0
      invariant ValidJalali(Date(y, m, d)) && JalaliDay(Date(y, m, d)) + days == target
    {
      var remaining := JalaliMonthDays(y, m) - d + 1;
      if days < remaining {
        return Date(y, m, d + days);
      }
      days := days - remaining;
      m := m + 1;
      if m > 12 {
        NextYearStart(y);
        m, y := 1, y + 1;
      }
      d := 1;
    }
    while days < 0
      invariant days <= 0 && ValidJalali(Date(y, m, d)) && JalaliDay(Date(y, m, d)) + days == target
    {
      d := d + days;
      while d < 1
        invariant 1 <= m <= 12 && d <= JalaliMonthDays(y, m) && JalaliDay(Date(y, m, d)) == target
      {
        m := m - 1;
        if m < 1 {
          NextYearStart(y - 1);
          m, y := 12, y - 1;
        }
        d := d + JalaliMonthDays(y, m);
      }
      days := 0;
    }
    j := Date(y, m, d);
  }

  /** A Gregorian date has one Jalali date, so the conversion is a function. */
  lemma OneJalaliDate(g: Date, j: Date, k: Date)
    requires Corresponds(g, j) && Corresponds(g, k)
    ensures j == k
  {
    JalaliDayIsInjective(j, k);
  }

  /** The day count of a date from year 0 on, without counting the years. */
  function ClosedDay(j: Date): int
    requires j.year >= 0
  {
    365 * j.year + LeapsBefore(j.year) + JalaliMonthStart(j.month) + j.day
  }

  lemma CorrespondsByYears(g: Date, j: Date, r: Date)
    requires j.year >= 0 && ValidJalali(j) && r == REFERENCE
    requires ClosedDay(j) - ClosedDay(r) == JulianDay(g) - JulianDay(Date(2024, 1, 1))
    ensures Corresponds(g, j)
  {
    JalaliYearStartClosed(j.year);
    JalaliYearStartClosed(r.year);
  }

  predicate KnownPair(g: Date, j: Date) {
    || (g == Date(2024, 1, 1) && j == Date(1402, 10, 11))
    || (g == Date(2000, 3, 20) && j == Date(1379, 1, 1))
    || (g == Date(1979, 2, 11) && j == Date(1357, 11, 22))
  }

  lemma KnownJulianDays()
    ensures JulianDay(Date(2024, 1, 1)) == 2460311 && JulianDay(Date(2000, 3, 20)) == 2451624 && JulianDay(Date(1979, 2, 11)) == 2443916
  {
  }

  lemma KnownClosedDays()
    ensures ClosedDay(Date(1402, 10, 11)) == 512357 && ClosedDay(Date(1379, 1, 1)) == 503670 && ClosedDay(Date(1357, 11, 22)) == 495962
  {
  }

  lemma KnownAreValid(g: Date, j: Date)
    requires KnownPair(g, j)
    ensures ValidJalali(j)
  {
  }

  lemma KnownByYears(g: Date, j: Date)
    requires KnownPair(g, j)
    ensures j.year >= 0 && ClosedDay(j) - ClosedDay(REFERENCE) == JulianDay(g) - JulianDay(Date(2024, 1, 1))
  {
    KnownJulianDays();
    KnownClosedDays();
  }

  /** Dates of both calendars: the reference, a new year's day after a leap year, and a day in winter. */
  lemma KnownDates(g: Date, j: Date)
    requires KnownPair(g, j)
    ensures Corresponds(g, j)
  {
    KnownAreValid(g, j);
    KnownByYears(g, j);
    CorrespondsByYears(g, j, REFERENCE);
  }

  /** The next Gregorian day corresponds to the next Jalali day. */
  lemma NextDayToNextDay(g: Date, j: Date)
    requires Valid(g) && InDomain(g) && Corresponds(g, j)
    ensures Corresponds(Next(g), NextJalali(j))
  {
    NextJulianDay(g);
    NextJalaliDay(j);
  }

  /** Two Gregorian dates never share a Jalali date. */
  lemma ConversionIsInjective(g: Date, h: Date, j: Date)
    requires Valid(g) && Valid(h) && InDomain(g) && InDomain(h)
    requires Corresponds(g, j) && Corresponds(h, j)
    ensures g == h
  {
    JulianDayIsInjective(g, h);
  }
}
