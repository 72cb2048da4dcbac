/** The calendar in closed form: leap years, the 400-year period, the day number of a date and its weekday. */
module CalendarGregorian {
  import opened Calendar

  /** Leap years up to and including the year, counted from the year 0. */
  function Leaps(year: int): int {
    year / 4 - year / 100 + year / 400
  }

  lemma Multiples(year: int, n: int)
    requires n > 0
    ensures year / n - (year - 1) / n == if year % n == 0 then 1 else 0
  {
    var q, r := year / n, year % n;
    if r == 0 {
      Euclid(year - 1, n, q - 1, n - 1);
    } else {
      Euclid(year - 1, n, q, r - 1);
    }
  }

  lemma Centuries(year: int)
    ensures year % 400 == 0 ==> year % 100 == 0
    ensures year % 100 == 0 ==> year % 4 == 0
  {
  }

  lemma LeapsStep(year: int)
    ensures Leaps(year) - Leaps(year - 1) == YearDays(year) - 365
  {
    Multiples(year, 4);
    Multiples(year, 100);
    Multiples(year, 400);
    Centuries(year);
  }

  /** The first day of every year, before and after 1970. */
  lemma {:induction false} YearStarts(year: int)
    ensures DaysBeforeYear(year) == 365 * (year - 1970) + Leaps(year - 1) - 477
    decreases if year < 1970 then 1970 - year else year - 1970
  {
    if year > 1970 {
      YearStarts(year - 1);
      LeapsStep(year - 1);
    } else if year < 1970 {
      YearStarts(year + 1);
      LeapsStep(year);
    }
  }

  /** Four hundred years are 146097 days, a whole number of weeks. */
  lemma Period(year: int)
    ensures DaysBeforeYear(year + 400) == DaysBeforeYear(year) + 146097 && 146097 % 7 == 0
    ensures YearDays(year + 400) == YearDays(year)
  {
    YearStarts(year);
    YearStarts(year + 400);
    Shifted(year - 1, 4, 100);
    Shifted(year - 1, 100, 4);
    Shifted(year - 1, 400, 1);
    Shifted(year, 4, 100);
    Shifted(year, 100, 4);
    Shifted(year, 400, 1);
  }

  lemma Shifted(x: int, n: int, k: int)
    requires n > 0 && n * k == 400
    ensures (x + 400) / n == x / n + k && (x + 400) % n == x % n
  {
    assert x + 400 == (x / n + k) * n + x % n;
    Euclid(x + 400, n, x / n + k, x % n);
  }

  /** Months have 31 days, but for April, June, September and November with 30 and February with 28 or 29. */
  lemma MonthLengths(year: int, mon: int)
    requires 0 <= mon < 12
    ensures DaysInMonth(year, mon) == 31 <==> mon in {0, 2, 4, 6, 7, 9, 11}
    ensures DaysInMonth(year, mon) == 30 <==> mon in {3, 5, 8, 10}
    ensures mon == 1 ==>
      DaysInMonth(year, mon) == if year % 400 == 0 || (year % 4 == 0 && year % 100 != 0) then 29 else 28
  {
  }

  /** Days from 1970-01-01 to a date, with years that begin in March so that the leap day is the last one. */
  function CivilDays(year: int, mon: int, mday: int): int {
    var y := if mon < 2 then year - 1 else year;
    var m := if mon < 2 then mon + 10 else mon - 2;
    365 * y + Leaps(y) + (153 * m + 2) / 5 + mday - 1 - 719468
  }

  /** The day number of every date agrees with the closed formula. */
  lemma DayNumberIsCivil(tm: Tm)
    requires 0 <= tm.mon < 12
    ensures DayNumber(tm) == CivilDays(tm.year + 1900, tm.mon, tm.mday)
  {
    YearStarts(tm.year + 1900);
    LeapsStep(tm.year + 1900);
    MonthStarts(tm.year + 1900, tm.mon);
  }

  lemma MonthStarts(year: int, mon: int)
    requires 0 <= mon < 12
    ensures mon < 2 ==> DaysBeforeMonth(year, mon) == (153 * (mon + 10) + 2) / 5 - 306
    ensures mon >= 2 ==> DaysBeforeMonth(year, mon) == (153 * (mon - 2) + 2) / 5 + 59 + (YearDays(year) - 365)
  {
  }

  /** `time_to_tm` gives the date whose closed-form day number is that of the time, and the days of the week in turn from a Thursday. */
  method CivilFields(t: int) returns (tm: Tm)
    ensures 0 <= tm.mon < 12 && 1 <= tm.mday <= 31 && 0 <= tm.hour < 24 && 0 <= tm.min < 60 && 0 <= tm.sec < 60
    ensures CivilDays(tm.year + 1900, tm.mon, tm.mday) == t / 86400
    ensures tm.hour * 3600 + tm.min * 60 + tm.sec == t % 86400
    ensures tm.wday == (t / 86400 + 4) % 7 && tm.yday == CivilDays(tm.year + 1900, tm.mon, tm.mday) - CivilDays(tm.year + 1900, 0, 1)
  {
    hide DaysBeforeYear, DaysBeforeMonth, DaysInMonth, CivilDays;
    tm := TimeToTm(t);
    DayNumberIsCivil(tm);
    DayNumberIsCivil(tm.(mon := 0, mday := 1));
    AtMost31(tm.year + 1900, tm.mon);
    MonthsTile(tm.year + 1900, 0);
    Euclid(t, 86400, DayNumber(tm), tm.hour * 3600 + tm.min * 60 + tm.sec);
  }

  lemma AtMost31(year: int, mon: int)
    requires 0 <= mon < 12
    ensures DaysInMonth(year, mon) <= 31
  {
  }

  /**
   What fields outside their ranges mean: sixty seconds are a minute, sixty minutes an hour, a day is 86400 seconds wherever it
   stands in its month, and twelve months are a year.
   */
  lemma InstantCarries(tm: Tm)
    ensures Instant(tm.(sec := tm.sec + 60)) == Instant(tm.(min := tm.min + 1)) == Instant(tm) + 60
    ensures Instant(tm.(min := tm.min + 60)) == Instant(tm.(hour := tm.hour + 1)) == Instant(tm) + 3600
    ensures Instant(tm.(hour := tm.hour + 24)) == Instant(tm.(mday := tm.mday + 1)) == Instant(tm) + 86400
    ensures Instant(tm.(mon := tm.mon + 12)) == Instant(tm.(year := tm.year + 1))
    ensures Instant(tm.(sec := tm.sec + 1)) == Instant(tm) + 1
  {
    hide DaysBeforeYear, DaysBeforeMonth;
    Euclid(tm.mon + 12, 12, tm.mon / 12 + 1, tm.mon % 12);
  }

  /** The epoch is a Thursday, the second before it the last of 1969, and 951782400 is the leap day of 2000, a Tuesday. */
  method KnownDates() returns (epoch: Tm, before: Tm, leap: Tm)
    ensures epoch == Tm(0, 0, 0, 1, 0, 70, 4, 0, 0)
    ensures before == Tm(59, 59, 23, 31, 11, 69, 3, 364, 0)
    ensures leap == Tm(0, 0, 0, 29, 1, 100, 2, 59, 0)
  {
    hide BreaksDown;
    epoch := TimeToTm(0);
    before := TimeToTm(-1);
    leap := TimeToTm(951782400);
    KnownEpoch();
    KnownBefore();
    KnownLeap();
    BreaksDownUnique(epoch, Tm(0, 0, 0, 1, 0, 70, 4, 0, 0), 0);
    BreaksDownUnique(before, Tm(59, 59, 23, 31, 11, 69, 3, 364, 0), -1);
    BreaksDownUnique(leap, Tm(0, 0, 0, 29, 1, 100, 2, 59, 0), 951782400);
  }

  lemma KnownEpoch()
    ensures BreaksDown(Tm(0, 0, 0, 1, 0, 70, 4, 0, 0), 0)
  {
    hide BreaksDown;
    Known(0, Tm(0, 0, 0, 1, 0, 70, 4, 0, 0));
  }

  lemma KnownBefore()
    ensures BreaksDown(Tm(59, 59, 23, 31, 11, 69, 3, 364, 0), -1)
  {
    hide BreaksDown;
    Known(-1, Tm(59, 59, 23, 31, 11, 69, 3, 364, 0));
  }

  lemma KnownLeap()
    ensures BreaksDown(Tm(0, 0, 0, 29, 1, 100, 2, 59, 0), 951782400)
  {
    hide BreaksDown;
    Known(951782400, Tm(0, 0, 0, 29, 1, 100, 2, 59, 0));
  }

  lemma Known(t: int, tm: Tm)
    requires 0 <= tm.sec < 60 && 0 <= tm.min < 60 && 0 <= tm.hour < 24 && 0 <= tm.mon < 12
    requires 1 <= tm.mday <= DaysInMonth(tm.year + 1900, tm.mon) && tm.yday == DaysBeforeMonth(tm.year + 1900, tm.mon) + tm.mday - 1
    requires tm.wday == (CivilDays(tm.year + 1900, tm.mon, tm.mday) + 4) % 7
    requires t == CivilDays(tm.year + 1900, tm.mon, tm.mday) * 86400 + tm.hour * 3600 + tm.min * 60 + tm.sec
    ensures BreaksDown(tm, t)
  {
    DayNumberIsCivil(tm);
  }
}
