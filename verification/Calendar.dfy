/**
 `time_to_tm` and `mktime` of `accmlib/lib_datime.cpp`: broken-down time and seconds since 1970, in both
 directions and before 1970 too.
 */
module Calendar {
  /** `struct tm`; the year counts from 1900 and months from 0. */
  datatype Tm = Tm(sec: int, min: int, hour: int, mday: int, mon: int, year: int, wday: int, yday: int, isdst: int)

  // ---- The calendar ----

  predicate IsLeapYear(year: int) {
    (year % 4 == 0 && year % 100 != 0) || year % 400 == 0
  }

  function YearDays(year: int): int {
    if IsLeapYear(year) then 366 else 365
  }

  function DaysInMonth(year: int, mon: int): int {
    if mon == 1 && IsLeapYear(year) then 29
    else if 0 <= mon < 12 then [31, 28, 31, 30, 31, 30, 31, 31, 30, 31, 30, 31][mon]
    else 30
  }

  function DaysBeforeMonth(year: int, mon: int): int {
    var m := if mon < 0 then 0 else if mon > 11 then 11 else mon;
    [0, 31, 59, 90, 120, 151, 181, 212, 243, 273, 304, 334][m] + if m > 1 && IsLeapYear(year) then 1 else 0
  }

  /** Days from 1970-01-01 to the first day of the year; negative before 1970. */
  function DaysBeforeYear(year: int): int
    decreases if year < 1970 then 1970 - year else year - 1970
  {
    if year == 1970 then 0
    else if year > 1970 then DaysBeforeYear(year - 1) + YearDays(year - 1)
    else DaysBeforeYear(year + 1) - YearDays(year)
  }

  /** The month tables agree: a month starts where the one before it ends, and December ends the year. */
  lemma MonthsTile(year: int, mon: int)
    requires 0 <= mon < 12
    ensures DaysInMonth(year, mon) >= 28 && DaysBeforeMonth(year, 0) == 0
    ensures mon < 11 ==> DaysBeforeMonth(year, mon + 1) == DaysBeforeMonth(year, mon) + DaysInMonth(year, mon)
    ensures mon == 11 ==> DaysBeforeMonth(year, 11) + DaysInMonth(year, 11) == YearDays(year)
  {
  }

  lemma NextYear(year: int)
    ensures DaysBeforeYear(year + 1) == DaysBeforeYear(year) + YearDays(year)
  {
  }

  // ---- What broken-down time means ----

  /** Every field is in its range and the derived fields agree with the date. */
  predicate Normal(tm: Tm) {
    && 0 <= tm.sec < 60 && 0 <= tm.min < 60 && 0 <= tm.hour < 24
    && 0 <= tm.mon < 12 && 1 <= tm.mday <= DaysInMonth(tm.year + 1900, tm.mon)
    && tm.yday == DaysBeforeMonth(tm.year + 1900, tm.mon) + tm.mday - 1
    && tm.wday == (DayNumber(tm) + 4) % 7
  }

  function DayNumber(tm: Tm): int {
    DaysBeforeYear(tm.year + 1900) + DaysBeforeMonth(tm.year + 1900, tm.mon) + tm.mday - 1
  }

  /** The fields are the broken-down time of `t` (section 7.27.2.3 of ISO C11), whatever `isdst` says. */
  predicate BreaksDown(tm: Tm, t: int) {
    Normal(tm) && t == DayNumber(tm) * 86400 + tm.hour * 3600 + tm.min * 60 + tm.sec
  }

  // ---- It is unique ----

  lemma {:induction false} YearsGrow(y: int, z: int)
    requires y < z
    ensures DaysBeforeYear(y) + YearDays(y) <= DaysBeforeYear(z)
    decreases z - y
  {
    NextYear(z - 1);
    if y < z - 1 {
      YearsGrow(y, z - 1);
    }
  }

  lemma {:induction false} MonthsGrow(year: int, m: int, n: int)
    requires 0 <= m < n < 12
    ensures DaysBeforeMonth(year, m) + DaysInMonth(year, m) <= DaysBeforeMonth(year, n)
    decreases n - m
  {
    MonthsTile(year, n - 1);
    if m < n - 1 {
      MonthsGrow(year, m, n - 1);
    }
  }

  lemma MonthInYear(year: int, mon: int)
    requires 0 <= mon < 12
    ensures 0 <= DaysBeforeMonth(year, mon) && DaysBeforeMonth(year, mon) + DaysInMonth(year, mon) <= YearDays(year)
  {
    MonthsTile(year, mon);
    MonthsTile(year, 11);
    if mon < 11 {
      MonthsGrow(year, mon, 11);
    }
  }

  /** One day number, one date. */
  lemma DateUnique(a: Tm, b: Tm)
    requires Normal(a) && Normal(b) && DayNumber(a) == DayNumber(b)
    ensures a.year == b.year && a.mon == b.mon && a.mday == b.mday
  {
    hide DaysBeforeMonth, DaysInMonth, DaysBeforeYear, YearDays;
    MonthInYear(a.year + 1900, a.mon);
    MonthInYear(b.year + 1900, b.mon);
    if a.year < b.year {
      YearsGrow(a.year + 1900, b.year + 1900);
    } else if b.year < a.year {
      YearsGrow(b.year + 1900, a.year + 1900);
    } else if a.mon < b.mon {
      MonthsGrow(a.year + 1900, a.mon, b.mon);
    } else if b.mon < a.mon {
      MonthsGrow(a.year + 1900, b.mon, a.mon);
    }
  }

  lemma Digits(n: int, a: int, x: int, b: int, y: int)
    requires n > 0 && a * n + x == b * n + y && 0 <= x < n && 0 <= y < n
    ensures a == b && x == y
  {
    assert (a - b) * n == y - x;
    Spread(n, a - b);
  }

  lemma Spread(b: int, k: int)
    requires b > 0
    ensures k >= 1 ==> k * b >= b
    ensures k <= -1 ==> k * b <= -b
  {
  }

  /** Broken-down time is unique, apart from `isdst`. */
  lemma BreaksDownUnique(a: Tm, b: Tm, t: int)
    requires BreaksDown(a, t) && BreaksDown(b, t)
    ensures a == b.(isdst := a.isdst)
  {
    hide DayNumber, DaysBeforeMonth, DaysInMonth;
    Digits(86400, DayNumber(a), a.hour * 3600 + a.min * 60 + a.sec, DayNumber(b), b.hour * 3600 + b.min * 60 + b.sec);
    Digits(3600, a.hour, a.min * 60 + a.sec, b.hour, b.min * 60 + b.sec);
    Digits(60, a.min, a.sec, b.min, b.sec);
    DateUnique(a, b);
    SameDate(a, b);
  }

  lemma SameDate(a: Tm, b: Tm)
    requires a.year == b.year && a.mon == b.mon && a.mday == b.mday
    ensures DayNumber(a) == DayNumber(b)
  {
  }

  // ---- C arithmetic ----

  function Quotient(a: int, b: int): int
    requires b > 0
  {
    if a >= 0 then a / b else -((-a) / b)
  }

  function Remainder(a: int, b: int): int
    requires b > 0
  {
    a - Quotient(a, b) * b
  }

  /** Truncated division, corrected when the remainder is negative, is floored division. */
  lemma Floored(a: int, b: int)
    requires b > 0
    ensures var q, r := Quotient(a, b), Remainder(a, b);
      (if r < 0 then q - 1 else q) == a / b && (if r < 0 then r + b else r) == a % b
  {
    var q := if Remainder(a, b) < 0 then Quotient(a, b) - 1 else Quotient(a, b);
    var r := if Remainder(a, b) < 0 then Remainder(a, b) + b else Remainder(a, b);
    Euclid(a, b, q, r);
  }

  lemma Euclid(a: int, b: int, q: int, r: int)
    requires b > 0 && a == q * b + r && 0 <= r < b
    ensures q == a / b && r == a % b
  {
    Spread(b, q - a / b);
    assert (q - a / b) * b == a % b - r;
  }

  /** The carry into the next larger unit, as the code computes it. */
  method Carry(value: int, unit: int) returns (carry: int, rest: int)
    requires unit > 0
    ensures carry == value / unit && rest == value % unit
  {
    Floored(value, unit);
    if value < 0 || value >= unit {
      carry, rest := Quotient(value, unit), Remainder(value, unit);
      if rest < 0 {
        rest, carry := rest + unit, carry - 1;
      }
    } else {
      carry, rest := 0, value;
      Euclid(value, unit, 0, value);
    }
  }

  // ---- Days to a date ----

  /** The year loop: subtracts whole years, or adds them back from before 1970. */
  method YearOf(days: int) returns (year: int, yday: int)
    ensures days == DaysBeforeYear(year) + yday && 0 <= yday < YearDays(year)
  {
    year, yday := 1970, days;
    if yday >= 0 {
      while yday >= YearDays(year)
        invariant yday >= 0 && days == DaysBeforeYear(year) + yday
        decreases yday
      {
        NextYear(year);
        yday := yday - YearDays(year);
        year := year + 1;
      }
    } else {
      while yday < 0
        invariant days == DaysBeforeYear(year) + yday && yday < YearDays(year)
        decreases -yday
      {
        NextYear(year - 1);
        year := year - 1;
        yday := yday + YearDays(year);
      }
    }
  }

  /** The month loop. */
  method MonthOf(year: int, yday: int) returns (mon: int, mday: int)
    requires 0 <= yday < YearDays(year)
    ensures 0 <= mon < 12 && 1 <= mday <= DaysInMonth(year, mon)
    ensures yday == DaysBeforeMonth(year, mon) + mday - 1
  {
    hide DaysBeforeMonth, DaysInMonth, YearDays;
    var days := yday;
    mon := 0;
    MonthsTile(year, 0);
    while mon < 11 && days >= DaysInMonth(year, mon)
      invariant 0 <= mon <= 11 && days >= 0 && yday == DaysBeforeMonth(year, mon) + days
      decreases 11 - mon
    {
      MonthsTile(year, mon);
      days := days - DaysInMonth(year, mon);
      mon := mon + 1;
    }
    MonthsTile(year, 11);
    mday := days + 1;
  }

  /** The weekday loop-free part. */
  method WeekdayOf(days: int) returns (wday: int)
    ensures wday == (days + 4) % 7
  {
    Floored(days + 4, 7);
    wday := Remainder(days + 4, 7);
    if wday < 0 {
      wday := wday + 7;
    }
  }

  /** `time_to_tm`: the broken-down time of `t`, for every `t`. */
  method TimeToTm(t: int) returns (tm: Tm)
    ensures BreaksDown(tm, t) && tm.isdst == 0
  {
    hide DaysBeforeYear, DaysBeforeMonth, DaysInMonth, YearDays;
    Floored(t, 86400);
    var days, rest := Quotient(t, 86400), Remainder(t, 86400);
    if rest < 0 {
      rest, days := rest + 86400, days - 1;
    }
    var hour := rest / 3600;
    rest := rest % 3600;
    var wday := WeekdayOf(days);
    var year, yday := YearOf(days);
    var mon, mday := MonthOf(year, yday);
    tm := Tm(rest % 60, rest / 60, hour, mday, mon, year - 1900, wday, yday, 0);
  }

  // ---- Fields to seconds ----

  /** The year and month the month field really means. */
  function RealYear(tm: Tm): int {
    tm.year + 1900 + tm.mon / 12
  }

  function RealMonth(tm: Tm): int {
    tm.mon % 12
  }

  /** The days that seconds, minutes and hours outside their ranges carry over. */
  function CarriedDays(tm: Tm): int {
    (tm.hour + (tm.min + tm.sec / 60) / 60) / 24
  }

  /** The instant the fields describe, whether or not they are in range. */
  function Instant(tm: Tm): int {
    (DaysBeforeYear(RealYear(tm)) + DaysBeforeMonth(RealYear(tm), RealMonth(tm)) + tm.mday - 1) * 86400
    + tm.hour * 3600 + tm.min * 60 + tm.sec
  }

  /** The loops that add up the days of whole years. */
  method SumYears(year: int) returns (days: int)
    ensures days == DaysBeforeYear(year)
  {
    days := 0;
    if year >= 1970 {
      var y := 1970;
      while y < year
        invariant 1970 <= y <= year && days == DaysBeforeYear(y)
      {
        days := days + YearDays(y);
        y := y + 1;
      }
    } else {
      var y := year;
      while y < 1970
        invariant year <= y <= 1970 && days + DaysBeforeYear(y) == DaysBeforeYear(year)
      {
        NextYear(y);
        days := days - YearDays(y);
        y := y + 1;
      }
    }
  }

  /** Carrying through seconds, minutes and hours loses nothing. */
  lemma CarryAddsUp(tm: Tm)
    ensures var m := tm.min + tm.sec / 60;
      var h := tm.hour + m / 60;
      tm.hour * 3600 + tm.min * 60 + tm.sec == CarriedDays(tm) * 86400 + h % 24 * 3600 + m % 60 * 60 + tm.sec % 60
  {
  }

  /** The date part of `mktime`'s outcome: from the fields, or again from the day number when days were carried. */
  method DateFields(tm: Tm, days: int) returns (year: int, mon: int, mday: int, yday: int)
    requires days == DaysBeforeYear(RealYear(tm)) + DaysBeforeMonth(RealYear(tm), RealMonth(tm)) + tm.mday - 1 + CarriedDays(tm)
    ensures CarriedDays(tm) == 0 ==> year == RealYear(tm) && mon == RealMonth(tm) && mday == tm.mday
    ensures CarriedDays(tm) != 0 ==> 0 <= mon < 12 && 1 <= mday <= DaysInMonth(year, mon)
    ensures yday == DaysBeforeMonth(year, mon) + mday - 1 && days == DaysBeforeYear(year) + yday
  {
    hide DaysBeforeYear, DaysBeforeMonth, DaysInMonth, YearDays;
    year, mon, mday := RealYear(tm), RealMonth(tm), tm.mday;
    yday := DaysBeforeMonth(year, mon) + mday - 1;
    if CarriedDays(tm) != 0 {
      year, yday := YearOf(days);
      mon, mday := MonthOf(year, yday);
    }
  }

  /**
   `mktime`: returns the instant the fields describe. The fields it writes are the broken-down time of
   that instant if and only if days were carried or the day already was in its month.
   */
  method MkTime(tm: Tm) returns (t: int, out: Tm)
    ensures t == Instant(tm) && out.isdst == tm.isdst
    ensures BreaksDown(out, t) <==>
      CarriedDays(tm) != 0 || 1 <= tm.mday <= DaysInMonth(RealYear(tm), RealMonth(tm))
    ensures Instant(out) == t && 0 <= out.sec < 60 && 0 <= out.min < 60 && 0 <= out.hour < 24 && 0 <= out.mon < 12
    ensures out.wday == (t / 86400 + 4) % 7 && out.yday == DaysBeforeMonth(out.year + 1900, out.mon) + out.mday - 1
    ensures CarriedDays(tm) == 0 ==> out.year + 1900 == RealYear(tm) && out.mon == RealMonth(tm) && out.mday == tm.mday
  {
    hide DaysBeforeYear, DaysBeforeMonth, DaysInMonth, YearDays;
    var extraMinutes, sec := Carry(tm.sec, 60);
    var extraHours, min := Carry(tm.min + extraMinutes, 60);
    var extraDays, hour := Carry(tm.hour + extraHours, 24);
    var extraYears, mon0 := Carry(tm.mon, 12);
    CarryAddsUp(tm);
    var days := SumYears(tm.year + 1900 + extraYears);
    days := days + DaysBeforeMonth(tm.year + 1900 + extraYears, mon0) + (tm.mday - 1) + extraDays;
    var year, mon, mday, yday := DateFields(tm, days);
    var wday := WeekdayOf(days);
    out := Tm(sec, min, hour, mday, mon, year - 1900, wday, yday, tm.isdst);
    t := days * 86400 + hour * 3600 + min * 60 + sec;
  }

  /** `mktime` undoes `time_to_tm` and leaves its fields as they are. */
  method RoundTrip(t: int) returns (back: int, tm: Tm, out: Tm)
    ensures BreaksDown(tm, t) && back == t && out == tm
  {
    tm := TimeToTm(t);
    NormalInstant(tm, t);
    back, out := MkTime(tm);
    BreaksDownUnique(out, tm, t);
  }

  lemma NormalInstant(tm: Tm, t: int)
    requires BreaksDown(tm, t)
    ensures Instant(tm) == t && CarriedDays(tm) == 0
    ensures RealYear(tm) == tm.year + 1900 && RealMonth(tm) == tm.mon
  {
  }

  /** A day outside its month is left as it is, so what `mktime` writes is not the broken-down time: 1970-01-32. */
  method DayOutsideMonth() returns (t: int, out: Tm)
    ensures t == 31 * 86400 && out.mday == 32 && out.mon == 0 && out.year == 70 && !BreaksDown(out, t)
  {
    t, out := MkTime(Tm(0, 0, 0, 32, 0, 70, 0, 0, 0));
    assert DaysBeforeYear(1970) == 0 && DaysInMonth(1970, 0) == 31;
  }
}
