/**
 * The proleptic Gregorian calendar of ECMAScript's time-value model
 * (ECMA-262 2022, section 21.4.1): a date is a day number counted from
 * 1970-01-01, the week day is (Day + 4) mod 7 (section 21.4.1.6, 0 = Sunday), and
 * dates are printed in the `YYYY-MM-DD` form of the Date Time String Format
 * (section 21.4.1.15), which is what `toISOString().slice(0, 10)` yields.
 */
module Calendar {
  import opened Wrappers
  import opened Strs

  predicate IsLeapYear(y: int) {
    y % 4 == 0 && (y % 100 != 0 || y % 400 == 0)
  }

  function DaysInYear(y: int): (n: int)
    ensures n == 365 || n == 366
  {
    if IsLeapYear(y) then 366 else 365
  }

  /** The day number of January 1 of year y, counted year by year from 1970. */
  function DayFromYear(y: int): int
    decreases if y < 1970 then 1970 - y else y - 1970
  {
    if y == 1970 then 0
    else if y > 1970 then DayFromYear(y - 1) + DaysInYear(y - 1)
    else DayFromYear(y + 1) - DaysInYear(y)
  }

  /** The closed form of DayFromYear in ECMA-262 2022, section 21.4.1.3. */
  function EcmaDayFromYear(y: int): int {
    365 * (y - 1970) + (y - 1969) / 4 - (y - 1901) / 100 + (y - 1601) / 400
  }

  lemma EcmaStep(y: int)
    ensures EcmaDayFromYear(y + 1) == EcmaDayFromYear(y) + DaysInYear(y)
  {
    EcmaFromYearOne(y);
    EcmaFromYearOne(y + 1);
    var a4 := FloorStep(y, 4);
    var a100 := FloorStep(y, 100);
    var a400 := FloorStep(y, 400);
    DivisorsNest(y);
    assert DaysInYear(y) == 365 + a4 - a100 + a400;
  }

  /** The standard's formula, with the leap-day counts taken from year 1. */
  lemma EcmaFromYearOne(y: int)
    ensures EcmaDayFromYear(y) == 365 * (y - 1970) + (y - 1) / 4 - (y - 1) / 100 + (y - 1) / 400 - 477
  {
    assert (y - 1969) / 4 == (y - 1) / 4 - 492;
    assert (y - 1901) / 100 == (y - 1) / 100 - 19;
    assert (y - 1601) / 400 == (y - 1) / 400 - 4;
  }

  /** A multiple of 400 is a multiple of 100, and a multiple of 100 a multiple of 4. */
  lemma DivisorsNest(y: int)
    ensures y % 400 == 0 ==> y % 100 == 0
    ensures y % 100 == 0 ==> y % 4 == 0
  {
    var q400, q100 := y / 400, y / 100;
    if y % 400 == 0 {
      MultipleMod(y, 400 * q400, 4 * q400, 100);
    }
    if y % 100 == 0 {
      MultipleMod(y, 100 * q100, 25 * q100, 4);
    }
  }

  lemma MultipleMod(y: int, z: int, k: int, m: int)
    requires m == 4 || m == 100
    requires y == z && z == m * k
    ensures y % m == 0
  {
  }

  /** Going from year y - 1 to y, the count of multiples of k grows by one exactly when k divides y. */
  lemma FloorStep(y: int, k: int) returns (step: int)
    requires k == 4 || k == 100 || k == 400
    ensures y / k == (y - 1) / k + step
    ensures step == (if y % k == 0 then 1 else 0)
  {
    step := if y % k == 0 then 1 else 0;
  }

  /** The year-by-year count agrees with the standard's formula for every year. */
  lemma {:induction false} DayFromYearIsEcma(y: int)
    ensures DayFromYear(y) == EcmaDayFromYear(y)
    decreases if y < 1970 then 1970 - y else y - 1970
  {
    if y > 1970 {
      DayFromYearIsEcma(y - 1);
      EcmaStep(y - 1);
    } else if y < 1970 {
      DayFromYearIsEcma(y + 1);
      EcmaStep(y);
    }
  }

  /** Consecutive years are DaysInYear apart. */
  lemma DayFromYearStep(y: int)
    ensures DayFromYear(y + 1) == DayFromYear(y) + DaysInYear(y)
  {
  }

  lemma {:induction false} DayFromYearMonotonic(y1: int, y2: int)
    requires y1 < y2
    ensures DayFromYear(y1) + DaysInYear(y1) <= DayFromYear(y2)
    decreases y2 - y1
  {
    DayFromYearStep(y1);
    if y1 + 1 < y2 {
      DayFromYearMonotonic(y1 + 1, y2);
    }
  }

  function MonthLength(y: int, m: int): (n: int)
    requires 1 <= m <= 12
    ensures 28 <= n <= 31
  {
    if m == 2 then (if IsLeapYear(y) then 29 else 28)
    else if m == 4 || m == 6 || m == 9 || m == 11 then 30
    else 31
  }

  /** Days in year y before the first of month m (m == 13: the whole year). */
  function DaysBeforeMonth(y: int, m: int): int
    requires 1 <= m <= 13
  {
    var common := [0, 31, 59, 90, 120, 151, 181, 212, 243, 273, 304, 334, 365][m - 1];
    common + (if m > 2 && IsLeapYear(y) then 1 else 0)
  }

  lemma DaysBeforeMonthStep(y: int, m: int)
    requires 1 <= m <= 12
    ensures DaysBeforeMonth(y, m + 1) == DaysBeforeMonth(y, m) + MonthLength(y, m)
    ensures DaysBeforeMonth(y, 1) == 0 && DaysBeforeMonth(y, 13) == DaysInYear(y)
  {
  }

  lemma {:induction false} DaysBeforeMonthMonotonic(y: int, m1: int, m2: int)
    requires 1 <= m1 < m2 <= 12
    ensures DaysBeforeMonth(y, m1) + MonthLength(y, m1) <= DaysBeforeMonth(y, m2)
    decreases m2 - m1
  {
    DaysBeforeMonthStep(y, m1);
    if m1 + 1 < m2 {
      DaysBeforeMonthMonotonic(y, m1 + 1, m2);
    }
  }

  datatype Civil = Civil(year: int, month: int, day: int)

  /** A real calendar date: a month 1..12 and a day within that month. */
  predicate ValidCivil(c: Civil) {
    1 <= c.month <= 12 && 1 <= c.day <= MonthLength(c.year, c.month)
  }

  /** MakeDay (ECMA-262 2022, section 21.4.1.28) for a date inside its month. */
  function DaysFromCivil(c: Civil): int
    requires ValidCivil(c)
  {
    DayFromYear(c.year) + DaysBeforeMonth(c.year, c.month) + c.day - 1
  }

  /** The year holding the day k days after January 1 of year y, with that day's 0-based index in it. */
  function YearWalk(y: int, k: int): (r: (int, int))
    ensures 0 <= r.1 < DaysInYear(r.0)
    ensures DayFromYear(r.0) + r.1 == DayFromYear(y) + k
    decreases if k < 0 then 366 - k else k
  {
    if k < 0 then
      DayFromYearStep(y - 1);
      YearWalk(y - 1, k + DaysInYear(y - 1))
    else if k >= DaysInYear(y) then
      DayFromYearStep(y);
      YearWalk(y + 1, k - DaysInYear(y))
    else
      (y, k)
  }

  /** The month holding 0-based day `doy` of year y, searching from month m. */
  function MonthFrom(y: int, doy: int, m: int): (r: int)
    requires 1 <= m <= 12 && DaysBeforeMonth(y, m) <= doy < DaysInYear(y)
    ensures m <= r <= 12
    ensures DaysBeforeMonth(y, r) <= doy < DaysBeforeMonth(y, r + 1)
    decreases 12 - m
  {
    DaysBeforeMonthStep(y, m);
    if m == 12 || doy < DaysBeforeMonth(y, m + 1) then m else MonthFrom(y, doy, m + 1)
  }

  /** The calendar date of a day number (the inverse of DaysFromCivil). */
  function CivilFromDays(n: int): (c: Civil)
    ensures ValidCivil(c) && DaysFromCivil(c) == n
  {
    var (y, doy) := YearWalk(1970, n);
    DaysBeforeMonthStep(y, 1);
    var m := MonthFrom(y, doy, 1);
    DaysBeforeMonthStep(y, m);
    Civil(y, m, doy - DaysBeforeMonth(y, m) + 1)
  }

  /** Lexicographic order on (year, month, day). */
  predicate CivilBefore(a: Civil, b: Civil) {
    a.year < b.year || (a.year == b.year && (a.month < b.month || (a.month == b.month && a.day < b.day)))
  }

  /** Later calendar dates have larger day numbers. */
  lemma DaysFromCivilMonotonic(a: Civil, b: Civil)
    requires ValidCivil(a) && ValidCivil(b) && CivilBefore(a, b)
    ensures DaysFromCivil(a) < DaysFromCivil(b)
  {
    DaysBeforeMonthStep(a.year, a.month);
    DaysBeforeMonthStep(a.year, 12);
    if a.month < 12 {
      DaysBeforeMonthMonotonic(a.year, a.month, 12);
    }
    if a.year < b.year {
      DayFromYearMonotonic(a.year, b.year);
    } else if a.month < b.month {
      DaysBeforeMonthMonotonic(a.year, a.month, b.month);
    }
  }

  lemma DaysFromCivilInjective(a: Civil, b: Civil)
    requires ValidCivil(a) && ValidCivil(b) && DaysFromCivil(a) == DaysFromCivil(b)
    ensures a == b
  {
    if CivilBefore(a, b) {
      DaysFromCivilMonotonic(a, b);
    } else if CivilBefore(b, a) {
      DaysFromCivilMonotonic(b, a);
    }
  }

  /** Round trip: a real calendar date survives conversion to a day number and back. */
  lemma CivilRoundTrip(c: Civil)
    requires ValidCivil(c)
    ensures CivilFromDays(DaysFromCivil(c)) == c
  {
    DaysFromCivilInjective(CivilFromDays(DaysFromCivil(c)), c);
  }

  /** The week day of a day number: 0 = Sunday, 1 = Monday, ..., 6 = Saturday. */
  function WeekDay(day: int): (w: int)
    ensures 0 <= w < 7
  {
    (day + 4) % 7
  }

  /** 1970-01-01 was a Thursday. */
  lemma EpochIsThursday()
    ensures WeekDay(DaysFromCivil(Civil(1970, 1, 1))) == 4
  {
    assert DaysFromCivil(Civil(1970, 1, 1)) == 0 by {
      assert DayFromYear(1970) == 0;
    }
  }

  lemma WeekDayShift(day: int, k: int)
    ensures WeekDay(day + 7 * k) == WeekDay(day)
  {
  }

  /** A year printable with four digits by toISOString. */
  predicate FourDigitYear(c: Civil) {
    0 <= c.year <= 9999
  }

  /** `YYYY-MM-DD` of a calendar date. */
  function IsoOf(c: Civil): (s: string)
    requires ValidCivil(c) && FourDigitYear(c)
    ensures |s| == 10
  {
    Pad(c.year, 4) + "-" + Pad(c.month, 2) + "-" + Pad(c.day, 2)
  }

  /** Two equal-length heads joined by a dash compare head first. */
  lemma DashConcat(a: string, b: string, c: string, d: string)
    requires |a| == |b|
    ensures LexLess(a + "-" + c, b + "-" + d) <==> LexLess(a, b) || (a == b && LexLess(c, d))
    ensures a + "-" + c == b + "-" + d <==> a == b && c == d
  {
    assert a + "-" + c == a + ("-" + c) && b + "-" + d == b + ("-" + d);
    LexLessConcat(a, b, "-" + c, "-" + d);
    LexLessConcat("-", "-", c, d);
    LexLessIrreflexive("-");
    if a + "-" + c == b + "-" + d {
      assert a == (a + "-" + c)[..|a|] && b == (b + "-" + d)[..|b|];
      assert c == (a + "-" + c)[|a| + 1..] && d == (b + "-" + d)[|b| + 1..];
    }
  }

  /** The ISO strings of dates compare, as JavaScript strings, like the dates. */
  lemma IsoOfOrder(a: Civil, b: Civil)
    requires ValidCivil(a) && FourDigitYear(a) && ValidCivil(b) && FourDigitYear(b)
    ensures LexLess(IsoOf(a), IsoOf(b)) <==> CivilBefore(a, b)
  {
    var ya, yb := Pad(a.year, 4), Pad(b.year, 4);
    var ma, mb := Pad(a.month, 2), Pad(b.month, 2);
    DashConcat(ya + "-" + ma, yb + "-" + mb, Pad(a.day, 2), Pad(b.day, 2));
    DashConcat(ya, yb, ma, mb);
    PadOrder(a.year, b.year, 4);
    PadOrder(a.month, b.month, 2);
    PadOrder(a.day, b.day, 2);
    if ya == yb { PadInjective(a.year, b.year, 4); }
    if ma == mb { PadInjective(a.month, b.month, 2); }
  }

  /** `new Date(d).toISOString().slice(0, 10)` for a day number; years outside
      0000..9999 print in the expanded form, which this model does not render. */
  function ToIso(day: int): (r: Option<string>)
    ensures r.Some? <==> FourDigitYear(CivilFromDays(day))
    ensures r.Some? ==> |r.value| == 10
  {
    var c := CivilFromDays(day);
    if FourDigitYear(c) then Some(IsoOf(c)) else None
  }

  /** For printable dates, string order of the ISO forms is day order. */
  lemma ToIsoOrder(d1: int, d2: int)
    requires ToIso(d1).Some? && ToIso(d2).Some?
    ensures LexLess(ToIso(d1).value, ToIso(d2).value) <==> d1 < d2
  {
    var a, b := CivilFromDays(d1), CivilFromDays(d2);
    IsoOfOrder(a, b);
    if CivilBefore(a, b) {
      DaysFromCivilMonotonic(a, b);
    } else if CivilBefore(b, a) {
      DaysFromCivilMonotonic(b, a);
    }
  }

  /** Field values of a date-only string `YYYY`, `YYYY-MM` or `YYYY-MM-DD`. */
  function DateFields(s: string): (r: Option<Civil>)
    ensures r.Some? ==> 0 <= r.value.year <= 9999 && 1 <= r.value.month <= 12 && 1 <= r.value.day <= 31
  {
    if |s| == 4 && DigitsAt(s, 0, 4) then
      Some(Civil(ValueAt(s, 0, 4), 1, 1))
    else if |s| == 7 && DigitsAt(s, 0, 4) && s[4] == '-' && DigitsAt(s, 5, 2) then
      var m := ValueAt(s, 5, 2);
      if 1 <= m <= 12 then Some(Civil(ValueAt(s, 0, 4), m, 1)) else None
    else if |s| == 10 && DigitsAt(s, 0, 4) && s[4] == '-' && DigitsAt(s, 5, 2) && s[7] == '-' && DigitsAt(s, 8, 2) then
      var m := ValueAt(s, 5, 2);
      var d := ValueAt(s, 8, 2);
      if 1 <= m <= 12 && 1 <= d <= 31 then Some(Civil(ValueAt(s, 0, 4), m, d)) else None
    else
      None
  }

  /**
   * The day number of `new Date(s + 'T12:00:00Z')`, or None where that is an
   * invalid date. A day of month past the month's length (up to 31) rolls into
   * the next month, as MakeDay does.
   */
  function ParseIsoDay(s: string): (r: Option<int>)
    ensures r.Some? <==> DateFields(s).Some?
  {
    match DateFields(s)
    case None => None
    case Some(c) => Some(DayFromYear(c.year) + DaysBeforeMonth(c.year, c.month) + c.day - 1)
  }

  /** Printing a date and reading it back gives the same day. */
  lemma ParseToIso(day: int)
    requires ToIso(day).Some?
    ensures ParseIsoDay(ToIso(day).value) == Some(day)
  {
    var c := CivilFromDays(day);
    IsoFields(c);
  }

  /** The fields of a printed date read back as the date. */
  lemma IsoFields(c: Civil)
    requires ValidCivil(c) && FourDigitYear(c)
    ensures DateFields(IsoOf(c)) == Some(c)
  {
    var s := IsoOf(c);
    assert s[0..4] == Pad(c.year, 4);
    assert s[5..7] == Pad(c.month, 2);
    assert s[8..10] == Pad(c.day, 2);
    DigitsAtSlice(s, 0, 4);
    DigitsAtSlice(s, 5, 2);
    DigitsAtSlice(s, 8, 2);
    ParsePad(c.year, 4);
    ParsePad(c.month, 2);
    ParsePad(c.day, 2);
  }

  /** A full date string naming a real date is printed back unchanged. */
  predicate CanonicalIso(s: string) {
    |s| == 10 && DateFields(s).Some? && ValidCivil(DateFields(s).value)
  }

  lemma ToIsoParse(s: string)
    requires CanonicalIso(s)
    ensures ParseIsoDay(s).Some? && ToIso(ParseIsoDay(s).value) == Some(s)
  {
    var c := DateFields(s).value;
    FieldsPrint(s);
    CivilRoundTrip(c);
    assert ParseIsoDay(s) == Some(DaysFromCivil(c));
  }

  lemma SplitTen(s: string)
    requires |s| == 10
    ensures s == s[0..4] + [s[4]] + s[5..7] + [s[7]] + s[8..10]
  {
  }

  /** The fields of a canonical date string print back as that string. */
  lemma FieldsPrint(s: string)
    requires CanonicalIso(s)
    ensures IsoOf(DateFields(s).value) == s
  {
    var c := DateFields(s).value;
    assert c == Civil(ValueAt(s, 0, 4), ValueAt(s, 5, 2), ValueAt(s, 8, 2));
    PrintField(s, 0, 4);
    PrintField(s, 5, 2);
    PrintField(s, 8, 2);
    SplitTen(s);
  }

  lemma ToIsoCanonical(day: int)
    requires ToIso(day).Some?
    ensures CanonicalIso(ToIso(day).value)
  {
    IsoFields(CivilFromDays(day));
  }
}
