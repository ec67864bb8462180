/**
 * Monday-to-Sunday week windows. The scripts carry four textually identical
 * copies of one function (`getWeekRange`, `getWeekMondayToSunday`); all four are
 * modelled by WeekMondayToSunday below, together with the day shift and the
 * "last Sunday" default used for the weekly report.
 */
module Weeks {
  import opened Wrappers
  import opened Strs
  import opened Calendar

  /** An inclusive date range, both ends `YYYY-MM-DD`. */
  datatype Window = Window(start: string, end: string)

  /** The Sunday on or before `day`: an offset of 0 for a Sunday, else back by the week day. */
  function WeekEndDay(day: int): (sunday: int)
    ensures WeekDay(sunday) == 0 && sunday <= day && day - sunday <= 6
    ensures WeekDay(sunday - 6) == 1
  {
    var wd := WeekDay(day);
    day + (if wd == 0 then 0 else -wd)
  }

  /** There is exactly one Sunday among any seven consecutive days. */
  lemma SundayUnique(day: int, s: int)
    requires WeekDay(s) == 0 && s <= day && day - s <= 6
    ensures s == WeekEndDay(day)
  {
    var e := WeekEndDay(day);
    assert (s + 4) % 7 == 0 && (e + 4) % 7 == 0;
    assert -6 <= s - e <= 6;
  }

  lemma SundayWeekBefore(sunday: int)
    requires WeekDay(sunday) == 0
    ensures WeekDay(sunday - 7) == 0
  {
    assert (sunday - 7 + 4) % 7 == (sunday + 4) % 7;
  }

  lemma WeekEndOfSunday(day: int)
    requires WeekDay(day) == 0
    ensures WeekEndDay(day) == day
  {
  }

  /**
   * `getWeekMondayToSunday(dateStr)`: the week window ending on or before the
   * date. None where `new Date(dateStr + 'T12:00:00Z')` is invalid (the script
   * then throws from `toISOString`) or a bound falls outside years 0000..9999.
   */
  function WeekMondayToSunday(dateStr: string): (w: Option<Window>)
    ensures w.Some? ==> ParseIsoDay(dateStr).Some?
  {
    match ParseIsoDay(dateStr)
    case None => None
    case Some(d) => WindowEndingOn(WeekEndDay(d))
  }

  /** The Monday-to-Sunday window whose Sunday is day `sunday`, when both bounds print. */
  function WindowEndingOn(sunday: int): (w: Option<Window>)
  {
    if ToIso(sunday - 6).Some? && ToIso(sunday).Some? then
      Some(Window(ToIso(sunday - 6).value, ToIso(sunday).value))
    else
      None
  }

  /** The window's end is the Sunday on or before the date and its start the Monday six days earlier. */
  lemma WeekWindowSpec(dateStr: string)
    requires WeekMondayToSunday(dateStr).Some?
    ensures ParseIsoDay(WeekMondayToSunday(dateStr).value.end) == Some(WeekEndDay(ParseIsoDay(dateStr).value))
    ensures ParseIsoDay(WeekMondayToSunday(dateStr).value.start) == Some(WeekEndDay(ParseIsoDay(dateStr).value) - 6)
    ensures LexLess(WeekMondayToSunday(dateStr).value.start, WeekMondayToSunday(dateStr).value.end)
  {
    var d := ParseIsoDay(dateStr).value;
    var e := WeekEndDay(d);
    assert WeekMondayToSunday(dateStr) == WindowEndingOn(e);
    ParseToIso(e);
    ParseToIso(e - 6);
    ToIsoOrder(e - 6, e);
  }

  /** A Sunday is the end of its own window, and the window ends on or before the date (as strings too). */
  lemma WeekWindowEndsOnOrBefore(dateStr: string)
    requires CanonicalIso(dateStr) && WeekMondayToSunday(dateStr).Some?
    ensures LexLe(WeekMondayToSunday(dateStr).value.end, dateStr)
    ensures WeekDay(ParseIsoDay(dateStr).value) == 0 <==> WeekMondayToSunday(dateStr).value.end == dateStr
  {
    var d := ParseIsoDay(dateStr).value;
    var e := WeekEndDay(d);
    ToIsoParse(dateStr);
    ToIsoOrder(d, e);
    ParseToIso(e);
    if ToIso(e).value == dateStr {
      assert e == d;
    }
  }

  /** A date and the six days after it, up to the next Saturday, share one window. */
  lemma WeekWindowSameWeek(s1: string, s2: string)
    requires ParseIsoDay(s1).Some? && ParseIsoDay(s2).Some?
    requires WeekDay(ParseIsoDay(s1).value) == 0
    requires ParseIsoDay(s1).value <= ParseIsoDay(s2).value <= ParseIsoDay(s1).value + 6
    ensures WeekMondayToSunday(s1) == WeekMondayToSunday(s2)
  {
    var d1, d2 := ParseIsoDay(s1).value, ParseIsoDay(s2).value;
    SundayUnique(d2, d1);
    WeekEndOfSunday(d1);
    assert WeekMondayToSunday(s1) == WindowEndingOn(d1);
    assert WeekMondayToSunday(s2) == WindowEndingOn(d1);
  }

  /** `shiftDate(dateStr, n)`: the date n days later (earlier for negative n). */
  function ShiftDate(dateStr: string, n: int): (r: Option<string>)
    ensures r.Some? ==> ParseIsoDay(dateStr).Some?
  {
    if ParseIsoDay(dateStr).None? then None else ToIso(ParseIsoDay(dateStr).value + n)
  }

  /** The shifted string names the day n days after the given one. */
  lemma ShiftDateSpec(dateStr: string, n: int)
    requires ShiftDate(dateStr, n).Some?
    ensures ParseIsoDay(ShiftDate(dateStr, n).value) == Some(ParseIsoDay(dateStr).value + n)
  {
    ParseToIso(ParseIsoDay(dateStr).value + n);
  }

  lemma ShiftIso(day: int, n: int)
    requires ToIso(day).Some?
    ensures ShiftDate(ToIso(day).value, n) == ToIso(day + n)
  {
    ParseToIso(day);
  }

  /** Shifting forth and back returns the date itself. */
  lemma ShiftRoundTrip(dateStr: string, n: int)
    requires CanonicalIso(dateStr) && ShiftDate(dateStr, n).Some?
    ensures ShiftDate(ShiftDate(dateStr, n).value, -n) == Some(dateStr)
  {
    ToIsoParse(dateStr);
    ShiftDateSpec(dateStr, n);
    var d := ParseIsoDay(dateStr).value;
    var shifted := ShiftDate(dateStr, n).value;
    assert ParseIsoDay(shifted).value + -n == d;
  }

  /** The week before a window: both bounds shifted back seven days. */
  function PreviousWeek(w: Window): (p: Option<Window>)
    ensures p.Some? ==> ShiftDate(w.start, -7).Some? && ShiftDate(w.end, -7).Some?
  {
    var s, e := ShiftDate(w.start, -7), ShiftDate(w.end, -7);
    if s.Some? && e.Some? then Some(Window(s.value, e.value)) else None
  }

  /** The previous week of a date's window is the window of the date a week earlier. */
  lemma PreviousWeekIsWeekBefore(dateStr: string)
    requires WeekMondayToSunday(dateStr).Some?
    requires ShiftDate(dateStr, -7).Some?
    ensures WeekMondayToSunday(ShiftDate(dateStr, -7).value) == PreviousWeek(WeekMondayToSunday(dateStr).value)
  {
    var d := ParseIsoDay(dateStr).value;
    var e := WeekEndDay(d);
    assert WeekMondayToSunday(dateStr) == WindowEndingOn(e);
    PreviousWindow(e);
    ShiftDateSpec(dateStr, -7);
    SundayWeekBefore(e);
    SundayUnique(d - 7, e - 7);
    WindowOfDay(ShiftDate(dateStr, -7).value, d - 7, e - 7);
  }

  /** The window of a string naming day d is the window ending on d's Sunday. */
  lemma WindowOfDay(s: string, d: int, sunday: int)
    requires ParseIsoDay(s) == Some(d) && sunday == WeekEndDay(d)
    ensures WeekMondayToSunday(s) == WindowEndingOn(sunday)
  {
  }

  /** Shifting a printable window back a week gives the window ending seven days earlier. */
  lemma PreviousWindow(sunday: int)
    requires WindowEndingOn(sunday).Some?
    ensures PreviousWeek(WindowEndingOn(sunday).value) == WindowEndingOn(sunday - 7)
  {
    ShiftBothBack(sunday - 6, sunday);
    assert sunday - 6 - 7 == sunday - 7 - 6;
  }

  lemma ShiftBothBack(a: int, b: int)
    requires ToIso(a).Some? && ToIso(b).Some?
    ensures PreviousWeek(Window(ToIso(a).value, ToIso(b).value))
         == if ToIso(a - 7).Some? && ToIso(b - 7).Some? then Some(Window(ToIso(a - 7).value, ToIso(b - 7).value)) else None
  {
    ShiftIso(a, -7);
    ShiftIso(b, -7);
  }

  /**
   * The default week end (`getLastSunday`, and the `weekEnd` default of the
   * weekly report): seven days back on a Sunday, else back to the previous Sunday.
   */
  function LastSundayDay(today: int): (sunday: int)
    ensures WeekDay(sunday) == 0 && sunday < today && today - sunday <= 7
  {
    var wd := WeekDay(today);
    today + (if wd == 0 then -7 else -wd)
  }

  /** The last Sunday is the end of the window of the day before today: the last week that is over. */
  lemma LastSundayIsPreviousWeekEnd(today: int)
    ensures LastSundayDay(today) == WeekEndDay(today - 1)
    ensures WeekDay(today) == 0 ==> LastSundayDay(today) == today - 7
    ensures WeekDay(today) != 0 ==> LastSundayDay(today) == WeekEndDay(today)
  {
    SundayUnique(today - 1, LastSundayDay(today));
    if WeekDay(today) != 0 {
      SundayUnique(today, LastSundayDay(today));
    }
  }

  /** `getLastSunday()` as a string, with today's day number passed in. */
  function LastSunday(today: int): (r: Option<string>)
  {
    ToIso(LastSundayDay(today))
  }

  lemma LastSundaySpec(today: int)
    requires LastSunday(today).Some?
    ensures ParseIsoDay(LastSunday(today).value) == Some(LastSundayDay(today))
    ensures WeekMondayToSunday(LastSunday(today).value).Some? ==>
      WeekMondayToSunday(LastSunday(today).value).value.end == LastSunday(today).value
  {
    ParseToIso(LastSundayDay(today));
    WeekEndOfSunday(LastSundayDay(today));
  }
}
