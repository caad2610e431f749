/**
 * `--week 2026-W35`: from an ISO week to a moment in it
 * (backend/scripts/send-inventory-report.js, lines 130-147).
 *
 * Days are counted from 1 January 1970, which was a Thursday; years follow the full Gregorian rule.
 */
module IsoWeek {
  import opened Options
  import opened JsText

  const MS_PER_DAY := 24 * 3600 * 1000

  // ---------------------------------------------------------------------------------------
  // The calendar
  // ---------------------------------------------------------------------------------------

  predicate IsLeap(y: int) {
    y % 4 == 0 && (y % 100 != 0 || y % 400 == 0)
  }

  function DaysInYear(y: int): int {
    if IsLeap(y) then 366 else 365
  }

  /** The day number of 1 January (ECMA-262, Year Number). */
  function DayFromYear(y: int): int {
    365 * (y - 1970) + (y - 1969) / 4 - (y - 1901) / 100 + (y - 1601) / 400
  }

  lemma {:induction false} Every4(n: int)
    ensures (n + 1 - 1969) / 4 == (n - 1969) / 4 + if n % 4 == 0 then 1 else 0
  {
    var q, r := n / 4, n % 4;
    assert n - 1969 == 4 * (q - 493) + r + 3;
  }

  lemma {:induction false} Every100(n: int)
    ensures (n + 1 - 1901) / 100 == (n - 1901) / 100 + if n % 100 == 0 then 1 else 0
  {
    var q, r := n / 100, n % 100;
    assert n - 1901 == 100 * (q - 20) + r + 99;
  }

  lemma {:induction false} Every400(n: int)
    ensures (n + 1 - 1601) / 400 == (n - 1601) / 400 + if n % 400 == 0 then 1 else 0
  {
    var q, r := n / 400, n % 400;
    assert n - 1601 == 400 * (q - 5) + r + 399;
  }

  lemma {:induction false} Multiple(y: int, k: int, q: int)
    requires k == 4 || k == 100
    requires y == k * q
    ensures y % k == 0
  {
    if k == 4 {
      assert y == 4 * q;
    } else {
      assert y == 100 * q;
    }
  }

  lemma {:induction false} LeapCount(y: int)
    ensures (if IsLeap(y) then 1 else 0)
            == (if y % 4 == 0 then 1 else 0) - (if y % 100 == 0 then 1 else 0) + (if y % 400 == 0 then 1 else 0)
  {
    if y % 400 == 0 {
      Multiple(y, 100, 4 * (y / 400));
    }
    if y % 100 == 0 {
      Multiple(y, 4, 25 * (y / 100));
    }
  }

  /** The closed form counts the days of every year, by the full leap rule. */
  lemma {:induction false} YearLength(y: int)
    ensures DayFromYear(y + 1) == DayFromYear(y) + DaysInYear(y)
  {
    hide IsLeap;
    Every4(y);
    Every100(y);
    Every400(y);
    LeapCount(y);
  }

  ghost predicate InYear(day: int, y: int) {
    DayFromYear(y) <= day < DayFromYear(y + 1)
  }

  lemma {:induction false} YearsInOrder(y: int, z: int)
    requires y <= z
    ensures DayFromYear(y) + 365 * (z - y) <= DayFromYear(z)
    decreases z - y
  {
    if y < z {
      YearLength(y);
      YearsInOrder(y + 1, z);
    }
  }

  lemma {:induction false} YearUnique(day: int, y: int, z: int)
    requires InYear(day, y) && InYear(day, z)
    ensures y == z
  {
    if y < z {
      YearsInOrder(y + 1, z);
    } else if z < y {
      YearsInOrder(z + 1, y);
    }
  }

  /** `getUTCDay()`: Sunday is 0. */
  function UtcDay(day: int): int {
    (day + 4) % 7
  }

  // ---------------------------------------------------------------------------------------
  // ISO 8601 week dates
  // ---------------------------------------------------------------------------------------

  /** Sections 2.2.10 and 4.1.4 of ISO 8601:2004: weeks start on Monday ... */
  function ThursdayOf(day: int): int {
    day - (day + 3) % 7 + 3
  }

  /** ... belong to the year their Thursday is in, and week 01 is the one with its first Thursday. */
  ghost predicate HasIsoWeek(day: int, y: int, w: int) {
    InYear(ThursdayOf(day), y) && w == (ThursdayOf(day) - DayFromYear(y)) / 7 + 1
  }

  /** Years of 53 weeks start on a Thursday, or on a Wednesday when leap. */
  function WeeksIn(y: int): int {
    var first := UtcDay(DayFromYear(y));
    if first == 4 || (first == 3 && IsLeap(y)) then 53 else 52
  }

  lemma {:induction false} IsoWeekUnique(day: int, y: int, w: int, z: int, v: int)
    requires HasIsoWeek(day, y, w) && HasIsoWeek(day, z, v)
    ensures y == z && w == v
  {
    YearUnique(ThursdayOf(day), y, z);
  }

  // ---------------------------------------------------------------------------------------
  // The script
  // ---------------------------------------------------------------------------------------

  /** `Date.UTC` reads the years 0 to 99 as 1900 to 1999. */
  function UtcYear(y: nat): int {
    if y <= 99 then 1900 + y else y
  }

  /** The pattern `^(\d{4})-W(\d{1,2})$`. */
  function ParseWeek(text: string): Option<(nat, nat)> {
    if 7 <= |text| <= 8 && AllDigits(text[..4]) && text[4..6] == "-W" && AllDigits(text[6..])
    then Some((ValueOf(text[..4]), ValueOf(text[6..]))) else None
  }

  /** An argument is a week exactly when it is four digits, `-W`, and one or two digits, and means those two numbers. */
  lemma {:induction false} WeekReadExactlyWhen(text: string, y: nat, w: nat)
    ensures ParseWeek(text) == Some((y, w)) <==>
            exists a, b :: && |a| == 4 && 1 <= |b| <= 2 && AllDigits(a) && AllDigits(b) && text == a + "-W" + b
                           && y == ValueOf(a) && w == ValueOf(b)
  {
    hide ValueOf;
    if ParseWeek(text) == Some((y, w)) {
      var a, b := text[..4], text[6..];
      assert text == a + "-W" + b;
    }
    if a, b :| |a| == 4 && 1 <= |b| <= 2 && AllDigits(a) && AllDigits(b) && text == a + "-W" + b
               && y == ValueOf(a) && w == ValueOf(b) {
      assert text[..4] == a && text[4..6] == "-W" && text[6..] == b;
    }
  }

  /** The day the script lands on, as a function of the week asked for. */
  function DayFor(year: nat, week: nat): int {
    var jan4 := DayFromYear(UtcYear(year)) + 3;
    jan4 - (UtcDay(jan4) + 6) % 7 + 7 * (week - 1) + 3
  }

  /** The moment the report is run for, in milliseconds; None when the argument is not a week. */
  method MomentFor(argument: string) returns (now: Option<int>)
    ensures var parsed := ParseWeek(Trim(argument));
            now == if parsed.None? then None else Some(DayFor(parsed.value.0, parsed.value.1) * MS_PER_DAY)
  {
    hide ParseWeek, Trim, DayFromYear, UtcDay;
    var parsed := ParseWeek(Trim(argument));
    if parsed.None? {
      return None;
    }
    var (year, week) := parsed.value;
    var weekNo: int := week;
    var first := DayFromYear(UtcYear(year));
    var jan4 := first + 4 - 1;
    var isoMonday := jan4;
    // setUTCDate counts from the first of the month and may run into the year before
    isoMonday := first + (4 - (UtcDay(jan4) + 6) % 7) - 1;
    now := Some(isoMonday * MS_PER_DAY + (weekNo - 1) * 7 * 24 * 3600 * 1000 + 3 * 24 * 3600 * 1000);
  }

  lemma {:induction false} WeekDayShift(q: int, k: nat)
    requires k < 21
    ensures (7 * q + k) % 7 == if k < 7 then k else if k < 14 then k - 7 else k - 14
  {
  }

  /** How far after 1 January the first Thursday is. */
  function ToThursday(first: int): (k: nat)
    ensures k < 7
  {
    (7 - first % 7) % 7
  }

  lemma {:induction false} FirstThursday(first: int)
    ensures (first + ToThursday(first)) % 7 == 0
    ensures first + 3 - (UtcDay(first + 3) + 6) % 7 + 3 == first + ToThursday(first)
    ensures UtcDay(first) == 4 <==> ToThursday(first) == 0
    ensures UtcDay(first) == 3 <==> ToThursday(first) == 1
  {
    var q, r := first / 7, first % 7;
    WeekDayShift(q, r + 4);
    WeekDayShift(q, r + 7);
    WeekDayShift(q, r + 13);
    assert first + 3 == 7 * q + r + 3;
    assert UtcDay(first + 3) == r;
  }

  lemma {:induction false} DayForThursday(year: nat, week: nat)
    ensures var first := DayFromYear(UtcYear(year));
            DayFor(year, week) == first + ToThursday(first) + 7 * (week - 1)
    ensures DayFor(year, week) % 7 == 0 && UtcDay(DayFor(year, week)) == 4 && ThursdayOf(DayFor(year, week)) == DayFor(year, week)
  {
    var first := DayFromYear(UtcYear(year));
    FirstThursday(first);
    var q := (first + ToThursday(first)) / 7 + (week - 1);
    assert DayFor(year, week) == 7 * q;
    WeekDayShift(q, 0);
    WeekDayShift(q, 4);
    WeekDayShift(q, 3);
  }

  lemma {:induction false} ThursdaysOfYear(y: int, week: int)
    requires 0 <= week <= 99
    ensures var first := DayFromYear(y);
            InYear(first + ToThursday(first) + 7 * (week - 1), y) <==> 1 <= week <= WeeksIn(y)
  {
    YearLength(y);
    FirstThursday(DayFromYear(y));
  }

  /**
   * The day is a Thursday of the year asked for, in the week asked for, exactly when the year is
   * 100 or later and the week number exists in it.
   */
  lemma {:induction false} LandsInTheWeek(year: nat, week: nat)
    requires year <= 9999 && week <= 99
    ensures UtcDay(DayFor(year, week)) == 4
    ensures HasIsoWeek(DayFor(year, week), year, week) <==> year >= 100 && 1 <= week <= WeeksIn(year)
    ensures year >= 100 && 1 <= week <= WeeksIn(year) ==> InYear(DayFor(year, week), year)
  {
    hide DayFromYear, DayFor;
    var y := UtcYear(year);
    var day, first := DayFor(year, week), DayFromYear(y);
    DayForThursday(year, week);
    if year >= 100 {
      ThursdaysOfYear(year, week);
      assert (ToThursday(first) + 7 * (week - 1)) / 7 == week - 1;
    } else {
      YearsInOrder(year + 1, y - 1);
      YearsInOrder(y - 1, y);
      assert day >= DayFromYear(year + 1);
    }
  }

  /** A year below 100 is taken for one of the twentieth century: the day is in that year's week. */
  lemma {:induction false} EarlyYearIsNineteenHundred(year: nat, week: nat)
    requires year <= 99 && 1 <= week <= WeeksIn(1900 + year)
    ensures HasIsoWeek(DayFor(year, week), 1900 + year, week) && DayFor(year, week) == DayFor(1900 + year, week)
  {
    hide DayFromYear;
    LandsInTheWeek(1900 + year, week);
  }

  /** And it is the only one: every day of a week leads back to that week's Thursday. */
  lemma {:induction false} EveryWeekIsReached(day: int, y: nat, w: int)
    requires HasIsoWeek(day, y, w) && y >= 100
    ensures 1 <= w <= WeeksIn(y)
    ensures DayFor(y, w) == ThursdayOf(day)
  {
    hide DayFromYear, DayFor;
    var first, t := DayFromYear(y), ThursdayOf(day);
    ThursdayIsThursday(day);
    FirstThursday(first);
    ThursdayFrom(first, t);
    YearLength(y);
    DayForThursday(y, w);
    ThursdaysOfYear(y, w);
  }

  lemma {:induction false} ThursdayIsThursday(day: int)
    ensures ThursdayOf(day) % 7 == 0
  {
    var q, r := (day + 3) / 7, (day + 3) % 7;
    assert ThursdayOf(day) == 7 * q;
    WeekDayShift(q, 0);
  }

  lemma {:induction false} ThursdayFrom(first: int, t: int)
    requires first <= t && t % 7 == 0
    ensures t == first + ToThursday(first) + 7 * ((t - first) / 7)
  {
    FirstThursday(first);
    var a := first + ToThursday(first);
    assert t - a == 7 * (t / 7 - a / 7);
  }

  // ---------------------------------------------------------------------------------------
  // Through the argument
  // ---------------------------------------------------------------------------------------

  /** How a week is written: 2026-W35. */
  function WeekLabel(y: nat, w: nat): string {
    Padded(y, 4) + "-W" + Padded(w, 2)
  }

  lemma {:induction false} Powers()
    ensures Pow10(2) == 100 && Pow10(4) == 10000
  {
    assert Pow10(1) == 10;
    assert Pow10(3) == 1000;
  }

  lemma {:induction false} LabelParses(y: nat, w: nat)
    requires y <= 9999 && w <= 99
    ensures ParseWeek(Trim(WeekLabel(y, w))) == Some((y, w))
  {
    hide Padded, ValueOf, Trim;
    var s := WeekLabel(y, w);
    assert IsDigit(s[0]) && IsDigit(s[|s| - 1]);
    TrimFixed(s);
    assert s[..4] == Padded(y, 4) && s[4..6] == "-W" && s[6..] == Padded(w, 2);
    Powers();
    PaddedValue(y, 4);
    PaddedValue(w, 2);
  }

  /** Asking for the week of any day from year 100 to 9999 runs the report inside that very week. */
  lemma {:induction false} AskedWeekIsRun(day: int, y: nat, w: nat)
    requires HasIsoWeek(day, y, w) && 100 <= y <= 9999
    ensures var parsed := ParseWeek(Trim(WeekLabel(y, w)));
            parsed.Some? && HasIsoWeek(DayFor(parsed.value.0, parsed.value.1), y, w)
  {
    EveryWeekIsReached(day, y, w);
    LabelParses(y, w);
    LandsInTheWeek(y, w);
  }
}
