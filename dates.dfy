/**
 * Calendar arithmetic of src/utils/date.ts: whether a string names a real
 * proleptic-Gregorian date, the date one day later, and the all-day
 * {start, end} pair. Dates are (year, month, day) triples; the text form is
 * DateFormat's.
 */
module Dates {
  import opened Wrappers
  import opened DateFormat

  /**
   * The error `toISOString` throws on an invalid `Date` ("Invalid time
   * value"). The thrown error does not carry the input; the model tags it
   * with the offending date string so that contracts can name it.
   */
  datatype DateError = InvalidDate(date: string)

  /** The half-open all-day span of one date: `end` is the next day. */
  datatype DateRange = DateRange(start: string, end: string)

  predicate IsLeapYear(y: int) {
    y % 4 == 0 && (y % 100 != 0 || y % 400 == 0)
  }

  function DaysInMonth(y: int, m: int): (n: int)
    requires 1 <= m <= 12
    ensures 28 <= n <= 31
  {
    if m == 2 then (if IsLeapYear(y) then 29 else 28)
    else if m == 4 || m == 6 || m == 9 || m == 11 then 30
    else 31
  }

  /** A real calendar date (years from 0000, as the input format allows). */
  predicate IsValidDate(d: Date) {
    0 <= d.year && 1 <= d.month <= 12 && 1 <= d.day <= DaysInMonth(d.year, d.month)
  }

  // ---------------------------------------------------------------------------
  // An independent reference: the number of days since 0000-01-01.

  function YearLength(y: int): int {
    if IsLeapYear(y) then 366 else 365
  }

  function DaysBeforeYear(y: nat): nat {
    if y == 0 then 0 else DaysBeforeYear(y - 1) + YearLength(y - 1)
  }

  /** Days in the months of year `y` before month `m`. */
  function DaysBeforeMonth(y: int, m: int): (n: nat)
    requires 1 <= m <= 12
  {
    var leap := if IsLeapYear(y) && m > 2 then 1 else 0;
    [0, 31, 59, 90, 120, 151, 181, 212, 243, 273, 304, 334][m - 1] + leap
  }

  function DayNumber(d: Date): int
    requires IsValidDate(d)
  {
    DaysBeforeYear(d.year) + DaysBeforeMonth(d.year, d.month) + d.day - 1
  }

  // ---------------------------------------------------------------------------
  // One day later and one day earlier.

  /** The calendar date after `d`, rolling over month and year ends. */
  function NextDay(d: Date): (n: Date)
    requires IsValidDate(d)
    ensures IsValidDate(n)
  {
    if d.day < DaysInMonth(d.year, d.month) then Date(d.year, d.month, d.day + 1)
    else if d.month < 12 then Date(d.year, d.month + 1, 1)
    else Date(d.year + 1, 1, 1)
  }

  /** The calendar date before `d`; there is none before 0000-01-01. */
  function PrevDay(d: Date): (p: Date)
    requires IsValidDate(d) && d != Date(0, 1, 1)
    ensures IsValidDate(p)
  {
    if d.day > 1 then Date(d.year, d.month, d.day - 1)
    else if d.month > 1 then Date(d.year, d.month - 1, DaysInMonth(d.year, d.month - 1))
    else Date(d.year - 1, 12, 31)
  }

  /** NextDay advances the day count by exactly one. */
  lemma NextDayIsOneDayLater(d: Date)
    requires IsValidDate(d)
    ensures DayNumber(NextDay(d)) == DayNumber(d) + 1
  {
    if d.day == DaysInMonth(d.year, d.month) && d.month == 12 {
      assert DaysBeforeYear(d.year + 1) == DaysBeforeYear(d.year) + YearLength(d.year);
    }
  }

  lemma {:induction false} DaysBeforeYearGrows(a: nat, b: nat)
    requires a < b
    ensures DaysBeforeYear(a) + YearLength(a) <= DaysBeforeYear(b)
  {
    if a + 1 < b {
      DaysBeforeYearGrows(a, b - 1);
    }
  }

  /** Different real dates have different day counts. */
  lemma DayNumberInjective(a: Date, b: Date)
    requires IsValidDate(a) && IsValidDate(b)
    requires DayNumber(a) == DayNumber(b)
    ensures a == b
  {
    if a.year < b.year {
      DaysBeforeYearGrows(a.year, b.year);
      assert false;
    } else if b.year < a.year {
      DaysBeforeYearGrows(b.year, a.year);
      assert false;
    }
  }

  /** NextDay is the one and only real date a day later than `d`. */
  lemma NextDayUnique(d: Date, e: Date)
    requires IsValidDate(d) && IsValidDate(e)
    ensures DayNumber(e) == DayNumber(d) + 1 <==> e == NextDay(d)
  {
    NextDayIsOneDayLater(d);
    if DayNumber(e) == DayNumber(d) + 1 {
      DayNumberInjective(e, NextDay(d));
    }
  }

  lemma PrevDayNextDay(d: Date)
    requires IsValidDate(d)
    ensures NextDay(d) != Date(0, 1, 1) && PrevDay(NextDay(d)) == d
  {
  }

  // ---------------------------------------------------------------------------
  // The three exported functions of src/utils/date.ts.

  /**
   * `parseISO` followed by the validity check, restricted to the
   * `YYYY-MM-DD` form: the triple the string spells, when it is a real date.
   */
  function ParseIsoDate(s: string): (r: Option<Date>)
    ensures r.Some? ==> IsValidDate(r.value) && 0 <= r.value.year < 10000 && Format(r.value) == s
    ensures r.None? ==> forall d :: IsValidDate(d) && d.year < 10000 ==> Format(d) != s
  {
    if IsDateShaped(s) && IsValidDate(FieldsOf(s)) then
      FormatFieldsOf(s);
      Some(FieldsOf(s))
    else
      assert forall d :: IsValidDate(d) && d.year < 10000 ==> Format(d) != s by {
        forall d | IsValidDate(d) && d.year < 10000 && Format(d) == s
          ensures false
        {
          FieldsOfFormat(d);
        }
      }
      None
  }

  /** `validateDate`: whether `parseISO` yields a valid date. */
  function ValidateDate(s: string): bool {
    ParseIsoDate(s).Some?
  }

  /** `validateDate` is true exactly for the rendering of a real calendar date. */
  lemma ValidateDateIffRealDate(s: string)
    ensures ValidateDate(s) <==> exists d :: IsValidDate(d) && d.year < 10000 && Format(d) == s
  {
    if ValidateDate(s) {
      var d := ParseIsoDate(s).value;
      assert IsValidDate(d) && d.year < 10000 && Format(d) == s;
    }
  }

  /**
   * `getNextDay`, read on calendar dates with no time zone: the rendering of
   * the next calendar day, or the error `toISOString` throws when the input is
   * not a real date.
   */
  function GetNextDay(s: string): (r: Result<string, DateError>)
    ensures r.Err? <==> !ValidateDate(s)
    ensures r.Err? ==> r.error == InvalidDate(s)
  {
    match ParseIsoDate(s)
    case None => Err(InvalidDate(s))
    case Some(d) => Ok(Format(NextDay(d)))
  }

  /** `formatDateForCalendar`: the input unchanged as start, the next day as end. */
  function FormatDateForCalendar(s: string): (r: Result<DateRange, DateError>)
    ensures r.Err? <==> !ValidateDate(s)
    ensures r.Err? ==> r.error == InvalidDate(s)
    ensures r.Ok? ==> r.value.start == s && GetNextDay(s) == Ok(r.value.end)
  {
    match GetNextDay(s)
    case Err(e) => Err(e)
    case Ok(end) => Ok(DateRange(s, end))
  }

  /** Parsing the rendering of a real four-digit-year date gives that date back. */
  lemma ParseIsoDateFormat(d: Date)
    requires IsValidDate(d) && d.year < 10000
    ensures ParseIsoDate(Format(d)) == Some(d)
  {
    FieldsOfFormat(d);
  }

  /** The rendering of a triple that is not a real date is rejected. */
  lemma ParseIsoDateRejects(d: Date)
    requires 0 <= d.year < 10000 && 0 <= d.month < 100 && 0 <= d.day < 100
    requires !IsValidDate(d)
    ensures ParseIsoDate(Format(d)) == None
  {
    FieldsOfFormat(d);
  }

  /** For a real date, the result is the rendering of the next calendar day. */
  lemma GetNextDayOfRealDate(s: string)
    requires ValidateDate(s)
    ensures exists d :: && IsValidDate(d) && d.year < 10000 && Format(d) == s
                        && GetNextDay(s) == Ok(Format(NextDay(d)))
  {
    var d := ParseIsoDate(s).value;
    assert IsValidDate(d) && d.year < 10000 && Format(d) == s;
  }

  /** The end of a range is the rendering of the unique date one day after its start. */
  lemma GetNextDayIsOneDayLater(d: Date)
    requires IsValidDate(d) && d.year < 10000
    ensures exists n :: IsValidDate(n) && n.year <= 10000 && DayNumber(n) == DayNumber(d) + 1
                        && GetNextDay(Format(d)) == Ok(Format(n))
  {
    ParseIsoDateFormat(d);
    NextDayIsOneDayLater(d);
    var n := NextDay(d);
    assert IsValidDate(n) && n.year <= 10000 && DayNumber(n) == DayNumber(d) + 1;
  }

  /**
   * The next day is again `YYYY-MM-DD`-shaped, so it passes the schema's
   * pattern, except after 9999-12-31, which renders as `+010000-01-01`.
   */
  lemma GetNextDayShape(s: string)
    requires ValidateDate(s)
    ensures IsDateShaped(GetNextDay(s).value) <==> s != "9999-12-31"
  {
    var d := ParseIsoDate(s).value;
    var last := Date(9999, 12, 31);
    LastDayRendering();
    if d == last {
      ExtendedYearNotShaped(NextDay(d));
    } else {
      FieldsOfFormat(NextDay(d));
      FieldsOfFormat(d);
      FieldsOfFormat(last);
    }
  }

  lemma LastDayRendering()
    ensures Format(Date(9999, 12, 31)) == "9999-12-31"
  {
  }

  lemma NextDayExampleLeapYear()
    ensures GetNextDay("2024-02-28") == Ok("2024-02-29")
  {
    assert Format(Date(2024, 2, 28)) == "2024-02-28";
    assert Format(Date(2024, 2, 29)) == "2024-02-29";
    assert IsLeapYear(2024) && NextDay(Date(2024, 2, 28)) == Date(2024, 2, 29);
    ParseIsoDateFormat(Date(2024, 2, 28));
  }

  lemma NextDayExampleCommonYear()
    ensures GetNextDay("2023-02-28") == Ok("2023-03-01")
  {
    assert Format(Date(2023, 2, 28)) == "2023-02-28";
    assert Format(Date(2023, 3, 1)) == "2023-03-01";
    ParseIsoDateFormat(Date(2023, 2, 28));
  }

  lemma NextDayExampleYearEnd()
    ensures GetNextDay("2024-12-31") == Ok("2025-01-01")
  {
    assert Format(Date(2024, 12, 31)) == "2024-12-31";
    assert Format(Date(2025, 1, 1)) == "2025-01-01";
    ParseIsoDateFormat(Date(2024, 12, 31));
  }

  /** Lexically well-formed strings that are not real dates make getNextDay fail. */
  lemma NextDayExamplesNotADate()
    ensures GetNextDay("2024-02-30").Err? && GetNextDay("2024-13-01").Err?
  {
    assert Format(Date(2024, 2, 30)) == "2024-02-30";
    assert Format(Date(2024, 13, 1)) == "2024-13-01";
    ParseIsoDateRejects(Date(2024, 2, 30));
    ParseIsoDateRejects(Date(2024, 13, 1));
  }

  // ---------------------------------------------------------------------------
  // getNextDay as the source computes it: `parseISO` reads a date-only string
  // as LOCAL midnight, `addDays` moves to the next local midnight, and
  // `toISOString().split('T')[0]` takes the UTC date of that instant.

  /**
   * The UTC date of local midnight on `local`, in a zone `offsetMinutes`
   * ahead of UTC (less than a day either way, no daylight saving): east of
   * UTC that instant falls on the previous UTC date.
   */
  function UtcDateOfLocalMidnight(local: Date, offsetMinutes: int): (u: Date)
    requires IsValidDate(local) && local != Date(0, 1, 1)
    requires -1440 < offsetMinutes < 1440
    ensures IsValidDate(u)
  {
    if offsetMinutes > 0 then PrevDay(local) else local
  }

  function GetNextDayInZone(s: string, offsetMinutes: int): (r: Result<string, DateError>)
    requires -1440 < offsetMinutes < 1440
    ensures r.Err? <==> !ValidateDate(s)
  {
    match ParseIsoDate(s)
    case None => Err(InvalidDate(s))
    case Some(d) =>
      PrevDayNextDay(d);
      Ok(Format(UtcDateOfLocalMidnight(NextDay(d), offsetMinutes)))
  }

  /**
   * On a host east of UTC the source's `getNextDay` returns its input, so the
   * all-day event it builds would end where it starts; on UTC or west of it,
   * it agrees with GetNextDay.
   */
  lemma GetNextDayInZoneAsWritten(s: string, offsetMinutes: int)
    requires -1440 < offsetMinutes < 1440 && ValidateDate(s)
    ensures offsetMinutes > 0 ==> GetNextDayInZone(s, offsetMinutes) == Ok(s) != GetNextDay(s)
    ensures offsetMinutes <= 0 ==> GetNextDayInZone(s, offsetMinutes) == GetNextDay(s)
  {
    var d := ParseIsoDate(s).value;
    PrevDayNextDay(d);
    NextDayIsOneDayLater(d);
    var n := NextDay(d);
    if n.year < 10000 {
      FieldsOfFormat(n);
      FieldsOfFormat(d);
    } else {
      ExtendedYearNotShaped(n);
      FieldsOfFormat(d);
    }
  }

  /** Central European Summer Time (UTC+2): the "next day" of 2024-06-01 is 2024-06-01. */
  lemma GetNextDayInZoneExample()
    ensures GetNextDayInZone("2024-06-01", 120) == Ok("2024-06-01")
    ensures GetNextDay("2024-06-01") == Ok("2024-06-02")
  {
    assert Format(Date(2024, 6, 1)) == "2024-06-01";
    assert Format(Date(2024, 6, 2)) == "2024-06-02";
    ParseIsoDateFormat(Date(2024, 6, 1));
  }
}
