/** Timestamps as stored by Django's `DateTimeField` (in UTC), their order,
    and the rendering of their calendar date by `str(dt.date())`. */
module Times {
  import opened Strings

  /** A point in time: a calendar date and the microsecond within that day. */
  datatype DateTime = DateTime(year: int, month: int, day: int, micros: int)

  /** The calendar date of a timestamp (Python's `datetime.date()`). */
  datatype Date = Date(year: int, month: int, day: int)

  const MicrosPerDay: int := 86_400_000_000

  predicate IsLeapYear(y: int) {
    y % 4 == 0 && (y % 100 != 0 || y % 400 == 0)
  }

  function DaysInMonth(y: int, m: int): (d: int)
    requires 1 <= m <= 12
    ensures 28 <= d <= 31
  {
    if m == 2 then (if IsLeapYear(y) then 29 else 28)
    else if m == 4 || m == 6 || m == 9 || m == 11 then 30
    else 31
  }

  /** The values Python's `datetime` can hold (years 1 to 9999). */
  predicate ValidDateTime(t: DateTime) {
    && 1 <= t.year <= 9999
    && 1 <= t.month <= 12
    && 1 <= t.day <= DaysInMonth(t.year, t.month)
    && 0 <= t.micros < MicrosPerDay
  }

  /** `a < b` on timestamps: the chronological order, lexicographic on
      (year, month, day, microsecond). */
  predicate Before(a: DateTime, b: DateTime) {
    || a.year < b.year
    || (a.year == b.year && a.month < b.month)
    || (a.year == b.year && a.month == b.month && a.day < b.day)
    || (a.year == b.year && a.month == b.month && a.day == b.day && a.micros < b.micros)
  }

  /** `Before` is a strict total order. */
  lemma BeforeIsStrictTotalOrder(a: DateTime, b: DateTime, c: DateTime)
    ensures !Before(a, a)
    ensures Before(a, b) ==> !Before(b, a)
    ensures Before(a, b) && Before(b, c) ==> Before(a, c)
    ensures a == b || Before(a, b) || Before(b, a)
  {
  }

  function DateOf(t: DateTime): (d: Date)
    ensures d.year == t.year && d.month == t.month && d.day == t.day
  {
    Date(t.year, t.month, t.day)
  }

  /** `str(d)` of a Python date: ISO format `YYYY-MM-DD`. */
  function DateString(d: Date): (r: string)
    requires 1 <= d.year <= 9999 && 1 <= d.month <= 12 && 1 <= d.day <= 31
    ensures |r| == 10 && r[4] == '-' && r[7] == '-'
    ensures AllDigits(r[..4]) && AllDigits(r[5..7]) && AllDigits(r[8..])
  {
    NatToStringWidth(d.year, 4);
    NatToStringWidth(d.month, 2);
    NatToStringWidth(d.day, 2);
    ZeroPad(d.year, 4) + "-" + ZeroPad(d.month, 2) + "-" + ZeroPad(d.day, 2)
  }

  /** Where the three parts sit in a `YYYY-MM-DD` rendering. */
  lemma DateParts(y: string, m: string, d: string)
    requires |y| == 4 && |m| == 2 && |d| == 2
    ensures var r := y + "-" + m + "-" + d;
      r[..4] == y && r[5..7] == m && r[8..] == d
  {
  }

  /** The date can be read back from its rendering. */
  lemma DateStringRoundTrip(d: Date)
    requires 1 <= d.year <= 9999 && 1 <= d.month <= 12 && 1 <= d.day <= 31
    ensures var r := DateString(d);
      ParseNat(r[..4]) == d.year && ParseNat(r[5..7]) == d.month && ParseNat(r[8..]) == d.day
  {
    NatToStringWidth(d.year, 4);
    NatToStringWidth(d.month, 2);
    NatToStringWidth(d.day, 2);
    DateParts(ZeroPad(d.year, 4), ZeroPad(d.month, 2), ZeroPad(d.day, 2));
    ParseZeroPad(d.year, 4);
    ParseZeroPad(d.month, 2);
    ParseZeroPad(d.day, 2);
  }
}
