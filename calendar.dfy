/** The proleptic Gregorian calendar at nanosecond resolution, as pandas'
    `Period` and `Timestamp` use it for the date strings a datetime filter
    accepts. An instant is a calendar date plus the nanoseconds elapsed since
    that day's UTC midnight. */
module Calendar {
  import opened Wrappers
  import opened Text

  datatype Date = Date(year: int, month: int, day: int)

  /** Gregorian leap years: every fourth year, except centuries not divisible by 400. */
  predicate IsLeapYear(y: int) {
    y % 4 == 0 && (y % 100 != 0 || y % 400 == 0)
  }

  function DaysInMonth(y: int, m: int): (n: int)
    requires 1 <= m <= 12
    ensures 28 <= n <= 31
    ensures n == 29 <==> m == 2 && IsLeapYear(y)
  {
    if m == 2 then (if IsLeapYear(y) then 29 else 28)
    else if m == 4 || m == 6 || m == 9 || m == 11 then 30
    else 31
  }

  predicate ValidDate(d: Date) {
    1 <= d.month <= 12 && 1 <= d.day <= DaysInMonth(d.year, d.month)
  }

  /** The day after `d`, rolling over month and year ends. */
  function NextDay(d: Date): (e: Date)
    requires ValidDate(d)
    ensures ValidDate(e)
  {
    if d.day < DaysInMonth(d.year, d.month) then Date(d.year, d.month, d.day + 1)
    else if d.month < 12 then Date(d.year, d.month + 1, 1)
    else Date(d.year + 1, 1, 1)
  }

  const NanosPerSecond: nat := 1_000_000_000
  const NanosPerDay: nat := 86_400 * NanosPerSecond

  /** The nanosecond of the day written hh:mm:ss.fffffffff. */
  function TimeOfDay(h: nat, m: nat, s: nat, ns: nat): nat {
    ((h * 60 + m) * 60 + s) * NanosPerSecond + ns
  }

  /** 23:59:59.999999999, the last nanosecond of a day. */
  const LastNanoOfDay: nat := TimeOfDay(23, 59, 59, 999_999_999)

  datatype Instant = Instant(date: Date, nanos: int)

  predicate ValidInstant(t: Instant) {
    ValidDate(t.date) && 0 <= t.nanos < NanosPerDay
  }

  /** Chronological order: `a` is not later than `b`. */
  predicate NotAfter(a: Instant, b: Instant) {
    if a.date.year != b.date.year then a.date.year < b.date.year
    else if a.date.month != b.date.month then a.date.month < b.date.month
    else if a.date.day != b.date.day then a.date.day < b.date.day
    else a.nanos <= b.nanos
  }

  predicate Before(a: Instant, b: Instant) {
    NotAfter(a, b) && a != b
  }

  /** The instant one nanosecond after `t`. */
  function Successor(t: Instant): (u: Instant)
    requires ValidInstant(t)
    ensures ValidInstant(u) && Before(t, u)
  {
    if t.nanos < LastNanoOfDay then Instant(t.date, t.nanos + 1)
    else Instant(NextDay(t.date), 0)
  }

  /** Nothing lies strictly between an instant and its successor. */
  lemma SuccessorIsNext(t: Instant, u: Instant)
    requires ValidInstant(t) && ValidInstant(u)
    ensures Before(t, u) <==> NotAfter(Successor(t), u)
  {
  }

  /** A calendar period at the granularity a date string is written in. */
  datatype Period =
    | Year(year: int)
    | Month(year: int, month: int)
    | Day(year: int, month: int, day: int)

  predicate ValidPeriod(p: Period) {
    match p
    case Year(_) => true
    case Month(_, m) => 1 <= m <= 12
    case Day(y, m, d) => ValidDate(Date(y, m, d))
  }

  /** Membership of an instant in a period, by its calendar fields. */
  predicate InPeriod(t: Instant, p: Period) {
    match p
    case Year(y) => t.date.year == y
    case Month(y, m) => t.date.year == y && t.date.month == m
    case Day(y, m, d) => t.date == Date(y, m, d)
  }

  /** `Period.start_time`: the first instant of the period. */
  function PeriodStart(p: Period): (t: Instant)
    requires ValidPeriod(p)
    ensures ValidInstant(t) && InPeriod(t, p)
  {
    match p
    case Year(y) => Instant(Date(y, 1, 1), 0)
    case Month(y, m) => Instant(Date(y, m, 1), 0)
    case Day(y, m, d) => Instant(Date(y, m, d), 0)
  }

  /** `Period.end_time`: the last nanosecond of the period. */
  function PeriodEnd(p: Period): (t: Instant)
    requires ValidPeriod(p)
    ensures ValidInstant(t) && InPeriod(t, p)
  {
    match p
    case Year(y) => Instant(Date(y, 12, 31), LastNanoOfDay)
    case Month(y, m) => Instant(Date(y, m, DaysInMonth(y, m)), LastNanoOfDay)
    case Day(y, m, d) => Instant(Date(y, m, d), LastNanoOfDay)
  }

  /** The period of the same granularity that follows `p`. */
  function NextPeriod(p: Period): (q: Period)
    requires ValidPeriod(p)
    ensures ValidPeriod(q)
  {
    match p
    case Year(y) => Year(y + 1)
    case Month(y, m) => if m < 12 then Month(y, m + 1) else Month(y + 1, 1)
    case Day(y, m, d) =>
      var e := NextDay(Date(y, m, d));
      Day(e.year, e.month, e.day)
  }

  /** A valid instant lies in a period exactly when it lies between the
      period's start and end, so the start is the period's first instant and
      the end its last. */
  lemma PeriodBounds(p: Period, t: Instant)
    requires ValidPeriod(p) && ValidInstant(t)
    ensures InPeriod(t, p) <==> NotAfter(PeriodStart(p), t) && NotAfter(t, PeriodEnd(p))
  {
  }

  /** The end of a period is immediately followed by the start of the next one:
      the end is inclusive to the last nanosecond. */
  lemma PeriodEndAdjoinsNext(p: Period)
    requires ValidPeriod(p)
    ensures Successor(PeriodEnd(p)) == PeriodStart(NextPeriod(p))
  {
  }

  /** A period ends no earlier than it starts. */
  lemma PeriodStartNotAfterEnd(p: Period)
    requires ValidPeriod(p)
    ensures NotAfter(PeriodStart(p), PeriodEnd(p))
  {
    PeriodBounds(p, PeriodStart(p));
  }

  // Date strings

  /** The date strings accepted as periods: `YYYY`, `YYYY-MM` and `YYYY-MM-DD`,
      with a year from 0001 to 9999 and a month and day that exist. Any other
      string is not a period. */
  function ParsePeriod(s: string): (r: Option<Period>)
    ensures r.Some? ==> ValidPeriod(r.value) && 1 <= r.value.year <= 9999
  {
    assert Pow10(4) == 10000;
    if |s| == 4 && AllDigits(s) then
      var y := DigitsValue(s);
      if 1 <= y then Some(Year(y)) else None
    else if |s| == 7 && s[4] == '-' && AllDigits(s[..4]) && AllDigits(s[5..]) then
      var y, m := DigitsValue(s[..4]), DigitsValue(s[5..]);
      if 1 <= y && 1 <= m <= 12 then Some(Month(y, m)) else None
    else if |s| == 10 && s[4] == '-' && s[7] == '-'
      && AllDigits(s[..4]) && AllDigits(s[5..7]) && AllDigits(s[8..]) then
      var y, m, d := DigitsValue(s[..4]), DigitsValue(s[5..7]), DigitsValue(s[8..]);
      if 1 <= y && ValidDate(Date(y, m, d)) then Some(Day(y, m, d)) else None
    else None
  }

  /** The canonical string of a period (pandas' `str(period)`). */
  function FormatPeriod(p: Period): string
    requires ValidPeriod(p) && 1 <= p.year <= 9999
  {
    match p
    case Year(y) => PadDigits(y, 4)
    case Month(y, m) => PadDigits(y, 4) + "-" + PadDigits(m, 2)
    case Day(y, m, d) => PadDigits(y, 4) + "-" + PadDigits(m, 2) + "-" + PadDigits(d, 2)
  }

  /** Parsing the canonical string of a period gives the period back. */
  lemma ParseFormatPeriod(p: Period)
    requires ValidPeriod(p) && 1 <= p.year <= 9999
    ensures ParsePeriod(FormatPeriod(p)) == Some(p)
  {
    DigitsValuePad(p.year, 4);
    match p
    case Year(y) =>
    case Month(y, m) => ParseFormatMonth(y, m);
    case Day(y, m, d) => ParseFormatDay(y, m, d);
  }

  lemma ParseFormatMonth(y: int, m: int)
    requires 1 <= y <= 9999 && 1 <= m <= 12
    ensures ParsePeriod(FormatPeriod(Month(y, m))) == Some(Month(y, m))
  {
    var s := FormatPeriod(Month(y, m));
    DigitsValuePad(y, 4);
    DigitsValuePad(m, 2);
    assert s[..4] == PadDigits(y, 4) && s[5..] == PadDigits(m, 2);
    assert |s| == 7 && s[4] == '-' && AllDigits(s[..4]) && AllDigits(s[5..]);
  }

  lemma ParseFormatDay(y: int, m: int, d: int)
    requires 1 <= y <= 9999 && ValidDate(Date(y, m, d))
    ensures ParsePeriod(FormatPeriod(Day(y, m, d))) == Some(Day(y, m, d))
  {
    var s := FormatPeriod(Day(y, m, d));
    DigitsValuePad(y, 4);
    DigitsValuePad(m, 2);
    DigitsValuePad(d, 2);
    assert s[..4] == PadDigits(y, 4) && s[5..7] == PadDigits(m, 2) && s[8..] == PadDigits(d, 2);
    assert |s| == 10 && s[4] == '-' && s[7] == '-';
    assert AllDigits(s[..4]) && AllDigits(s[5..7]) && AllDigits(s[8..]);
  }

  /** Every string accepted as a period is that period's canonical string. */
  lemma FormatParsePeriod(s: string)
    requires ParsePeriod(s).Some?
    ensures FormatPeriod(ParsePeriod(s).value) == s
  {
    if |s| == 4 {
      PadDigitsValue(s);
    } else if |s| == 7 {
      PadDigitsValue(s[..4]);
      PadDigitsValue(s[5..]);
      assert s == s[..4] + "-" + s[5..];
    } else {
      PadDigitsValue(s[..4]);
      PadDigitsValue(s[5..7]);
      PadDigitsValue(s[8..]);
      assert s == s[..4] + "-" + s[5..7] + "-" + s[8..];
    }
  }
}
