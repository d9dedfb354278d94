/** Calendar dates as Python's datetime.date sees them: the proleptic Gregorian
    calendar, years 1 to 9999, day ordinals (date.toordinal()), weekday(), and
    the strptime/strftime/isoformat conversions the scripts use. */
module Dates {
  import opened Wrappers
  import opened Text

  /** A calendar date as a (day, month, year) triple. */
  datatype Date = Date(day: int, month: int, year: int)

  predicate IsLeap(y: int) {
    y % 4 == 0 && (y % 100 != 0 || y % 400 == 0)
  }

  function DaysInMonth(m: int, y: int): (n: int)
    requires 1 <= m <= 12
    ensures 28 <= n <= 31
  {
    if m == 2 then (if IsLeap(y) then 29 else 28)
    else if m == 4 || m == 6 || m == 9 || m == 11 then 30
    else 31
  }

  function DaysInYear(y: int): int {
    if IsLeap(y) then 366 else 365
  }

  /** A date Python can represent (MINYEAR = 1, MAXYEAR = 9999). */
  predicate Valid(d: Date) {
    1 <= d.year <= 9999 && 1 <= d.month <= 12 && 1 <= d.day <= DaysInMonth(d.month, d.year)
  }

  /** A date Python can represent. */
  type Day = d: Date | Valid(d) witness Date(1, 1, 1)

  /** Days in the years before year y (Python's _days_before_year). */
  function DaysBeforeYear(y: int): int
    requires y >= 1
  {
    var p := y - 1;
    p * 365 + p / 4 - p / 100 + p / 400
  }

  /** Days in the months of year y before month m; m == 13 gives the whole year. */
  function DaysBeforeMonth(m: int, y: int): int
    requires 1 <= m <= 13
  {
    if m == 1 then 0 else DaysBeforeMonth(m - 1, y) + DaysInMonth(m - 1, y)
  }

  /** Python's date.toordinal(): 0001-01-01 is day 1. */
  function Ordinal(d: Date): int
    requires Valid(d)
  {
    DaysBeforeYear(d.year) + DaysBeforeMonth(d.month, d.year) + d.day
  }

  const MaxOrdinal: int := 3652059

  /** Python's date.weekday(): Monday is 0, Sunday is 6. */
  function Weekday(d: Date): (w: int)
    requires Valid(d)
    ensures 0 <= w < 7
  {
    (Ordinal(d) + 6) % 7
  }

  // ---------------------------------------------------------------------
  // Ordinal arithmetic
  // ---------------------------------------------------------------------

  lemma DivStep4(p: int)
    requires p >= 0
    ensures (p + 1) / 4 == p / 4 + (if (p + 1) % 4 == 0 then 1 else 0)
  {
  }

  lemma DivStep100(p: int)
    requires p >= 0
    ensures (p + 1) / 100 == p / 100 + (if (p + 1) % 100 == 0 then 1 else 0)
  {
  }

  lemma DivStep400(p: int)
    requires p >= 0
    ensures (p + 1) / 400 == p / 400 + (if (p + 1) % 400 == 0 then 1 else 0)
  {
  }

  lemma DivisorsOfCenturies(y: int)
    ensures y % 400 == 0 ==> y % 100 == 0
    ensures y % 100 == 0 ==> y % 4 == 0
  {
  }

  lemma DaysBeforeYearStep(y: int)
    requires y >= 1
    ensures DaysBeforeYear(y + 1) == DaysBeforeYear(y) + DaysInYear(y)
  {
    DivStep4(y - 1);
    DivStep100(y - 1);
    DivStep400(y - 1);
    DivisorsOfCenturies(y);
  }

  lemma {:induction false} DaysBeforeMonthMonotone(m: int, n: int, y: int)
    requires 1 <= m <= n <= 13
    ensures DaysBeforeMonth(m, y) + 28 * (n - m) <= DaysBeforeMonth(n, y)
    decreases n - m
  {
    if m < n { DaysBeforeMonthMonotone(m, n - 1, y); }
  }

  lemma DaysBeforeMonthYear(y: int)
    ensures DaysBeforeMonth(13, y) == DaysInYear(y)
  {
    var f := DaysInMonth(2, y);
    assert DaysBeforeMonth(2, y) == 31;
    assert DaysBeforeMonth(3, y) == 31 + f;
    assert DaysBeforeMonth(4, y) == 62 + f;
    assert DaysBeforeMonth(5, y) == 92 + f;
    assert DaysBeforeMonth(6, y) == 123 + f;
    assert DaysBeforeMonth(7, y) == 153 + f;
    assert DaysBeforeMonth(8, y) == 184 + f;
    assert DaysBeforeMonth(9, y) == 215 + f;
    assert DaysBeforeMonth(10, y) == 245 + f;
    assert DaysBeforeMonth(11, y) == 276 + f;
    assert DaysBeforeMonth(12, y) == 306 + f;
    assert DaysBeforeMonth(13, y) == 337 + f;
  }

  lemma DaysBeforeYearLast()
    ensures DaysBeforeYear(10000) == MaxOrdinal
  {
  }

  lemma {:induction false} DaysBeforeYearMonotone(y: int, z: int)
    requires 1 <= y <= z
    ensures DaysBeforeYear(y) + 365 * (z - y) <= DaysBeforeYear(z)
    decreases z - y
  {
    if y < z {
      DaysBeforeYearMonotone(y, z - 1);
      DaysBeforeYearStep(z - 1);
    }
  }

  /** Every representable date has an ordinal between 1 and that of 9999-12-31. */
  lemma OrdinalBounds(d: Date)
    requires Valid(d)
    ensures 1 <= Ordinal(d) <= MaxOrdinal
  {
    DaysBeforeMonthMonotone(1, d.month, d.year);
    DaysBeforeMonthMonotone(d.month + 1, 13, d.year);
    DaysBeforeMonthYear(d.year);
    DaysBeforeYearMonotone(1, d.year);
    DaysBeforeYearStep(d.year);
    DaysBeforeYearMonotone(d.year + 1, 10000);
    DaysBeforeYearLast();
  }

  /** Python's date comparison: (year, month, day) in lexicographic order. */
  predicate Before(a: Date, b: Date) {
    a.year < b.year || (a.year == b.year && (a.month < b.month || (a.month == b.month && a.day < b.day)))
  }

  /** A number that orders valid dates as Python compares them: the sort
      key of a date. */
  function DateRank(d: Date): int {
    d.year * 512 + d.month * 32 + d.day
  }

  lemma DateRankOrder(a: Date, b: Date)
    requires Valid(a) && Valid(b)
    ensures Before(a, b) <==> DateRank(a) < DateRank(b)
    ensures DateRank(a) == DateRank(b) <==> a == b
  {
  }

  /** Comparing dates is comparing their ordinals. */
  lemma BeforeIsOrdinalLess(a: Date, b: Date)
    requires Valid(a) && Valid(b)
    ensures Before(a, b) <==> Ordinal(a) < Ordinal(b)
    ensures Ordinal(a) == Ordinal(b) <==> a == b
  {
    if Before(a, b) {
      OrdinalBeforeStep(a, b);
    } else if Before(b, a) {
      OrdinalBeforeStep(b, a);
    }
  }

  lemma OrdinalBeforeStep(a: Date, b: Date)
    requires Valid(a) && Valid(b) && Before(a, b)
    ensures Ordinal(a) < Ordinal(b)
  {
    if a.year < b.year {
      DaysBeforeMonthMonotone(a.month + 1, 13, a.year);
      DaysBeforeMonthYear(a.year);
      DaysBeforeYearStep(a.year);
      DaysBeforeYearMonotone(a.year + 1, b.year);
      DaysBeforeMonthMonotone(1, b.month, b.year);
    } else if a.month < b.month {
      DaysBeforeMonthMonotone(a.month + 1, b.month, a.year);
    }
  }

  /** The next calendar day. */
  function Succ(d: Date): (r: Date)
    requires Valid(d) && Ordinal(d) < MaxOrdinal
    ensures Valid(r) && Ordinal(r) == Ordinal(d) + 1
  {
    if d.day < DaysInMonth(d.month, d.year) then Date(d.day + 1, d.month, d.year)
    else if d.month < 12 then Date(1, d.month + 1, d.year)
    else
      DaysBeforeYearStep(d.year);
      DaysBeforeMonthYear(d.year);
      DaysBeforeYearLast();
      Date(1, 1, d.year + 1)
  }

  /** The previous calendar day. */
  function Pred(d: Date): (r: Date)
    requires Valid(d) && Ordinal(d) > 1
    ensures Valid(r) && Ordinal(r) == Ordinal(d) - 1
  {
    if d.day > 1 then Date(d.day - 1, d.month, d.year)
    else if d.month > 1 then Date(DaysInMonth(d.month - 1, d.year), d.month - 1, d.year)
    else
      DaysBeforeYearStep(d.year - 1);
      DaysBeforeMonthYear(d.year - 1);
      Date(31, 12, d.year - 1)
  }

  /** Python's `d + timedelta(days=n)`, for results inside the representable range. */
  function AddDays(d: Date, n: int): (r: Date)
    requires Valid(d) && 1 <= Ordinal(d) + n <= MaxOrdinal
    ensures Valid(r) && Ordinal(r) == Ordinal(d) + n
    decreases if n < 0 then -n else n
  {
    OrdinalBounds(d);
    if n == 0 then d
    else if n > 0 then Succ(AddDays(d, n - 1))
    else Pred(AddDays(d, n + 1))
  }

  /** The dates whose year lies between 2 and 9998: one year either way of
      them stays representable, which covers every offset the scripts apply to
      the clock. */
  predicate ClockDate(d: Date) {
    Valid(d) && 2 <= d.year <= 9998
  }

  lemma ClockDateRoom(d: Date)
    requires ClockDate(d)
    ensures 365 < Ordinal(d) && Ordinal(d) + 365 <= MaxOrdinal
  {
    DaysBeforeYearMonotone(2, d.year);
    DaysBeforeMonthMonotone(1, d.month, d.year);
    DaysBeforeMonthMonotone(d.month + 1, 13, d.year);
    DaysBeforeMonthYear(d.year);
    DaysBeforeYearStep(d.year);
    DaysBeforeYearMonotone(d.year + 1, 9999);
    DaysBeforeYearStep(9999);
    DaysBeforeYearLast();
  }

  // ---------------------------------------------------------------------
  // The clock
  // ---------------------------------------------------------------------

  /** Microseconds in a day. */
  const DayMicros: int := 86_400_000_000

  /** datetime.today(): a date and the microseconds since its midnight. */
  datatype Clock = Clock(date: Day, micros: nat)

  type Now = c: Clock | c.micros < DayMicros witness Clock(Date(1, 1, 1), 0)

  /** A moment as microseconds, counting days by their ordinal. */
  function Moment(d: Day, micros: int): int {
    Ordinal(d) * DayMicros + micros
  }

  // ---------------------------------------------------------------------
  // strptime with "%d.%m.%Y" and "%d.%m.%y"
  // ---------------------------------------------------------------------

  /** strptime's %d field: 01..31, 1..9, or a blank followed by 1..9. */
  function DayField(s: string): Option<int> {
    if |s| == 1 && '1' <= s[0] <= '9' then Some(DigitValue(s[0]))
    else if |s| == 2 && s[0] == ' ' && '1' <= s[1] <= '9' then Some(DigitValue(s[1]))
    else if |s| == 2 && IsDigits(s) && 1 <= DigitsValue(s) <= 31 then Some(DigitsValue(s))
    else None
  }

  /** strptime's %m field: 01..12 or 1..9. */
  function MonthField(s: string): Option<int> {
    if |s| == 1 && '1' <= s[0] <= '9' then Some(DigitValue(s[0]))
    else if |s| == 2 && IsDigits(s) && 1 <= DigitsValue(s) <= 12 then Some(DigitsValue(s))
    else None
  }

  /** strptime's %Y (exactly four digits) or %y (exactly two digits; 00..68 are
      20xx, 69..99 are 19xx). */
  function YearField(s: string, fourDigits: bool): Option<int> {
    if fourDigits then
      if |s| == 4 && IsDigits(s) then Some(DigitsValue(s)) else None
    else if |s| == 2 && IsDigits(s) then
      var v := DigitsValue(s);
      Some(if v <= 68 then 2000 + v else 1900 + v)
    else None
  }

  /** datetime.strptime(s, "%d.%m.%Y") (fourDigits) or "%d.%m.%y", reduced to
      its date; None where Python raises ValueError. No whitespace is skipped. */
  function Strptime(s: string, fourDigits: bool): (r: Option<Date>)
    ensures r.Some? ==> Valid(r.value)
  {
    var parts := Split(s, ".");
    if |parts| != 3 then None
    else
      match (DayField(parts[0]), MonthField(parts[1]), YearField(parts[2], fourDigits))
      case (Some(d), Some(m), Some(y)) =>
        if Valid(Date(d, m, y)) then Some(Date(d, m, y)) else None
      case _ => None
  }

  /** The scripts' parse_date: strip, then DD.MM.YYYY, then DD.MM.YY. */
  function ParseDate(s: string): (r: Option<Date>)
    ensures r.Some? ==> Valid(r.value)
  {
    var t := Strip(s);
    match Strptime(t, true)
    case Some(d) => Some(d)
    case None => Strptime(t, false)
  }

  /** parse_date strips its argument, so stripping it first changes nothing. */
  lemma ParseDateOfStripped(s: string)
    ensures ParseDate(Strip(s)) == ParseDate(s)
  {
    StripIdempotent(s);
  }

  /** strptime(s.strip(), "%d.%m.%y"): the two-digit-year parse used by the e-mail scripts. */
  function ParseShortDate(s: string): (r: Option<Date>)
    ensures r.Some? ==> Valid(r.value)
  {
    Strptime(Strip(s), false)
  }

  // ---------------------------------------------------------------------
  // strftime and isoformat
  // ---------------------------------------------------------------------

  function Dotted(a: string, b: string, c: string): string {
    a + "." + b + "." + c
  }

  /** strftime("%d.%m.%y"). */
  function FormatShort(d: Date): string
    requires Valid(d)
  {
    Dotted(ZeroPad(d.day, 2), ZeroPad(d.month, 2), ZeroPad(d.year % 100, 2))
  }

  /** strftime("%d.%m.%Y"). */
  function FormatLong(d: Date): string
    requires Valid(d)
  {
    Dotted(ZeroPad(d.day, 2), ZeroPad(d.month, 2), ZeroPad(d.year, 4))
  }

  /** strftime("%d.%m."). */
  function FormatDayMonth(d: Date): string
    requires Valid(d)
  {
    ZeroPad(d.day, 2) + "." + ZeroPad(d.month, 2) + "."
  }

  /** date.isoformat(): YYYY-MM-DD. */
  function IsoFormat(d: Date): string
    requires Valid(d)
  {
    ZeroPad(d.year, 4) + "-" + ZeroPad(d.month, 2) + "-" + ZeroPad(d.day, 2)
  }

  /** isoformat() without the dashes: the basic calendar form YYYYMMDD. */
  function IsoBasic(d: Date): string
    requires Valid(d)
  {
    ZeroPad(d.year, 4) + ZeroPad(d.month, 2) + ZeroPad(d.day, 2)
  }

  /** date.fromordinal(n). */
  function FromOrdinal(n: int): (r: Date)
    requires 1 <= n <= MaxOrdinal
    ensures Valid(r) && Ordinal(r) == n
  {
    AddDays(Date(1, 1, 1), n - 1)
  }

  /** The Monday nearest to the day with ordinal `jan1`: the one on or
      before it, or the one after it when that day is a Friday, Saturday or
      Sunday. */
  function NearestMonday(jan1: int): int {
    var wd := (jan1 + 6) % 7;
    if wd > 3 then jan1 - wd + 7 else jan1 - wd
  }

  /** The ordinal of the Monday that starts ISO week 1 of year y: the Monday
      nearest to 1 January. */
  function Week1Monday(y: int): int
    requires y >= 1
  {
    NearestMonday(DaysBeforeYear(y) + 1)
  }

  /** ISO year y has a week 53: 1 January is a Thursday, or a Wednesday of a
      leap year. */
  predicate HasWeek53(y: int)
    requires y >= 1
  {
    var wd := (DaysBeforeYear(y) + 7) % 7;
    wd == 3 || (wd == 2 && IsLeap(y))
  }

  /** The date of weekday `day` (1 is Monday) of ISO week `week` of `year`,
      resolved as fromisoformat() does: weeks 1 to 52, or 53 in a year that
      has one, days 1 to 7, and a result between 0001-01-01 and 9999-12-31.
      Year 0 has no such date: all its weeks end before 0001-01-01. */
  function IsoWeekDate(year: int, week: int, day: int): (r: Option<Date>)
    ensures r.Some? ==>
      && 1 <= year <= 9999 && 1 <= week <= 53 && 1 <= day <= 7
      && Valid(r.value) && Ordinal(r.value) == Week1Monday(year) + 7 * (week - 1) + day - 1
  {
    if 1 <= year <= 9999 && 1 <= day <= 7 && (1 <= week <= 52 || (week == 53 && HasWeek53(year))) then
      var n := Week1Monday(year) + 7 * (week - 1) + day - 1;
      if 1 <= n <= MaxOrdinal then Some(FromOrdinal(n)) else None
    else None
  }

  /** A calendar date from its year, month and day fields, when all three are
      ASCII digits and name a representable date. */
  function CalendarDate(year: string, month: string, day: string): (r: Option<Date>)
    ensures r.Some? ==> Valid(r.value)
  {
    if IsDigits(year) && IsDigits(month) && IsDigits(day) then
      var d := Date(DigitsValue(day), DigitsValue(month), DigitsValue(year));
      if Valid(d) then Some(d) else None
    else None
  }

  /** A week date from its year and week digits and its weekday digit, or
      no weekday field (Monday). */
  function WeekDate(year: string, week: string, day: string): (r: Option<Date>)
    ensures r.Some? ==> Valid(r.value)
  {
    if IsDigits(year) && IsDigits(week) && (day == "" || IsDigits(day)) then
      IsoWeekDate(DigitsValue(year), DigitsValue(week), if day == "" then 1 else DigitsValue(day))
    else None
  }

  /** A string in one of the ISO week forms: YYYYWww[D] or YYYY-Www[-D]. */
  predicate IsWeekForm(s: string) {
    |s| >= 6 && (s[4] == 'W' || (s[4] == '-' && s[5] == 'W'))
  }

  /** date.fromisoformat() as CPython 3.11 and later read a date: the
      calendar forms YYYY-MM-DD and YYYYMMDD, and the week forms YYYY-Www,
      YYYY-Www-D, YYYYWww and YYYYWwwD, with ASCII digits and the dash used
      throughout or not at all; None where Python raises ValueError. */
  function IsoParse(s: string): (r: Option<Date>)
    ensures r.Some? ==> Valid(r.value)
  {
    if |s| < 7 then None
    else if s[4] == 'W' then
      if |s| <= 8 then WeekDate(s[..4], s[5..7], s[7..]) else None
    else if s[4] == '-' && s[5] == 'W' then
      if |s| == 8 then WeekDate(s[..4], s[6..8], "")
      else if |s| == 10 && s[8] == '-' then WeekDate(s[..4], s[6..8], s[9..])
      else None
    else if s[4] == '-' then
      if |s| == 10 && s[7] == '-' then CalendarDate(s[..4], s[5..7], s[8..]) else None
    else if |s| == 8 then CalendarDate(s[..4], s[4..6], s[6..])
    else None
  }

  // ---------------------------------------------------------------------
  // ISO weeks
  // ---------------------------------------------------------------------

  lemma NearestMondayFacts(jan1: int)
    ensures (NearestMonday(jan1) + 6) % 7 == 0
    ensures jan1 - 3 <= NearestMonday(jan1) <= jan1 + 3
  {
    var wd := (jan1 + 6) % 7;
    assert jan1 + 6 == 7 * ((jan1 + 6) / 7) + wd;
  }

  /** Week 1 starts on a Monday, and on the one that lies between
      29 December and 4 January: the Monday of the week holding 4 January. */
  lemma Week1MondayIsMonday(y: int)
    requires y >= 1
    ensures (Week1Monday(y) + 6) % 7 == 0
    ensures DaysBeforeYear(y) - 2 <= Week1Monday(y) <= DaysBeforeYear(y) + 4
  {
    NearestMondayFacts(DaysBeforeYear(y) + 1);
  }

  /** The day `d` days into the week that starts `k` weeks after a Monday
      is a weekday d. */
  lemma WeekdayOfOrdinal(r: Date, n: int, d: int)
    requires Valid(r) && Ordinal(r) == n && (n + 6) % 7 == d
    ensures Weekday(r) == d
  {
  }

  lemma MondayPlus(monday: int, k: int, d: int, n: int)
    requires (monday + 6) % 7 == 0 && 0 <= d < 7 && n == monday + 7 * k + d
    ensures (n + 6) % 7 == d
  {
    assert monday + 6 == 7 * ((monday + 6) / 7);
    assert n + 6 == 7 * ((monday + 6) / 7 + k) + d;
  }

  /** A week date falls on its weekday: day 1 is a Monday, day 7 a Sunday. */
  lemma IsoWeekDateWeekday(year: int, week: int, day: int)
    requires IsoWeekDate(year, week, day).Some?
    ensures Weekday(IsoWeekDate(year, week, day).value) == day - 1
  {
    WeekdayInWeek(year, week, day, IsoWeekDate(year, week, day).value);
  }

  lemma WeekdayInWeek(year: int, week: int, day: int, r: Date)
    requires year >= 1 && 1 <= day <= 7 && Valid(r)
    requires Ordinal(r) == Week1Monday(year) + 7 * (week - 1) + day - 1
    ensures Weekday(r) == day - 1
  {
    var n, monday := Ordinal(r), Week1Monday(year);
    assert (monday + 6) % 7 == 0 by { Week1MondayIsMonday(year); }
    MondayPlus(monday, week - 1, day - 1, n);
    WeekdayOfOrdinal(r, n, day - 1);
  }

  /** Moving the nearest-Monday anchor on by a year of n days moves the
      Monday on by 53 weeks or 52. */
  lemma NearestMondayStep(jan1: int, n: int)
    requires n == 365 || n == 366
    ensures var wd := (jan1 + 6) % 7;
      NearestMonday(jan1 + n) - NearestMonday(jan1)
        == if wd == 3 || (wd == 2 && n == 366) then 7 * 53 else 7 * 52
  {
    var q, wd := (jan1 + 6) / 7, (jan1 + 6) % 7;
    assert jan1 + 6 == 7 * q + wd;
    var e := n - 364;
    if wd + e < 7 {
      assert jan1 + n + 6 == 7 * (q + 52) + (wd + e);
      assert (jan1 + n + 6) % 7 == wd + e;
    } else {
      assert jan1 + n + 6 == 7 * (q + 53) + (wd + e - 7);
      assert (jan1 + n + 6) % 7 == wd + e - 7;
    }
  }

  /** An ISO year lasts from its week-1 Monday to the next year's: 53 weeks
      exactly when HasWeek53 holds, 52 otherwise. */
  lemma WeeksInIsoYear(y: int)
    requires 1 <= y <= 9998
    ensures Week1Monday(y + 1) - Week1Monday(y) == if HasWeek53(y) then 7 * 53 else 7 * 52
  {
    DaysBeforeYearStep(y);
    NearestMondayStep(DaysBeforeYear(y) + 1, DaysInYear(y));
  }


  lemma ZeroPadNoChar(n: nat, width: nat, c: char)
    requires !IsDigit(c)
    ensures c !in ZeroPad(n, width)
  {
    ZeroPadFacts(n, width);
  }

  lemma FormatLongNoChar(d: Date, c: char)
    requires Valid(d) && !IsDigit(c) && c != '.'
    ensures c !in FormatLong(d)
  {
    ZeroPadNoChar(d.day, 2, c);
    ZeroPadNoChar(d.month, 2, c);
    ZeroPadNoChar(d.year, 4, c);
  }

  lemma SplitThree(a: string, b: string, c: string, sep: char)
    requires sep !in a && sep !in b && sep !in c
    ensures Split(a + [sep] + b + [sep] + c, [sep]) == [a, b, c]
  {
    var parts := [a, b, c];
    assert Join(parts[2..], [sep]) == c;
    assert Join(parts[1..], [sep]) == b + [sep] + c;
    assert Join(parts, [sep]) == a + [sep] + b + [sep] + c;
    SplitJoin(parts, [sep]);
  }

  lemma {:induction false} NatToStringLength(n: nat)
    ensures n < 10 ==> |NatToString(n)| == 1
    ensures n < 100 ==> |NatToString(n)| <= 2
    ensures n < 1000 ==> |NatToString(n)| <= 3
    ensures n < 10000 ==> |NatToString(n)| <= 4
  {
    if n < 10 {
      assert |NatToString(n)| == 1;
    } else {
      NatToStringLength(n / 10);
      assert |NatToString(n)| == |NatToString(n / 10)| + 1;
    }
  }

  lemma TwoDigitField(n: nat)
    requires n < 100
    ensures |ZeroPad(n, 2)| == 2 && IsDigits(ZeroPad(n, 2)) && DigitsValue(ZeroPad(n, 2)) == n
  {
    NatToStringLength(n);
    ZeroPadFacts(n, 2);
  }

  lemma FourDigitField(n: nat)
    requires n < 10000
    ensures |ZeroPad(n, 4)| == 4 && IsDigits(ZeroPad(n, 4)) && DigitsValue(ZeroPad(n, 4)) == n
  {
    NatToStringLength(n);
    ZeroPadFacts(n, 4);
  }

  lemma DayFieldOfPadded(n: int)
    requires 1 <= n <= 31
    ensures DayField(ZeroPad(n, 2)) == Some(n)
  {
    TwoDigitField(n);
  }

  lemma MonthFieldOfPadded(n: int)
    requires 1 <= n <= 12
    ensures MonthField(ZeroPad(n, 2)) == Some(n)
  {
    TwoDigitField(n);
  }

  lemma ShortYearField(y: int)
    requires 1969 <= y <= 2068
    ensures YearField(ZeroPad(y % 100, 2), false) == Some(y)
  {
    TwoDigitField(y % 100);
  }

  /** Strptime on three dot-free fields is the three field parsers. */
  lemma StrptimeDotted(a: string, b: string, c: string, fourDigits: bool, d: Date)
    requires '.' !in a && '.' !in b && '.' !in c && Valid(d)
    requires DayField(a) == Some(d.day) && MonthField(b) == Some(d.month)
    requires YearField(c, fourDigits) == Some(d.year)
    ensures Strptime(Dotted(a, b, c), fourDigits) == Some(d)
  {
    SplitThree(a, b, c, '.');
    assert Dotted(a, b, c) == a + ['.'] + b + ['.'] + c;
  }

  /** strptime("%d.%m.%Y") reads back what strftime("%d.%m.%Y") wrote. */
  lemma StrptimeFormatLong(d: Date)
    requires Valid(d)
    ensures Strptime(FormatLong(d), true) == Some(d)
    ensures ParseDate(FormatLong(d)) == Some(d)
  {
    ZeroPadNoChar(d.day, 2, '.');
    ZeroPadNoChar(d.month, 2, '.');
    ZeroPadNoChar(d.year, 4, '.');
    DayFieldOfPadded(d.day);
    MonthFieldOfPadded(d.month);
    FourDigitField(d.year);
    StrptimeDotted(ZeroPad(d.day, 2), ZeroPad(d.month, 2), ZeroPad(d.year, 4), true, d);
    StripNoSpaceEnds(FormatLong(d));
  }

  /** strptime("%d.%m.%y") reads back what strftime("%d.%m.%y") wrote, for the
      hundred years 1969..2068 that the two-digit year can name. */
  lemma StrptimeFormatShort(d: Date)
    requires Valid(d) && 1969 <= d.year <= 2068
    ensures Strptime(FormatShort(d), false) == Some(d)
    ensures ParseShortDate(FormatShort(d)) == Some(d)
  {
    var yy := d.year % 100;
    ZeroPadNoChar(d.day, 2, '.');
    ZeroPadNoChar(d.month, 2, '.');
    ZeroPadNoChar(yy, 2, '.');
    DayFieldOfPadded(d.day);
    MonthFieldOfPadded(d.month);
    ShortYearField(d.year);
    StrptimeDotted(ZeroPad(d.day, 2), ZeroPad(d.month, 2), ZeroPad(yy, 2), false, d);
    StripNoSpaceEnds(FormatShort(d));
  }

  /** The scripts' parse_date (four-digit year first, then two-digit) reads
      back a date written as "%d.%m.%y": the four-digit attempt fails on the
      two-character year field. */
  lemma ParseDateOfShort(d: Date)
    requires Valid(d) && 1969 <= d.year <= 2068
    ensures ParseDate(FormatShort(d)) == Some(d)
  {
    var yy := d.year % 100;
    ZeroPadNoChar(d.day, 2, '.');
    ZeroPadNoChar(d.month, 2, '.');
    ZeroPadNoChar(yy, 2, '.');
    SplitThree(ZeroPad(d.day, 2), ZeroPad(d.month, 2), ZeroPad(yy, 2), '.');
    TwoDigitField(yy);
    assert Strptime(FormatShort(d), true).None?;
    StrptimeFormatShort(d);
  }

  /** fromisoformat() reads back what isoformat() wrote. */
  lemma IsoRoundTrip(d: Date)
    requires Valid(d)
    ensures IsoParse(IsoFormat(d)) == Some(d)
  {
    var a, b, c := ZeroPad(d.year, 4), ZeroPad(d.month, 2), ZeroPad(d.day, 2);
    FourDigitField(d.year);
    TwoDigitField(d.month);
    TwoDigitField(d.day);
    var s := IsoFormat(d);
    assert s[..4] == a && s[4] == '-' && s[5] == b[0] && s[5..7] == b && s[7] == '-' && s[8..] == c;
  }

  /** fromisoformat() reads the basic form of a date as that date. */
  lemma IsoBasicRoundTrip(d: Date)
    requires Valid(d)
    ensures IsoParse(IsoBasic(d)) == Some(d)
  {
    var a, b, c := ZeroPad(d.year, 4), ZeroPad(d.month, 2), ZeroPad(d.day, 2);
    FourDigitField(d.year);
    TwoDigitField(d.month);
    TwoDigitField(d.day);
    var s := IsoBasic(d);
    assert s[..4] == a && s[4] == b[0] && s[4..6] == b && s[6..] == c;
  }

  /** Every string fromisoformat() accepts is the isoformat() text of its
      date, the basic form of it, or a week date. */
  lemma IsoParseCanonical(s: string)
    requires IsoParse(s).Some?
    ensures var d := IsoParse(s).value;
      s == IsoFormat(d) || s == IsoBasic(d) || IsWeekForm(s)
  {
    if !IsWeekForm(s) {
      ZeroPadOfDigits(s[..4]);
      if s[4] == '-' {
        ZeroPadOfDigits(s[5..7]);
        ZeroPadOfDigits(s[8..]);
        assert s == s[..4] + "-" + s[5..7] + "-" + s[8..];
      } else {
        ZeroPadOfDigits(s[4..6]);
        ZeroPadOfDigits(s[6..]);
        assert s == s[..4] + s[4..6] + s[6..];
      }
    }
  }

  lemma DigitsOfNewYear2024()
    ensures IsDigits("2024") && DigitsValue("2024") == 2024
    ensures IsDigits("01") && DigitsValue("01") == 1
    ensures IsDigits("1") && DigitsValue("1") == 1
  {
    assert "2024"[..3] == "202" && "202"[..2] == "20" && "20"[..1] == "2" && "2"[..0] == "";
    assert "01"[..1] == "0" && "0"[..0] == "";
    assert "1"[..0] == "";
  }

  /** Week 1 of 2024 starts on 1 January, a Monday. */
  lemma Week1Of2024()
    ensures IsoWeekDate(2024, 1, 1) == Some(Date(1, 1, 2024))
  {
    var d := Date(1, 1, 2024);
    assert DaysBeforeYear(2024) == 738885;
    assert Ordinal(d) == 738886 == Week1Monday(2024);
    var r := IsoWeekDate(2024, 1, 1);
    assert r.Some? && Ordinal(r.value) == Ordinal(d);
    BeforeIsOrdinalLess(r.value, d);
  }

  /** 1 January 2024 in the extended and the basic calendar form. */
  lemma IsoCalendarFormsOf2024()
    ensures IsoParse("2024-01-01") == Some(Date(1, 1, 2024))
    ensures IsoParse("20240101") == Some(Date(1, 1, 2024))
  {
    var d := Date(1, 1, 2024);
    assert ZeroPad(2024, 4) == "2024" && ZeroPad(1, 2) == "01";
    assert IsoFormat(d) == "2024-01-01" && IsoBasic(d) == "20240101";
    IsoRoundTrip(d);
    IsoBasicRoundTrip(d);
  }

  /** 1 January 2024 in the week form with dashes... */
  lemma IsoWeekFormOf2024()
    ensures IsoParse("2024-W01-1") == Some(Date(1, 1, 2024))
  {
    var w := "2024-W01-1";
    assert |w| == 10 && w[4] == '-' && w[5] == 'W' && w[8] == '-';
    assert w[..4] == "2024" && w[6..8] == "01" && w[9..] == "1";
    DashedWeekForm(w);
    WeekDateOf2024();
  }

  lemma DashedWeekForm(s: string)
    requires |s| == 10 && s[4] == '-' && s[5] == 'W' && s[8] == '-'
    ensures IsoParse(s) == WeekDate(s[..4], s[6..8], s[9..])
  {
    assert !(|s| < 7) && s[4] != 'W' && (s[4] == '-' && s[5] == 'W') && |s| != 8;
  }

  /** ... and without them. */
  lemma IsoBasicWeekFormOf2024()
    ensures IsoParse("2024W011") == Some(Date(1, 1, 2024))
  {
    var w := "2024W011";
    assert |w| == 8 && w[4] == 'W';
    assert w[..4] == "2024" && w[5..7] == "01" && w[7..] == "1";
    WeekDateOf2024();
  }

  lemma WeekDateOf2024()
    ensures WeekDate("2024", "01", "1") == Some(Date(1, 1, 2024))
  {
    DigitsOfNewYear2024();
    Week1Of2024();
  }

  /** isoformat() is injective on representable dates. */
  lemma IsoFormatInjective(d: Date, e: Date)
    requires Valid(d) && Valid(e) && IsoFormat(d) == IsoFormat(e)
    ensures d == e
  {
    IsoRoundTrip(d);
    IsoRoundTrip(e);
  }
}
