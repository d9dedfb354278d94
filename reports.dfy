/** What the report scripts (quick overview, upcoming arrivals and
    departures) share when they read an overview line: the line filter, the
    six-field minimum, the guest count of the people field and the German
    weekday abbreviations. */
module Reports {
  import opened Wrappers
  import opened Text
  import opened Dates
  import opened Lists
  import opened CalendarInput

  /** [p.strip() for p in line.split("|")] of a listed line with at least six
      fields; None for a line the report skips. */
  function ReportFields(line: string): (r: Option<seq<string>>)
    ensures r.Some? ==> |r.value| >= 6
  {
    if !ListedLine(line) then None
    else
      var parts := Fields(line, "|");
      if |parts| < 6 then None else Some(parts)
  }

  /** A report reads a line exactly when it passes the line filter and has
      six fields; the fields are then the stripped pieces. */
  lemma ReportLineKept(line: string)
    ensures ReportFields(line).Some? <==> ListedLine(line) && |Fields(line, "|")| >= 6
    ensures ReportFields(line).Some? ==> ReportFields(line).value == Fields(line, "|")
  {
  }

  /** nums[0] + (nums[1] if len(nums) > 1 else 0) of the "/"-separated
      numbers of a people field; None where int() raises. */
  function GuestCount(field: string): Option<int> {
    GuestsOf(ParseInts(Split(field, "/")))
  }

  /** The sum of the first two numbers (None for an empty list, where
      indexing raises; split never yields one). */
  function GuestsOf(nums: Option<seq<int>>): Option<int> {
    match nums
    case None => None
    case Some(n) => if |n| == 0 then None else Some(n[0] + (if |n| > 1 then n[1] else 0))
  }

  /** The reports count the guests of a people field as the calendar does:
      adults plus children, None when a number does not parse. */
  lemma GuestCountAsCalendar(field: string)
    ensures GuestCount(field) == PeopleCounts(field).0
  {
    var parts := Split(field, "/");
    MapAllSome(ParseInt, parts);
    SameGuests(ParseInts(parts));
  }

  lemma SameGuests(nums: Option<seq<int>>)
    requires nums.Some? ==> |nums.value| >= 1
    ensures GuestsOf(nums) == CountsOf(nums).0
  {
  }

  /** The people field "a / b / c" counts a + b guests. */
  lemma GuestCountOfField(a: string, b: string, c: string, x: nat, y: nat, z: nat)
    requires IsDigits(a) && IsDigits(b) && IsDigits(c)
    requires DigitsValue(a) == x && DigitsValue(b) == y && DigitsValue(c) == z
    ensures GuestCount(PeopleField(a, b, c)) == Some(x + y)
  {
    ParseIntsPeopleField(a, b, c, x, y, z);
  }

  const WeekdayNames: seq<string> := ["Mo.", "Di.", "Mi.", "Do.", "Fr.", "Sa.", "So."]

  /** WEEKDAYS[d.weekday()] (weekday_german). */
  function WeekdayAbbrev(d: Date): string
    requires Valid(d)
  {
    WeekdayNames[Weekday(d)]
  }
}
