/** The bookings overview mail: for each home in the fixed order, the
    bookings that have not ended yet, each as "weekday date - weekday date |
    guest | party". The clock is a parameter. */
module BookingsOverview {
  import opened Wrappers
  import opened Text
  import opened Dates
  import opened Lists
  import opened CalendarInput
  import opened Reports
  import Turnovers
  import Utils

  // ---------------------------------------------------------------------
  // format_booking and is_relevant_booking
  // ---------------------------------------------------------------------

  /** The people field is exactly three integers. */
  predicate ThreePeople(people: string) {
    var nums := ParseInts(Split(people, "/"));
    nums.Some? && |nums.value| == 3
  }

  /** format_booking: both dates (as given, unstripped) with their weekday,
      the guest and the party; None where a date or the people field
      raises. */
  function FormatBooking(parts: seq<string>): Option<string>
    requires |parts| >= 6
  {
    match (Utils.PrependWeekday(parts[2]), Utils.PrependWeekday(parts[3]))
    case (Some(arrival), Some(departure)) =>
      if ThreePeople(parts[5]) then
        Some(arrival + " - " + departure + " | " + parts[1] + " | " + Turnovers.PeopleInfo(parts[5]))
      else None
    case _ => None
  }

  /** is_relevant_booking: arrival (at midnight) no earlier than a day before
      now, or arrival before now and departure (at midnight) not before now;
      None where a stripped date does not parse. */
  function IsRelevant(arrival: string, departure: string, now: Now): Option<bool> {
    match (ParseShortDate(arrival), ParseShortDate(departure))
    case (Some(a), Some(d)) =>
      var t := Moment(now.date, now.micros);
      Some(Moment(a, 0) >= t - DayMicros || (Moment(a, 0) < t && Moment(d, 0) >= t))
    case _ => None
  }

  /** Relevance in whole days: at midnight a booking counts when it arrived
      yesterday or later or leaves today or later; at any later time of day
      when it arrives today or later or leaves after today. */
  predicate RelevantDays(arrival: Day, departure: Day, now: Now) {
    var a, d, t := Ordinal(arrival), Ordinal(departure), Ordinal(now.date);
    if now.micros == 0 then a >= t - 1 || d >= t else a >= t || d > t
  }

  /** The comparison of moments is the comparison of days above: a guest
      leaving today is dropped from the first microsecond of the day on. */
  lemma RelevantByDays(arrival: string, departure: string, now: Now)
    requires ParseShortDate(arrival).Some? && ParseShortDate(departure).Some?
    ensures IsRelevant(arrival, departure, now) ==
      Some(RelevantDays(ParseShortDate(arrival).value, ParseShortDate(departure).value, now))
  {
  }

  /** The formatted booking fails exactly when a date, as given, is not
      DD.MM.YY or the people field is not three integers. */
  lemma FormatBookingFails(parts: seq<string>)
    requires |parts| >= 6
    ensures FormatBooking(parts).None? <==>
      Strptime(parts[2], false).None? || Strptime(parts[3], false).None? || !ThreePeople(parts[5])
  {
  }

  /** A booking with well-written dates and party is shown with both
      weekdays and its party. */
  lemma FormatBookingOf(parts: seq<string>, arr: Day, dep: Day, a: string, b: string, c: string, x: nat, y: nat, z: nat)
    requires |parts| >= 6
    requires 1969 <= arr.year <= 2068 && 1969 <= dep.year <= 2068
    requires parts[2] == FormatShort(arr) && parts[3] == FormatShort(dep)
    requires IsDigits(a) && IsDigits(b) && IsDigits(c)
    requires DigitsValue(a) == x && DigitsValue(b) == y && DigitsValue(c) == z
    requires parts[5] == PeopleField(a, b, c)
    ensures FormatBooking(parts) == Some(
      (WeekdayAbbrev(arr) + " " + FormatShort(arr)) + " - "
      + (WeekdayAbbrev(dep) + " " + FormatShort(dep)) + " | " + parts[1] + " | "
      + (IntToString(x) + " Erwachsene"
         + (if y > 0 then " | " + IntToString(y) + " Kinder" else "")
         + (if z > 0 then " | " + IntToString(z) + " Babies" else "")))
  {
    Utils.PrependWeekdayOfDate(arr);
    Utils.PrependWeekdayOfDate(dep);
    ParseIntsPeopleField(a, b, c, x, y, z);
    Turnovers.PeopleInfoOfField(a, b, c, x, y, z);
  }

  /** order_by_date sorts formatted bookings by their arrival. */
  lemma FormattedStartDate(parts: seq<string>, arr: Day)
    requires |parts| >= 6 && FormatBooking(parts).Some?
    requires 1969 <= arr.year <= 2068 && parts[2] == FormatShort(arr)
    ensures Utils.StartDate([FormatBooking(parts).value]) == Some(arr)
  {
    Utils.PrependWeekdayOfDate(arr);
    var head := WeekdayAbbrev(arr) + " " + FormatShort(arr);
    var line := FormatBooking(parts).value;
    var departure := Utils.PrependWeekday(parts[3]).value;
    assert line == head + " - " + departure + " | " + parts[1] + " | " + Turnovers.PeopleInfo(parts[5]);
    PrefixOfLine(head + " - ", departure, parts[1], Turnovers.PeopleInfo(parts[5]));
    assert line[|head|] == (head + " - ")[|head|];
    Utils.StartDateOfPrepended(arr, line, []);
  }

  lemma PrefixOfLine(p: string, departure: string, guest: string, info: string)
    ensures p <= p + departure + " | " + guest + " | " + info
  {
  }

  // ---------------------------------------------------------------------
  // generate_email
  // ---------------------------------------------------------------------

  /** What a line of an overview contributes: nothing, a formatted booking,
      or an exception that ends the reading of the file. */
  datatype LineResult = Skip | Listed(text: string) | Raises

  /** Blank lines, lines containing "Belegungen" and lines of fewer than nine
      fields are skipped; otherwise a relevant booking is formatted. */
  function LineResultOf(line: string, now: Now): LineResult {
    var t := Strip(line);
    if t == "" || Contains(t, "Belegungen") then Skip
    else
      var parts := Split(t, "|");
      if |parts| < 9 then Skip
      else
        match IsRelevant(parts[2], parts[3], now)
        case None => Raises
        case Some(false) => Skip
        case Some(true) =>
          match FormatBooking(parts)
          case Some(text) => Listed(text)
          case None => Raises
  }

  /** The reading of one line at a given clock. */
  function LineStep(now: Now): string -> LineResult {
    line => LineResultOf(line, now)
  }

  /** The bookings of one file in line order; None when a line raises. */
  function FileBookings(lines: seq<string>, step: string -> LineResult): Option<seq<string>> {
    if lines == [] then Some([])
    else
      match FileBookings(lines[..|lines| - 1], step)
      case None => None
      case Some(bs) =>
        match step(lines[|lines| - 1])
        case Raises => None
        case Skip => Some(bs)
        case Listed(text) => Some(bs + [text])
  }

  /** The formatted booking of a line, if it has one. */
  function ListedText(step: string -> LineResult): string -> Option<string> {
    line => if step(line).Listed? then Some(step(line).text) else None
  }

  /** A file fails exactly when one of its lines raises; otherwise its
      bookings are the formatted bookings of its lines, in order. */
  lemma {:induction false} FileBookingsExactly(lines: seq<string>, step: string -> LineResult)
    ensures FileBookings(lines, step).None? <==> exists j :: 0 <= j < |lines| && step(lines[j]).Raises?
    ensures FileBookings(lines, step).Some? ==> FileBookings(lines, step).value == FilterMap(ListedText(step), lines)
  {
    if lines != [] {
      var init, last := lines[..|lines| - 1], lines[|lines| - 1];
      FileBookingsExactly(init, step);
      if exists j :: 0 <= j < |init| && step(init[j]).Raises? {
        var j :| 0 <= j < |init| && step(init[j]).Raises?;
        assert lines[j] == init[j];
      }
      if exists j :: 0 <= j < |lines| && step(lines[j]).Raises? {
        var j :| 0 <= j < |lines| && step(lines[j]).Raises?;
        if j < |init| {
          assert init[j] == lines[j];
        }
      }
    }
  }

  /** A prefix that raises makes the whole file raise. */
  lemma {:induction false} RaisesStays(lines: seq<string>, j: nat, step: string -> LineResult)
    requires j <= |lines| && FileBookings(lines[..j], step).None?
    ensures FileBookings(lines, step).None?
    decreases |lines| - j
  {
    if j < |lines| {
      assert lines[..j + 1][..j] == lines[..j];
      RaisesStays(lines, j + 1, step);
    } else {
      assert lines[..j] == lines;
    }
  }

  /** Reads one overview file, stopping at the first line that raises. */
  method ReadBookings(lines: seq<string>, now: Now) returns (bookings: Option<seq<string>>)
    ensures bookings == FileBookings(lines, LineStep(now))
  {
    var step := LineStep(now);
    var bs: seq<string> := [];
    var j := 0;
    while j < |lines|
      invariant 0 <= j <= |lines|
      invariant FileBookings(lines[..j], step) == Some(bs)
    {
      assert lines[..j + 1][..j] == lines[..j];
      var r := LineResultOf(lines[j], now);
      assert r == step(lines[j]);
      if r.Raises? {
        RaisesStays(lines, j + 1, step);
        return None;
      }
      if r.Listed? {
        bs := bs + [r.text];
      }
      j := j + 1;
    }
    assert lines[..j] == lines;
    bookings := Some(bs);
  }

  /** A home's block: its name and its bookings, one per line. */
  function Block(name: string, bookings: seq<string>): (b: string)
    ensures |b| > |name|
  {
    name + "\n" + Join(bookings, "\n")
  }

  /** The block of a home whose file exists, reads without error and has a
      relevant booking. */
  function HomeBlock(files: map<string, seq<string>>, now: Now): string -> Option<string> {
    name =>
      if name !in files then None
      else
        match FileBookings(files[name], LineStep(now))
        case Some(bs) => if bs != [] then Some(Block(name, bs)) else None
        case None => None
  }

  /** A home whose file exists but raises. */
  function FailedHome(files: map<string, seq<string>>, now: Now): string -> Option<string> {
    name => if name in files && FileBookings(files[name], LineStep(now)).None? then Some(name) else None
  }

  function Blocks(files: map<string, seq<string>>, now: Now): seq<string> {
    FilterMap(HomeBlock(files, now), HomesOrder)
  }

  function Failures(files: map<string, seq<string>>, now: Now): seq<string> {
    FilterMap(FailedHome(files, now), HomesOrder)
  }

  /** One home: its block, or its name when its file raises. */
  method ReadHome(files: map<string, seq<string>>, now: Now, name: string)
    returns (block: Option<string>, failure: Option<string>)
    ensures block == HomeBlock(files, now)(name)
    ensures failure == FailedHome(files, now)(name)
  {
    block, failure := None, None;
    if name in files {
      var bookings := ReadBookings(files[name], now);
      if bookings.None? {
        failure := Some(name);
      } else if bookings.value != [] {
        block := Some(Block(name, bookings.value));
      }
    }
  }

  /** generate_email over the overview files by home name (a missing key is a
      missing file): the blocks separated by blank lines, and the homes whose
      file raised. */
  method GenerateEmail(files: map<string, seq<string>>, now: Now) returns (body: string, failed: seq<string>)
    ensures body == Join(Blocks(files, now), "\n\n")
    ensures failed == Failures(files, now)
  {
    var blocks: seq<string> := [];
    failed := [];
    var i := 0;
    while i < |HomesOrder|
      invariant 0 <= i <= |HomesOrder|
      invariant blocks == FilterMap(HomeBlock(files, now), HomesOrder[..i])
      invariant failed == FilterMap(FailedHome(files, now), HomesOrder[..i])
    {
      FilterMapStep(HomeBlock(files, now), HomesOrder, i);
      FilterMapStep(FailedHome(files, now), HomesOrder, i);
      var block, failure := ReadHome(files, now, HomesOrder[i]);
      blocks := blocks + block.ToSeq();
      failed := failed + failure.ToSeq();
      i := i + 1;
    }
    assert HomesOrder[..i] == HomesOrder;
    body := Join(blocks, "\n\n");
  }

  /** A home has a block exactly when its file exists, no line of it raises
      and one of its lines is a relevant booking; the block is then its name
      over its formatted bookings. A home whose file raises has no block and
      is reported. */
  lemma HomeOutcome(files: map<string, seq<string>>, now: Now, name: string)
    ensures HomeBlock(files, now)(name).Some? <==>
      name in files && FileBookings(files[name], LineStep(now)).Some?
      && FilterMap(ListedText(LineStep(now)), files[name]) != []
    ensures HomeBlock(files, now)(name).Some? ==>
      HomeBlock(files, now)(name).value == Block(name, FilterMap(ListedText(LineStep(now)), files[name]))
    ensures FailedHome(files, now)(name).Some? <==>
      name in files && exists j :: 0 <= j < |files[name]| && LineResultOf(files[name][j], now).Raises?
    ensures !(HomeBlock(files, now)(name).Some? && FailedHome(files, now)(name).Some?)
  {
    if name in files {
      FileBookingsExactly(files[name], LineStep(now));
    }
  }

  /** The mail is empty exactly when no home has a block. */
  lemma EmptyMail(files: map<string, seq<string>>, now: Now)
    ensures Join(Blocks(files, now), "\n\n") == "" <==>
      forall i :: 0 <= i < |HomesOrder| ==> HomeBlock(files, now)(HomesOrder[i]).None?
  {
    FilterMapAll(HomeBlock(files, now), HomesOrder, (s: string) => s != "");
    JoinEmpty(Blocks(files, now), "\n\n");
    FilterMapEmpty(HomeBlock(files, now), HomesOrder);
  }

  /** A written overview line of a booking that is not relevant in whole
      days is skipped. */
  lemma LineNotRelevant(line: string, now: Now, arr: Day, dep: Day)
    requires Strip(line) == line && !Contains(line, "Belegungen")
    requires |Split(line, "|")| >= 9
    requires 1969 <= arr.year <= 2068 && 1969 <= dep.year <= 2068
    requires Split(line, "|")[2] == FormatShort(arr) && Split(line, "|")[3] == FormatShort(dep)
    requires !RelevantDays(arr, dep, now)
    ensures LineResultOf(line, now) == Skip
  {
    var parts := Split(line, "|");
    assert line != "";
    StrptimeFormatShort(arr);
    StrptimeFormatShort(dep);
    RelevantByDays(parts[2], parts[3], now);
  }

  /** A written overview line of a relevant booking is shown, formatted,
      when its people field is three integers, and makes the file fail
      otherwise. */
  lemma LineRelevant(line: string, now: Now, arr: Day, dep: Day)
    requires Strip(line) == line && !Contains(line, "Belegungen")
    requires |Split(line, "|")| >= 9
    requires 1969 <= arr.year <= 2068 && 1969 <= dep.year <= 2068
    requires Split(line, "|")[2] == FormatShort(arr) && Split(line, "|")[3] == FormatShort(dep)
    requires RelevantDays(arr, dep, now)
    ensures ThreePeople(Split(line, "|")[5]) ==>
      LineResultOf(line, now).Listed? && Some(LineResultOf(line, now).text) == FormatBooking(Split(line, "|"))
    ensures !ThreePeople(Split(line, "|")[5]) ==> LineResultOf(line, now) == Raises
  {
    var parts := Split(line, "|");
    assert line != "";
    StrptimeFormatShort(arr);
    StrptimeFormatShort(dep);
    RelevantByDays(parts[2], parts[3], now);
    FormatBookingFails(parts);
  }
}
