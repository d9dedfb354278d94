/** The departures-and-arrivals report: for each of the next 36 days, the
    homes whose guests leave that day, each with the date and party of the
    home's next arrival on or after that day. Dates are read as DD.MM.YY
    only. */
module Turnovers {
  import opened Wrappers
  import opened Text
  import opened Dates
  import opened Lists
  import opened CalendarInput

  // ---------------------------------------------------------------------
  // Dates and people
  // ---------------------------------------------------------------------

  /** format_date: "keine" for no date, "%d.%m.%y" otherwise. */
  function FormatDate(d: Option<Day>): string {
    if d.None? then "keine" else FormatShort(d.value)
  }

  /** A formatted date is never "keine", and parse_date reads it back for
      the hundred years a two-digit year can name. */
  lemma FormatDateRoundTrip(d: Day)
    requires 1969 <= d.year <= 2068
    ensures FormatDate(Some(d)) != "keine"
    ensures ParseShortDate(FormatDate(Some(d))) == Some(d)
  {
    StrptimeFormatShort(d);
    TwoDigitField(d.day);
    assert FormatDate(Some(d))[0] == ZeroPad(d.day, 2)[0];
  }

  /** A formatted date starts with a digit, so it is never "keine". */
  lemma FormatDateNotKeine(d: Day)
    ensures FormatDate(Some(d)) != "keine"
  {
    TwoDigitField(d.day);
    assert FormatDate(Some(d))[0] == ZeroPad(d.day, 2)[0];
  }

  /** format_people_info: exactly three "/"-separated integers give
      "{a} Erwachsene", then " | {k} Kinder" and " | {b} Babies" when
      positive; anything else "Unbekannt". */
  function PeopleInfo(people: string): string {
    var nums := ParseInts(Split(people, "/"));
    if nums.None? || |nums.value| != 3 then "Unbekannt"
    else
      var adults, kids, babies := nums.value[0], nums.value[1], nums.value[2];
      IntToString(adults) + " Erwachsene"
        + (if kids > 0 then " | " + IntToString(kids) + " Kinder" else "")
        + (if babies > 0 then " | " + IntToString(babies) + " Babies" else "")
  }

  /** "Unbekannt" exactly when the field is not three integers. */
  lemma PeopleInfoUnknown(people: string)
    ensures PeopleInfo(people) == "Unbekannt" <==>
      !(ParseInts(Split(people, "/")).Some? && |ParseInts(Split(people, "/")).value| == 3)
  {
    var nums := ParseInts(Split(people, "/"));
    if nums.Some? && |nums.value| == 3 {
      var n := nums.value[0];
      NatToStringFacts(if n < 0 then -n else n);
      assert PeopleInfo(people)[0] == IntToString(n)[0];
    }
  }

  /** The people field "a / b / c" the overviews hold is shown as its
      adults, with children and babies only when there are any. */
  lemma PeopleInfoOfField(a: string, b: string, c: string, x: nat, y: nat, z: nat)
    requires IsDigits(a) && IsDigits(b) && IsDigits(c)
    requires DigitsValue(a) == x && DigitsValue(b) == y && DigitsValue(c) == z
    ensures PeopleInfo(PeopleField(a, b, c)) == IntToString(x) + " Erwachsene"
      + (if y > 0 then " | " + IntToString(y) + " Kinder" else "")
      + (if z > 0 then " | " + IntToString(z) + " Babies" else "")
  {
    ParseIntsPeopleField(a, b, c, x, y, z);
  }

  // ---------------------------------------------------------------------
  // Lines
  // ---------------------------------------------------------------------

  /** The "|"-fields of a line that is not blank and not a summary line,
      when there are at least `minFields`; the line is stripped first, the
      fields are not. */
  function LineParts(line: string, minFields: nat): (r: Option<seq<string>>)
    ensures r.Some? ==> |r.value| >= minFields
  {
    var t := Strip(line);
    if t == "" || Contains(t, "Belegungen") then None
    else
      var parts := Split(t, "|");
      if |parts| < minFields then None else Some(parts)
  }

  /** A line is used exactly when its stripped form is not empty, holds no
      "Belegungen" and has `minFields` "|"-fields; those are its fields. */
  lemma LinePartsKept(line: string, minFields: nat)
    ensures LineParts(line, minFields).Some? <==>
      Strip(line) != "" && !Contains(Strip(line), "Belegungen")
      && |Split(Strip(line), "|")| >= minFields
    ensures LineParts(line, minFields).Some? ==>
      LineParts(line, minFields).value == Split(Strip(line), "|")
  {
  }

  /** An arrival get_next_arrival_info considers: its date (field 2) and the
      stripped people field (field 5). */
  datatype Candidate = Candidate(arrival: Day, people: string)

  function CandidateOf(line: string): Option<Candidate> {
    match LineParts(line, 6)
    case None => None
    case Some(parts) =>
      var a := ParseShortDate(parts[2]);
      if a.None? then None else Some(Candidate(a.value, Strip(parts[5])))
  }

  /** A line is a candidate exactly when it has six fields and its arrival
      parses as DD.MM.YY; the people field is kept stripped. */
  lemma CandidateLineKept(line: string)
    ensures CandidateOf(line).Some? <==>
      LineParts(line, 6).Some? && ParseShortDate(LineParts(line, 6).value[2]).Some?
    ensures CandidateOf(line).Some? ==>
      CandidateOf(line).value == Candidate(ParseShortDate(LineParts(line, 6).value[2]).value,
                                           Strip(LineParts(line, 6).value[5]))
  {
  }

  function CandidateParser(): string -> Option<Candidate> {
    line => CandidateOf(line)
  }

  function Candidates(lines: seq<string>): seq<Candidate> {
    FilterMap(CandidateParser(), lines)
  }

  // ---------------------------------------------------------------------
  // get_next_arrival_info
  // ---------------------------------------------------------------------

  /** The running minimum after one more candidate: an arrival on or after
      the departure replaces it when strictly earlier. */
  function NextAfter(previous: Option<Candidate>, c: Candidate, departure: Day): Option<Candidate> {
    if !Before(c.arrival, departure) && (previous.None? || Before(c.arrival, previous.value.arrival))
    then Some(c)
    else previous
  }

  /** The earliest arrival on or after the departure; the first one on a
      tie. */
  function NextOf(cands: seq<Candidate>, departure: Day): Option<Candidate> {
    if cands == [] then None
    else NextAfter(NextOf(cands[..|cands| - 1], departure), cands[|cands| - 1], departure)
  }

  /** What get_next_arrival_info returns for the arrival found: the date
      and the people text, or ("keine", None). An empty people field is
      "Unbekannt". */
  function ArrivalInfo(next: Option<Candidate>): (string, Option<string>) {
    match next
    case None => ("keine", None)
    case Some(c) => (FormatDate(Some(c.arrival)), Some(if c.people != "" then PeopleInfo(c.people) else "Unbekannt"))
  }

  /** get_next_arrival_info for a file with these lines, or none. */
  function NextArrivalOf(file: Option<seq<string>>, departure: Day): (string, Option<string>) {
    if file.None? then ("keine", None) else ArrivalInfo(NextOf(Candidates(file.value), departure))
  }

  lemma CandidatesStep(lines: seq<string>, j: nat)
    requires j < |lines|
    ensures Candidates(lines[..j + 1]) == Candidates(lines[..j]) + CandidateOf(lines[j]).ToSeq()
  {
    FilterMapStep(CandidateParser(), lines, j);
  }

  lemma NextStep(cands: seq<Candidate>, c: Candidate, departure: Day)
    ensures NextOf(cands + [c], departure) == NextAfter(NextOf(cands, departure), c, departure)
  {
    assert (cands + [c])[..|cands|] == cands;
  }

  /** The loop of get_next_arrival_info, keeping `next_arrival` and
      `next_people_info`. */
  method NextArrivalInfo(file: Option<seq<string>>, departure: Day) returns (date: string, people: Option<string>)
    ensures (date, people) == NextArrivalOf(file, departure)
  {
    if file.None? {
      return "keine", None;
    }
    var lines := file.value;
    var nextArrival: Option<Day> := None;
    var nextPeople := "";
    ghost var cands: seq<Candidate> := [];
    var j := 0;
    while j < |lines|
      invariant 0 <= j <= |lines|
      invariant cands == Candidates(lines[..j])
      invariant nextArrival.None? <==> NextOf(cands, departure).None?
      invariant nextArrival.Some? ==> NextOf(cands, departure) == Some(Candidate(nextArrival.value, nextPeople))
    {
      var c := CandidateOf(lines[j]);
      CandidatesStep(lines, j);
      if c.Some? {
        NextStep(cands, c.value, departure);
        if !Before(c.value.arrival, departure) {
          if nextArrival.None? || Before(c.value.arrival, nextArrival.value) {
            nextArrival := Some(c.value.arrival);
            nextPeople := c.value.people;
          }
        }
        cands := cands + [c.value];
      } else {
        assert Candidates(lines[..j + 1]) == cands + [];
        assert cands + [] == cands;
      }
      j := j + 1;
    }
    assert lines[..j] == lines;
    if nextArrival.Some? {
      date := FormatDate(nextArrival);
      people := Some(if nextPeople != "" then PeopleInfo(nextPeople) else "Unbekannt");
    } else {
      date, people := "keine", None;
    }
  }

  /** An arrival on or after the departure rules out a later next arrival. */
  lemma {:induction false} NextIsEarliest(cands: seq<Candidate>, departure: Day, k: nat)
    requires k < |cands| && !Before(cands[k].arrival, departure)
    ensures NextOf(cands, departure).Some?
    ensures !Before(cands[k].arrival, NextOf(cands, departure).value.arrival)
  {
    var init, last := cands[..|cands| - 1], cands[|cands| - 1];
    var p := NextOf(init, departure);
    if k < |init| {
      assert init[k] == cands[k];
      NextIsEarliest(init, departure, k);
      if !Before(last.arrival, departure) && Before(last.arrival, p.value.arrival) {
        BeforeIsOrdinalLess(last.arrival, p.value.arrival);
        BeforeIsOrdinalLess(cands[k].arrival, p.value.arrival);
        BeforeIsOrdinalLess(cands[k].arrival, last.arrival);
      }
    } else if p.Some? && !Before(last.arrival, p.value.arrival) {
      BeforeIsOrdinalLess(last.arrival, p.value.arrival);
      BeforeIsOrdinalLess(p.value.arrival, last.arrival);
    }
  }

  /** The next arrival is a candidate on or after the departure, and no
      earlier candidate has the same date: ties keep the first line. */
  lemma {:induction false} NextIsFirstOfItsDate(cands: seq<Candidate>, departure: Day) returns (k: nat)
    requires NextOf(cands, departure).Some?
    ensures k < |cands| && cands[k] == NextOf(cands, departure).value
    ensures !Before(cands[k].arrival, departure)
    ensures forall i :: 0 <= i < k ==> cands[i].arrival != cands[k].arrival || Before(cands[i].arrival, departure)
  {
    var init, last := cands[..|cands| - 1], cands[|cands| - 1];
    var p := NextOf(init, departure);
    if NextAfter(p, last, departure) == p {
      k := NextIsFirstOfItsDate(init, departure);
      assert cands[k] == init[k];
      assert forall i :: 0 <= i < k ==> cands[i] == init[i];
    } else {
      k := |cands| - 1;
      forall i | 0 <= i < k && !Before(cands[i].arrival, departure)
        ensures cands[i].arrival != cands[k].arrival
      {
        assert cands[i] == init[i];
        NextIsEarliest(init, departure, i);
      }
    }
  }

  /** No next arrival means no candidate on or after the departure. */
  lemma {:induction false} NoNextArrival(cands: seq<Candidate>, departure: Day)
    requires NextOf(cands, departure).None?
    ensures forall i :: 0 <= i < |cands| ==> Before(cands[i].arrival, departure)
  {
    if cands != [] {
      var init := cands[..|cands| - 1];
      NoNextArrival(init, departure);
      assert forall i :: 0 <= i < |init| ==> cands[i] == init[i];
    }
  }

  /** The report shows people information exactly for a found arrival. */
  lemma ArrivalInfoShape(next: Option<Candidate>)
    ensures ArrivalInfo(next).1.Some? <==> next.Some?
    ensures ArrivalInfo(next).1.Some? ==> ArrivalInfo(next).1.value != ""
    ensures ArrivalInfo(next).0 == "keine" <==> next.None?
  {
    if next.Some? {
      FormatDateNotKeine(next.value.arrival);
      var c := next.value;
      if c.people != "" {
        PeopleInfoUnknown(c.people);
        var nums := ParseInts(Split(c.people, "/"));
        if nums.Some? && |nums.value| == 3 {
          var n := nums.value[0];
          NatToStringFacts(if n < 0 then -n else n);
        }
      }
    }
  }

  // ---------------------------------------------------------------------
  // get_departures_for_period
  // ---------------------------------------------------------------------

  /** A departure in the period: its date and the home of the file. */
  type Leaving = (Day, string)

  /** 0 <= (departure - start).days < days: a half-open window. */
  predicate InPeriod(d: Day, start: Day, days: int) {
    0 <= Ordinal(d) - Ordinal(start) < days
  }

  function LeavingOf(home: string, start: Day, days: int, line: string): (r: Option<Leaving>)
    ensures r.Some? ==> r.value.1 == home && InPeriod(r.value.0, start, days)
  {
    match LineParts(line, 4)
    case None => None
    case Some(parts) =>
      var d := ParseShortDate(parts[3]);
      if d.None? || !InPeriod(d.value, start, days) then None else Some((d.value, home))
  }

  /** A line is counted as a departure exactly when it has four fields, its
      departure parses as DD.MM.YY and lies in the period. */
  lemma LeavingLineKept(home: string, start: Day, days: int, line: string)
    ensures LeavingOf(home, start, days, line).Some? <==>
      LineParts(line, 4).Some? && ParseShortDate(LineParts(line, 4).value[3]).Some?
      && InPeriod(ParseShortDate(LineParts(line, 4).value[3]).value, start, days)
    ensures LeavingOf(home, start, days, line).Some? ==>
      LeavingOf(home, start, days, line).value == (ParseShortDate(LineParts(line, 4).value[3]).value, home)
  {
  }

  function LeavingParsers(start: Day, days: int): string -> string -> Option<Leaving> {
    home => line => LeavingOf(home, start, days, line)
  }

  /** The departures of the period by day. */
  function ByDay(dir: seq<DirEntry>, start: Day, days: int): map<Day, seq<string>> {
    Buckets(map[], Gather(TxtFiles(dir), LeavingParsers(start, days)))
  }

  /** The inner loop: one file's lines appended into the map. */
  method AddFile(byDay: map<Day, seq<string>>, home: string, lines: seq<string>, start: Day, days: int)
    returns (byDay': map<Day, seq<string>>)
    ensures byDay' == Buckets(byDay, FilterMap(LeavingParsers(start, days)(home), lines))
  {
    var parse := LeavingParsers(start, days)(home);
    byDay' := byDay;
    var j := 0;
    while j < |lines|
      invariant 0 <= j <= |lines|
      invariant byDay' == Buckets(byDay, FilterMap(parse, lines[..j]))
    {
      var l := LeavingOf(home, start, days, lines[j]);
      FilterMapStep(parse, lines, j);
      ghost var before := FilterMap(parse, lines[..j]);
      if l.Some? {
        BucketsSnoc(byDay, before, l.value);
        byDay' := AddPair(byDay', l.value);
      } else {
        assert before + [] == before;
      }
      j := j + 1;
    }
    assert lines[..j] == lines;
  }

  /** get_departures_for_period: every .txt file of the listing, in listing
      order, line by line. */
  method DeparturesForPeriod(dir: seq<DirEntry>, start: Day, days: int) returns (byDay: map<Day, seq<string>>)
    ensures byDay == ByDay(dir, start, days)
  {
    var parsers := LeavingParsers(start, days);
    byDay := map[];
    var i := 0;
    while i < |dir|
      invariant 0 <= i <= |dir|
      invariant byDay == Buckets(map[], Gather(TxtFiles(dir[..i]), parsers))
    {
      var e := dir[i];
      TxtFilesStep(dir, i);
      ghost var files := TxtFiles(dir[..i]);
      if EndsWith(e.name, ".txt") {
        var home := e.name[..|e.name| - 4];
        byDay := AddFile(byDay, home, e.lines, start, days);
        GatherSnoc(files, SourceFile(home, e.lines), parsers);
        BucketsAppend(map[], Gather(files, parsers), FilterMap(parsers(home), e.lines));
      } else {
        assert files + [] == files;
      }
      i := i + 1;
    }
    assert dir[..i] == dir;
  }

  // ---------------------------------------------------------------------
  // generate_report
  // ---------------------------------------------------------------------

  const ReportDays: int := 36

  /** strftime("%A") in the C locale. */
  const DayNames: seq<string> := ["Monday", "Tuesday", "Wednesday", "Thursday", "Friday", "Saturday", "Sunday"]

  /** "{weekday} ({dd.mm.yy})". */
  function DayHeading(d: Day): string {
    DayNames[Weekday(d)] + " (" + FormatShort(d) + ")"
  }

  /** A departing home's line, with the people text when there is one. */
  function HomeLine(home: string, info: (string, Option<string>)): string {
    if info.1.Some? && info.1.value != "" then home + " | next arrival: " + info.0 + " | " + info.1.value
    else home + " | next arrival: " + info.0
  }

  /** The file get_next_arrival_info opens for a home: "<home>.txt" in the
      listing, if present. */
  function FileOf(dir: seq<DirEntry>, home: string): Option<seq<string>> {
    if dir == [] then None
    else if dir[0].name == home + ".txt" then Some(dir[0].lines)
    else FileOf(dir[1..], home)
  }

  /** One day's block: the heading, one line per departing home or "-", and
      an empty line. */
  function DayBlock(dir: seq<DirEntry>, d: Day, homes: seq<string>): seq<string> {
    [DayHeading(d)]
      + (if homes == [] then ["-"]
         else seq(|homes|, i requires 0 <= i < |homes| => HomeLine(homes[i], NextArrivalOf(FileOf(dir, homes[i]), d))))
      + [""]
  }

  /** The day `offset` days after today, within the representable range. */
  function DayAt(today: Day, offset: int): Day
    requires 0 <= offset < ReportDays && Ordinal(today) + ReportDays <= MaxOrdinal
  {
    OrdinalBounds(today);
    AddDays(today, offset)
  }

  function Lookup(byDay: map<Day, seq<string>>, d: Day): seq<string> {
    if d in byDay then byDay[d] else []
  }

  /** The report's day blocks. */
  function Blocks(dir: seq<DirEntry>, today: Day): seq<seq<string>>
    requires Ordinal(today) + ReportDays <= MaxOrdinal
  {
    var byDay := ByDay(dir, today, ReportDays);
    seq(ReportDays, k requires 0 <= k < ReportDays => DayBlock(dir, DayAt(today, k), Lookup(byDay, DayAt(today, k))))
  }

  /** The departing homes' lines of one day, one by one. */
  method HomeLines(dir: seq<DirEntry>, d: Day, homes: seq<string>) returns (lines: seq<string>)
    ensures lines == seq(|homes|, i requires 0 <= i < |homes| => HomeLine(homes[i], NextArrivalOf(FileOf(dir, homes[i]), d)))
  {
    lines := [];
    var i := 0;
    while i < |homes|
      invariant 0 <= i <= |homes|
      invariant |lines| == i
      invariant forall k :: 0 <= k < i ==> lines[k] == HomeLine(homes[k], NextArrivalOf(FileOf(dir, homes[k]), d))
    {
      var date, people := NextArrivalInfo(FileOf(dir, homes[i]), d);
      var line := if people.Some? && people.value != "" then homes[i] + " | next arrival: " + date + " | " + people.value
                  else homes[i] + " | next arrival: " + date;
      lines := lines + [line];
      i := i + 1;
    }
  }

  /** One day's block, as generate_report builds it. */
  method DayLines(dir: seq<DirEntry>, d: Day, byDay: map<Day, seq<string>>) returns (block: seq<string>)
    ensures block == DayBlock(dir, d, Lookup(byDay, d))
  {
    block := [DayHeading(d)];
    if d in byDay && byDay[d] != [] {
      var lines := HomeLines(dir, d, byDay[d]);
      block := block + lines;
    } else {
      block := block + ["-"];
    }
    block := block + [""];
  }

  /** generate_report: the day blocks' lines, joined with newlines. */
  method GenerateReport(dir: seq<DirEntry>, today: Day) returns (report: string)
    requires Ordinal(today) + ReportDays <= MaxOrdinal
    ensures report == Join(Concat(Blocks(dir, today)), "\n")
  {
    var departures := DeparturesForPeriod(dir, today, ReportDays);
    ghost var blocks := Blocks(dir, today);
    var result := [];
    var k := 0;
    while k < ReportDays
      invariant 0 <= k <= ReportDays
      invariant result == Concat(blocks[..k])
    {
      var current := DayAt(today, k);
      var block := DayLines(dir, current, departures);
      assert block == blocks[k];
      ConcatPrefixStep(blocks, k);
      result := result + block;
      k := k + 1;
    }
    assert blocks[..k] == blocks;
    report := Join(result, "\n");
  }

  /** A departing home's line starts with the home and the next arrival's
      date. */
  lemma HomeLineStarts(home: string, info: (string, Option<string>))
    ensures StartsWith(HomeLine(home, info), home + " | next arrival: " + info.0)
  {
    var p := home + " | next arrival: " + info.0;
    assert HomeLine(home, info)[..|p|] == p;
  }

  /** A day's block starts with the day's heading and ends with an empty
      line; in between is "-" when nobody leaves, otherwise one line per
      departing home, in order, starting with the home. */
  lemma BlockShape(dir: seq<DirEntry>, d: Day, homes: seq<string>)
    ensures var b := DayBlock(dir, d, homes);
      && |b| >= 3
      && b[0] == DayHeading(d)
      && b[|b| - 1] == ""
      && (homes == [] ==> b == [DayHeading(d), "-", ""])
      && (homes != [] ==> |b| == |homes| + 2)
  {
  }

  lemma BlockLines(dir: seq<DirEntry>, d: Day, homes: seq<string>, i: int)
    requires 0 <= i < |homes|
    ensures |DayBlock(dir, d, homes)| == |homes| + 2
    ensures StartsWith(DayBlock(dir, d, homes)[i + 1], homes[i] + " | next arrival: " + NextArrivalOf(FileOf(dir, homes[i]), d).0)
  {
    var info := NextArrivalOf(FileOf(dir, homes[i]), d);
    HomeLineStarts(homes[i], info);
  }

  /** The report has one block per day, today first, and a day's block
      lists the homes of the lines departing that day, in listing and line
      order, a home once per such line. */
  lemma ReportDays36(dir: seq<DirEntry>, today: Day)
    requires Ordinal(today) + ReportDays <= MaxOrdinal
    ensures |Blocks(dir, today)| == 36
    ensures forall k :: 0 <= k < ReportDays ==> Ordinal(DayAt(today, k)) == Ordinal(today) + k
    ensures forall k :: 0 <= k < ReportDays ==>
      Lookup(ByDay(dir, today, ReportDays), DayAt(today, k))
        == BucketOf(Gather(TxtFiles(dir), LeavingParsers(today, ReportDays)), DayAt(today, k))
    ensures forall k, home :: 0 <= k < ReportDays ==>
      multiset(Lookup(ByDay(dir, today, ReportDays), DayAt(today, k)))[home]
        == multiset(Gather(TxtFiles(dir), LeavingParsers(today, ReportDays)))[(DayAt(today, k), home)]
  {
    forall k | 0 <= k < ReportDays
      ensures Lookup(ByDay(dir, today, ReportDays), DayAt(today, k))
        == BucketOf(Gather(TxtFiles(dir), LeavingParsers(today, ReportDays)), DayAt(today, k))
    {
      BucketsLookup(Gather(TxtFiles(dir), LeavingParsers(today, ReportDays)), DayAt(today, k));
    }
    forall k, home | 0 <= k < ReportDays
      ensures multiset(Lookup(ByDay(dir, today, ReportDays), DayAt(today, k)))[home]
        == multiset(Gather(TxtFiles(dir), LeavingParsers(today, ReportDays)))[(DayAt(today, k), home)]
    {
      BucketsLookup(Gather(TxtFiles(dir), LeavingParsers(today, ReportDays)), DayAt(today, k));
      BucketCount(Gather(TxtFiles(dir), LeavingParsers(today, ReportDays)), DayAt(today, k), home);
    }
  }
}
