/** The daily mail: the homes with a departure today and the homes with an
    arrival today. A line matches when its date field is literally today's
    date written DD.MM.YY. */
module DailyUpdate {
  import opened Wrappers
  import opened Text
  import opened Dates
  import opened Lists
  import opened Sorting
  import opened CalendarInput

  /** Whether a line arrives today and whether it departs today. Blank
      lines, lines starting with "Belegungen" (a prefix test) and lines with
      fewer than four "|"-fields match nothing. */
  function Events(line: string, todayStr: string): (bool, bool) {
    var t := Strip(line);
    if t == "" || StartsWith(t, "Belegungen") then (false, false)
    else
      var parts := Split(t, "|");
      if |parts| < 4 then (false, false)
      else (Strip(parts[2]) == todayStr, Strip(parts[3]) == todayStr)
  }

  function ArrivalParsers(todayStr: string): string -> string -> Option<string> {
    home => line => if Events(line, todayStr).0 then Some(home) else None
  }

  function DepartureParsers(todayStr: string): string -> string -> Option<string> {
    home => line => if Events(line, todayStr).1 then Some(home) else None
  }

  /** sorted() of a list of names. */
  function ByName(): string -> Key {
    h => Key(0, h, 0, 0)
  }

  /** get_todays_events: the sorted homes arriving and departing today, a
      home once per matching line. */
  function TodaysEvents(dir: seq<DirEntry>, today: Day): (seq<string>, seq<string>) {
    var todayStr := FormatShort(today);
    (SortBy(Gather(TxtFiles(dir), ArrivalParsers(todayStr)), ByName()),
     SortBy(Gather(TxtFiles(dir), DepartureParsers(todayStr)), ByName()))
  }

  /** The lines of one file, appended to both lists. */
  method ReadEvents(ghost doneA: seq<string>, ghost doneD: seq<string>, arrivals: seq<string>, departures: seq<string>,
                    home: string, lines: seq<string>, todayStr: string)
    returns (arrivals': seq<string>, departures': seq<string>)
    requires arrivals == doneA && departures == doneD
    ensures arrivals' == doneA + FilterMap(ArrivalParsers(todayStr)(home), lines)
    ensures departures' == doneD + FilterMap(DepartureParsers(todayStr)(home), lines)
  {
    var pa, pd := ArrivalParsers(todayStr)(home), DepartureParsers(todayStr)(home);
    arrivals', departures' := arrivals, departures;
    var j := 0;
    while j < |lines|
      invariant 0 <= j <= |lines|
      invariant arrivals' == doneA + FilterMap(pa, lines[..j])
      invariant departures' == doneD + FilterMap(pd, lines[..j])
    {
      FilterMapStep(pa, lines, j);
      FilterMapStep(pd, lines, j);
      AppendAssoc(doneA, FilterMap(pa, lines[..j]), pa(lines[j]).ToSeq());
      AppendAssoc(doneD, FilterMap(pd, lines[..j]), pd(lines[j]).ToSeq());
      var e := Events(lines[j], todayStr);
      if e.0 {
        arrivals' := arrivals' + [home];
      }
      if e.1 {
        departures' := departures' + [home];
      }
      j := j + 1;
    }
    assert lines[..j] == lines;
  }

  /** One entry of the listing: the lines of a ".txt" file are read. */
  method ReadEntry(e: DirEntry, todayStr: string, arrivals: seq<string>, departures: seq<string>)
    returns (arrivals': seq<string>, departures': seq<string>)
    ensures arrivals' == arrivals + EntryValues(ArrivalParsers(todayStr), e)
    ensures departures' == departures + EntryValues(DepartureParsers(todayStr), e)
  {
    if EndsWith(e.name, ".txt") {
      var home := e.name[..|e.name| - 4];
      assert EntryValues(ArrivalParsers(todayStr), e) == FilterMap(ArrivalParsers(todayStr)(home), e.lines);
      assert EntryValues(DepartureParsers(todayStr), e) == FilterMap(DepartureParsers(todayStr)(home), e.lines);
      arrivals', departures' := ReadEvents(arrivals, departures, arrivals, departures, home, e.lines, todayStr);
    } else {
      assert EntryValues(ArrivalParsers(todayStr), e) == [] && EntryValues(DepartureParsers(todayStr), e) == [];
      arrivals', departures' := arrivals, departures;
    }
  }

  /** The loop of get_todays_events over a directory listing (os.listdir
      order). */
  method GatherEvents(dir: seq<DirEntry>, todayStr: string) returns (arrivals: seq<string>, departures: seq<string>)
    ensures arrivals == Gather(TxtFiles(dir), ArrivalParsers(todayStr))
    ensures departures == Gather(TxtFiles(dir), DepartureParsers(todayStr))
  {
    arrivals, departures := [], [];
    assert dir[..0] == [];
    var i := 0;
    while i < |dir|
      invariant 0 <= i <= |dir|
      invariant arrivals == Gather(TxtFiles(dir[..i]), ArrivalParsers(todayStr))
      invariant departures == Gather(TxtFiles(dir[..i]), DepartureParsers(todayStr))
    {
      arrivals, departures := ReadEntry(dir[i], todayStr, arrivals, departures);
      assert arrivals == Gather(TxtFiles(dir[..i + 1]), ArrivalParsers(todayStr)) by {
        GatherTxtStep(dir, i, ArrivalParsers(todayStr));
      }
      assert departures == Gather(TxtFiles(dir[..i + 1]), DepartureParsers(todayStr)) by {
        GatherTxtStep(dir, i, DepartureParsers(todayStr));
      }
      i := i + 1;
    }
    assert dir[..i] == dir;
  }

  /** get_todays_events: the homes of the day's lines, each list sorted. */
  method GetTodaysEvents(dir: seq<DirEntry>, today: Day) returns (arrivals: seq<string>, departures: seq<string>)
    ensures (arrivals, departures) == TodaysEvents(dir, today)
  {
    var todayStr := FormatShort(today);
    arrivals, departures := GatherEvents(dir, todayStr);
    arrivals := SortBy(arrivals, ByName());
    departures := SortBy(departures, ByName());
  }

  /** A line arrives today exactly when it is not blank, does not start with
      "Belegungen", has at least four fields and its stripped third field is
      today as DD.MM.YY; likewise the fourth field for a departure. */
  lemma EventsExactly(line: string, today: Day)
    ensures var t := Strip(line); var parts := Split(t, "|");
      var listed := !IsBlank(line) && !StartsWith(t, "Belegungen") && |parts| >= 4;
      && (Events(line, FormatShort(today)).0 <==> listed && Strip(parts[2]) == FormatShort(today))
      && (Events(line, FormatShort(today)).1 <==> listed && Strip(parts[3]) == FormatShort(today))
  {
    StripEmptyIffBlank(line);
  }

  /** A date written with a four-digit year never matches. */
  lemma LongDateNeverMatches(d: Day, today: Day)
    requires d.year < 10000
    ensures FormatLong(d) != FormatShort(today)
  {
    TwoDigitField(d.day);
    TwoDigitField(d.month);
    FourDigitField(d.year);
    TwoDigitField(today.day);
    TwoDigitField(today.month);
    TwoDigitField(today.year % 100);
    assert |FormatLong(d)| == 10 && |FormatShort(today)| == 8;
  }

  /** Both lists are in name order and hold one entry per matching
      line. */
  lemma TodaysEventsSorted(dir: seq<DirEntry>, today: Day)
    ensures var (arr, dep) := TodaysEvents(dir, today);
      && SortedBy(arr, ByName()) && SortedBy(dep, ByName())
      && multiset(arr) == multiset(Gather(TxtFiles(dir), ArrivalParsers(FormatShort(today))))
      && multiset(dep) == multiset(Gather(TxtFiles(dir), DepartureParsers(FormatShort(today))))
  {
    var todayStr := FormatShort(today);
    SortByCorrect(Gather(TxtFiles(dir), ArrivalParsers(todayStr)), ByName());
    SortByCorrect(Gather(TxtFiles(dir), DepartureParsers(todayStr)), ByName());
  }

  /** A home is listed as arriving exactly when one of its lines matches
      today. */
  lemma ArrivingHomes(dir: seq<DirEntry>, today: Day, home: string)
    ensures home in TodaysEvents(dir, today).0 <==>
      exists i, j :: 0 <= i < |TxtFiles(dir)| && 0 <= j < |TxtFiles(dir)[i].lines|
        && (TxtFiles(dir)[i].stem == home && Events(TxtFiles(dir)[i].lines[j], FormatShort(today)).0)
  {
    var todayStr := FormatShort(today);
    SortByMembers(Gather(TxtFiles(dir), ArrivalParsers(todayStr)), ByName());
    GatherFromLines(TxtFiles(dir), ArrivalParsers(todayStr), home);
  }

  /** A home is listed as departing exactly when one of its lines matches
      today. */
  lemma DepartingHomes(dir: seq<DirEntry>, today: Day, home: string)
    ensures home in TodaysEvents(dir, today).1 <==>
      exists i, j :: 0 <= i < |TxtFiles(dir)| && 0 <= j < |TxtFiles(dir)[i].lines|
        && (TxtFiles(dir)[i].stem == home && Events(TxtFiles(dir)[i].lines[j], FormatShort(today)).1)
  {
    var todayStr := FormatShort(today);
    SortByMembers(Gather(TxtFiles(dir), DepartureParsers(todayStr)), ByName());
    GatherFromLines(TxtFiles(dir), DepartureParsers(todayStr), home);
  }

  // ---------------------------------------------------------------------
  // generate_email
  // ---------------------------------------------------------------------

  /** A section: "- home" per home, or "-" when there is none. */
  function Section(homes: seq<string>): seq<string> {
    if homes == [] then ["-"] else Image((h: string) => "- " + h, homes)
  }

  function EmailLines(arrivals: seq<string>, departures: seq<string>): seq<string> {
    ["Departures"] + Section(departures) + [""] + ["Arrivals"] + Section(arrivals)
  }

  /** The section lines, one by one. */
  method SectionLines(homes: seq<string>) returns (lines: seq<string>)
    ensures lines == Section(homes)
  {
    if homes == [] {
      return ["-"];
    }
    lines := [];
    var i := 0;
    while i < |homes|
      invariant 0 <= i <= |homes|
      invariant lines == Image((h: string) => "- " + h, homes[..i])
    {
      ImageStep((h: string) => "- " + h, homes, i);
      lines := lines + ["- " + homes[i]];
      i := i + 1;
    }
    assert homes[..i] == homes;
  }

  /** generate_email: the subject and the text. */
  method GenerateEmail(dir: seq<DirEntry>, today: Day) returns (subject: string, content: string)
    ensures subject == "Daily"
    ensures content == Join(EmailLines(TodaysEvents(dir, today).0, TodaysEvents(dir, today).1), "\n")
  {
    var arrivals, departures := GetTodaysEvents(dir, today);
    var lines := ["Departures"];
    var dep := SectionLines(departures);
    lines := lines + dep + [""] + ["Arrivals"];
    var arr := SectionLines(arrivals);
    lines := lines + arr;
    subject := "Daily";
    content := Join(lines, "\n");
  }

  /** Departures come first: the heading, one line per departing home (or
      "-"), a blank line, then the arrivals in the same form. */
  lemma EmailShape(arrivals: seq<string>, departures: seq<string>)
    ensures var e := EmailLines(arrivals, departures);
      var n := if departures == [] then 1 else |departures|;
      var m := if arrivals == [] then 1 else |arrivals|;
      && |e| == n + m + 3
      && e[0] == "Departures" && e[n + 1] == "" && e[n + 2] == "Arrivals"
      && (departures == [] ==> e[1] == "-")
      && (forall i :: 0 <= i < |departures| ==> e[1 + i] == "- " + departures[i])
      && (arrivals == [] ==> e[n + 3] == "-")
      && (forall i :: 0 <= i < |arrivals| ==> e[n + 3 + i] == "- " + arrivals[i])
  {
    forall i | 0 <= i < |departures| ensures Section(departures)[i] == "- " + departures[i] {
      ImageAt((h: string) => "- " + h, departures, i);
    }
    forall i | 0 <= i < |arrivals| ensures Section(arrivals)[i] == "- " + arrivals[i] {
      ImageAt((h: string) => "- " + h, arrivals, i);
    }
  }
}
