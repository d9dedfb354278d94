/** The upcoming arrivals and upcoming departures pages: the overview lines
    whose arrival (departure) falls in the next `days` days, sorted by that
    date, listed under a heading per week ("Diese Woche", "Nächste Woche",
    "Übernächste Woche"). */
module Upcoming {
  import opened Wrappers
  import opened Text
  import opened Dates
  import opened Lists
  import opened Sorting
  import opened CalendarInput
  import opened Reports

  /** The tuple (arr, home, guest_count, length) of collect_arrivals. */
  datatype Arrival = Arrival(date: Day, home: string, count: Option<int>, length: Option<int>)

  /** The tuple (dep, home) of collect_departures. */
  datatype Departure = Departure(date: Day, home: string)

  // ---------------------------------------------------------------------
  // Collecting
  // ---------------------------------------------------------------------

  /** today <= d <= today + timedelta(days=days), on ordinals. */
  predicate InWindow(d: Day, today: Day, days: int) {
    Ordinal(today) <= Ordinal(d) <= Ordinal(today) + days
  }

  /** The window is the one written with the cutoff date, wherever the
      cutoff is representable. */
  lemma InWindowAsDates(d: Day, today: Day, days: int)
    requires 1 <= Ordinal(today) + days <= MaxOrdinal
    ensures InWindow(d, today, days) <==> !Before(d, today) && !Before(AddDays(today, days), d)
  {
    BeforeIsOrdinalLess(d, today);
    BeforeIsOrdinalLess(AddDays(today, days), d);
  }

  /** One line of collect_arrivals: listed, six fields, the arrival (field 2)
      parses and lies in the window; length is int(field 4), the guest count
      that of field 5, each None where int() raises. */
  function ArrivalOf(home: string, today: Day, days: int, line: string): (r: Option<Arrival>)
    ensures r.Some? ==> r.value.home == home && InWindow(r.value.date, today, days)
  {
    match ReportFields(line)
    case None => None
    case Some(parts) =>
      var arr := ParseDate(parts[2]);
      if arr.None? || !InWindow(arr.value, today, days) then None
      else Some(Arrival(arr.value, home, GuestCount(parts[5]), ParseInt(parts[4])))
  }

  /** One line of collect_departures: as for arrivals, with the departure
      (field 3). */
  function DepartureOf(home: string, today: Day, days: int, line: string): (r: Option<Departure>)
    ensures r.Some? ==> r.value.home == home && InWindow(r.value.date, today, days)
  {
    match ReportFields(line)
    case None => None
    case Some(parts) =>
      var dep := ParseDate(parts[3]);
      if dep.None? || !InWindow(dep.value, today, days) then None
      else Some(Departure(dep.value, home))
  }

  function ArrivalParsers(today: Day, days: int): string -> string -> Option<Arrival> {
    home => line => ArrivalOf(home, today, days, line)
  }

  function DepartureParsers(today: Day, days: int): string -> string -> Option<Departure> {
    home => line => DepartureOf(home, today, days, line)
  }

  /** The sort key of a date: sorted(..., key=lambda x: x[0]). */
  function ByDate(d: Day): Key {
    Key(DateRank(d), "", 0, 0)
  }

  function DateKey<T>(date: T -> Day): T -> Key {
    x => ByDate(date(x))
  }

  function ArrivalDate(): Arrival -> Day {
    (a: Arrival) => a.date
  }

  function DepartureDate(): Departure -> Day {
    (d: Departure) => d.date
  }

  /** collect_arrivals: the accepted lines of the files in the given order,
      then sorted by arrival date. */
  method CollectArrivals(files: seq<SourceFile>, today: Day, days: int) returns (arrivals: seq<Arrival>)
    ensures arrivals == SortBy(Gather(files, ArrivalParsers(today, days)), DateKey(ArrivalDate()))
  {
    var found := GatherLines(files, ArrivalParsers(today, days));
    arrivals := SortBy(found, DateKey(ArrivalDate()));
  }

  /** collect_departures: as collect_arrivals, by departure date. */
  method CollectDepartures(files: seq<SourceFile>, today: Day, days: int) returns (departures: seq<Departure>)
    ensures departures == SortBy(Gather(files, DepartureParsers(today, days)), DateKey(DepartureDate()))
  {
    var found := GatherLines(files, DepartureParsers(today, days));
    departures := SortBy(found, DateKey(DepartureDate()));
  }

  /** Sorting by a date key orders by date, keeps every element, and keeps
      the input order (file, then line) among equal dates. */
  lemma SortedByDate<T>(s: seq<T>, date: T -> Day)
    ensures var r := SortBy(s, DateKey(date));
      && (forall i, j :: 0 <= i < j < |r| ==> !Before(date(r[j]), date(r[i])))
      && multiset(r) == multiset(s)
      && forall d: Day :: Ties(r, DateKey(date), ByDate(d)) == Ties(s, DateKey(date), ByDate(d))
  {
    var r := SortBy(s, DateKey(date));
    SortByCorrect(s, DateKey(date));
    forall i, j | 0 <= i < j < |r| ensures !Before(date(r[j]), date(r[i])) {
      assert KeyLe(DateKey(date)(r[i]), DateKey(date)(r[j]));
      DateRankOrder(date(r[j]), date(r[i]));
    }
  }

  /** The arrivals page lists exactly the arrivals of accepted lines, all in
      the window, ordered by date, lines with the same date in file and line
      order. */
  lemma CollectedArrivals(files: seq<SourceFile>, today: Day, days: int)
    ensures var found := Gather(files, ArrivalParsers(today, days));
      var r := SortBy(found, DateKey(ArrivalDate()));
      && (forall a :: a in r <==>
            exists i, j :: 0 <= i < |files| && 0 <= j < |files[i].lines|
              && ArrivalOf(files[i].stem, today, days, files[i].lines[j]) == Some(a))
      && (forall k :: 0 <= k < |r| ==> InWindow(r[k].date, today, days))
      && (forall i, j :: 0 <= i < j < |r| ==> !Before(r[j].date, r[i].date))
      && forall d: Day :: Ties(r, DateKey(ArrivalDate()), ByDate(d)) == Ties(found, DateKey(ArrivalDate()), ByDate(d))
  {
    var found := Gather(files, ArrivalParsers(today, days));
    var r := SortBy(found, DateKey(ArrivalDate()));
    SortedByDate(found, ArrivalDate());
    SortByMembers(found, DateKey(ArrivalDate()));
    forall a ensures a in r <==>
      exists i, j :: 0 <= i < |files| && 0 <= j < |files[i].lines|
        && ArrivalOf(files[i].stem, today, days, files[i].lines[j]) == Some(a)
    {
      GatherFromLines(files, ArrivalParsers(today, days), a);
    }
    forall k | 0 <= k < |r| ensures InWindow(r[k].date, today, days) {
      assert r[k] in found;
      var i, j :| 0 <= i < |files| && 0 <= j < |files[i].lines|
        && ArrivalOf(files[i].stem, today, days, files[i].lines[j]) == Some(r[k]);
    }
  }

  /** The departures page lists exactly the departures of accepted lines, all
      in the window, ordered by date, equal dates in file and line order. */
  lemma CollectedDepartures(files: seq<SourceFile>, today: Day, days: int)
    ensures var found := Gather(files, DepartureParsers(today, days));
      var r := SortBy(found, DateKey(DepartureDate()));
      && (forall x :: x in r <==>
            exists i, j :: 0 <= i < |files| && 0 <= j < |files[i].lines|
              && DepartureOf(files[i].stem, today, days, files[i].lines[j]) == Some(x))
      && (forall k :: 0 <= k < |r| ==> InWindow(r[k].date, today, days))
      && (forall i, j :: 0 <= i < j < |r| ==> !Before(r[j].date, r[i].date))
      && forall d: Day :: Ties(r, DateKey(DepartureDate()), ByDate(d)) == Ties(found, DateKey(DepartureDate()), ByDate(d))
  {
    var found := Gather(files, DepartureParsers(today, days));
    var r := SortBy(found, DateKey(DepartureDate()));
    SortedByDate(found, DepartureDate());
    SortByMembers(found, DateKey(DepartureDate()));
    forall x ensures x in r <==>
      exists i, j :: 0 <= i < |files| && 0 <= j < |files[i].lines|
        && DepartureOf(files[i].stem, today, days, files[i].lines[j]) == Some(x)
    {
      GatherFromLines(files, DepartureParsers(today, days), x);
    }
    forall k | 0 <= k < |r| ensures InWindow(r[k].date, today, days) {
      assert r[k] in found;
      var i, j :| 0 <= i < |files| && 0 <= j < |files[i].lines|
        && DepartureOf(files[i].stem, today, days, files[i].lines[j]) == Some(r[k]);
    }
  }

  /** A line is listed as an arrival exactly when it passes the line filter,
      has six fields, its arrival parses and lies in the window. */
  lemma ArrivalLineKept(home: string, today: Day, days: int, line: string)
    ensures ArrivalOf(home, today, days, line).Some? <==>
      ListedLine(line) && |Fields(line, "|")| >= 6 && ParseDate(Fields(line, "|")[2]).Some?
      && InWindow(ParseDate(Fields(line, "|")[2]).value, today, days)
  {
  }

  /** A line is listed as a departure exactly when it passes the line filter,
      has six fields, its departure parses and lies in the window. */
  lemma DepartureLineKept(home: string, today: Day, days: int, line: string)
    ensures DepartureOf(home, today, days, line).Some? <==>
      ListedLine(line) && |Fields(line, "|")| >= 6 && ParseDate(Fields(line, "|")[3]).Some?
      && InWindow(ParseDate(Fields(line, "|")[3]).value, today, days)
  {
  }

  // ---------------------------------------------------------------------
  // Weeks
  // ---------------------------------------------------------------------

  datatype Week = ThisWeek | NextWeek | LaterWeek

  function WeekText(w: Week): string {
    match w
    case ThisWeek => "Diese Woche"
    case NextWeek => "Nächste Woche"
    case LaterWeek => "Übernächste Woche"
  }

  function WeekRank(w: Week): int {
    match w
    case ThisWeek => 0
    case NextWeek => 1
    case LaterWeek => 2
  }

  /** week_label: days ahead against the days left until Sunday. */
  function WeekLabel(d: Day, today: Day): Week {
    var ahead := Ordinal(d) - Ordinal(today);
    var endOfThisWeek := 6 - Weekday(today);
    if ahead <= endOfThisWeek then ThisWeek
    else if ahead <= endOfThisWeek + 7 then NextWeek
    else LaterWeek
  }

  /** The Monday-to-Sunday calendar week a date lies in, counted from
      0001-01-01 (a Monday). */
  function WeekIndex(d: Day): int {
    (Ordinal(d) - 1) / 7
  }

  /** The labels are calendar weeks: "Diese Woche" is the rest of today's
      week up to Sunday, "Nächste Woche" the week after, "Übernächste Woche"
      everything later. */
  lemma WeekLabelByCalendarWeek(d: Day, today: Day)
    requires !Before(d, today)
    ensures WeekLabel(d, today) == ThisWeek <==> WeekIndex(d) == WeekIndex(today)
    ensures WeekLabel(d, today) == NextWeek <==> WeekIndex(d) == WeekIndex(today) + 1
    ensures WeekLabel(d, today) == LaterWeek <==> WeekIndex(d) >= WeekIndex(today) + 2
  {
    BeforeIsOrdinalLess(d, today);
    OrdinalBounds(today);
    var t, o := Ordinal(today) - 1, Ordinal(d) - 1;
    ShiftByWeek(t);
    assert Weekday(today) == t % 7;
    WeekArithmetic(o, t);
  }

  /** A week later is the same day of the week. */
  lemma ShiftByWeek(t: int)
    ensures (t + 7) % 7 == t % 7
  {
    var q, r := t / 7, t % 7;
    var q', r' := (t + 7) / 7, (t + 7) % 7;
    assert t == 7 * q + r && 0 <= r < 7;
    assert t + 7 == 7 * q' + r' && 0 <= r' < 7;
  }

  /** With o >= t >= 0 days since the first Monday: o - t is within the rest
      of t's week, within the week after, or later. */
  lemma WeekArithmetic(o: int, t: int)
    requires 0 <= t <= o
    ensures o - t <= 6 - t % 7 <==> o / 7 == t / 7
    ensures 6 - t % 7 < o - t <= 13 - t % 7 <==> o / 7 == t / 7 + 1
    ensures o - t > 13 - t % 7 <==> o / 7 >= t / 7 + 2
  {
    var q, r := t / 7, t % 7;
    var q', r' := o / 7, o % 7;
    assert t == 7 * q + r && 0 <= r < 7;
    assert o == 7 * q' + r' && 0 <= r' < 7;
  }

  /** The label never goes back as the date advances. */
  lemma WeekLabelMonotone(d: Day, e: Day, today: Day)
    requires !Before(e, d)
    ensures WeekRank(WeekLabel(d, today)) <= WeekRank(WeekLabel(e, today))
  {
    BeforeIsOrdinalLess(e, d);
  }

  /** Different weeks have different headings, so comparing the heading
      texts compares the weeks. */
  lemma WeekTextInjective(v: Week, w: Week)
    ensures WeekText(v) == WeekText(w) <==> v == w
  {
    if v != w {
      assert WeekText(v)[0] != WeekText(w)[0] || |WeekText(v)| != |WeekText(w)|;
    }
  }

  // ---------------------------------------------------------------------
  // The page body
  // ---------------------------------------------------------------------

  /** An <h3> heading or a <p> line of the page. */
  datatype PageLine = Heading(week: Week) | Paragraph(text: string)

  /** What the loop of generate_html appends for one row, given the week of
      the previous row: a heading when the week changes, then the row. */
  function Block(previous: Option<Week>, week: Week, row: string): seq<PageLine> {
    (if previous != Some(week) then [Heading(week)] else []) + [Paragraph(row)]
  }

  /** The lines the loop of generate_html appends for rows with these weeks:
      a heading before each row whose week differs from the previous row's. */
  function Grouped(ws: seq<Week>, rows: seq<string>): seq<PageLine>
    requires |ws| == |rows|
  {
    if ws == [] then []
    else
      var n := |ws| - 1;
      Grouped(ws[..n], rows[..n]) + Block(if n == 0 then None else Some(ws[n - 1]), ws[n], rows[n])
  }

  /** The page body: the grouped rows, or the notice when there are none. */
  function Page(ws: seq<Week>, rows: seq<string>, notice: string): seq<PageLine>
    requires |ws| == |rows|
  {
    Grouped(ws, rows) + (if ws == [] then [Paragraph(notice)] else [])
  }

  /** The loop of generate_html with its `current_week`. */
  method GroupByWeek(ws: seq<Week>, rows: seq<string>, notice: string) returns (lines: seq<PageLine>)
    requires |ws| == |rows|
    ensures lines == Page(ws, rows, notice)
  {
    var current: Option<Week> := None;
    lines := [];
    var i := 0;
    while i < |ws|
      invariant 0 <= i <= |ws|
      invariant lines == Grouped(ws[..i], rows[..i])
      invariant current == if i == 0 then None else Some(ws[i - 1])
    {
      var week := ws[i];
      assert ws[..i + 1][..i] == ws[..i] && rows[..i + 1][..i] == rows[..i];
      ghost var block := Block(current, week, rows[i]);
      if current != Some(week) {
        current := Some(week);
        lines := lines + [Heading(week)];
      }
      lines := lines + [Paragraph(rows[i])];
      assert lines == Grouped(ws[..i], rows[..i]) + block;
      i := i + 1;
    }
    assert ws[..i] == ws && rows[..i] == rows;
    if |ws| == 0 {
      lines := lines + [Paragraph(notice)];
    }
  }

  function ParagraphText(l: PageLine): Option<string> {
    if l.Paragraph? then Some(l.text) else None
  }

  function HeadingWeek(l: PageLine): Option<Week> {
    if l.Heading? then Some(l.week) else None
  }

  /** The texts of the <p> lines, in order. */
  function RowsOf(lines: seq<PageLine>): seq<string> {
    FilterMap(ParagraphText, lines)
  }

  /** The weeks of the headings, in order. */
  function HeadingsOf(lines: seq<PageLine>): seq<Week> {
    FilterMap(HeadingWeek, lines)
  }

  lemma BlockParts(previous: Option<Week>, week: Week, row: string)
    ensures RowsOf(Block(previous, week, row)) == [row]
    ensures HeadingsOf(Block(previous, week, row)) == if previous != Some(week) then [week] else []
  {
    var p := [Paragraph(row)];
    FilterMapSingle(ParagraphText, Paragraph(row));
    FilterMapSingle(HeadingWeek, Paragraph(row));
    if previous != Some(week) {
      var h := [Heading(week)];
      FilterMapSingle(ParagraphText, Heading(week));
      FilterMapSingle(HeadingWeek, Heading(week));
      assert Block(previous, week, row) == h + p;
      FilterMapAppend(ParagraphText, h, p);
      FilterMapAppend(HeadingWeek, h, p);
    } else {
      assert Block(previous, week, row) == p;
    }
  }

  /** Every row appears, once and in order: the headings add no row and drop
      none. */
  lemma {:induction false} GroupedRows(ws: seq<Week>, rows: seq<string>)
    requires |ws| == |rows|
    ensures RowsOf(Grouped(ws, rows)) == rows
  {
    if ws != [] {
      var n := |ws| - 1;
      var previous := if n == 0 then None else Some(ws[n - 1]);
      GroupedRows(ws[..n], rows[..n]);
      assert Grouped(ws, rows) == Grouped(ws[..n], rows[..n]) + Block(previous, ws[n], rows[n]);
      FilterMapAppend(ParagraphText, Grouped(ws[..n], rows[..n]), Block(previous, ws[n], rows[n]));
      BlockParts(previous, ws[n], rows[n]);
      assert RowsOf(Grouped(ws, rows)) == rows[..n] + [rows[n]];
      Snoc(rows);
    }
  }

  predicate WeeksAscending(ws: seq<Week>) {
    forall i, j :: 0 <= i < j < |ws| ==> WeekRank(ws[i]) <= WeekRank(ws[j])
  }

  predicate StrictlyAscending(ws: seq<Week>) {
    forall i, j :: 0 <= i < j < |ws| ==> WeekRank(ws[i]) < WeekRank(ws[j])
  }

  /** The row before row n, if any. */
  function PreviousWeek(ws: seq<Week>, n: nat): Option<Week>
    requires n < |ws|
  {
    if n == 0 then None else Some(ws[n - 1])
  }

  /** One more row adds the headings of its block. */
  lemma HeadingsStep(ws: seq<Week>, rows: seq<string>)
    requires |ws| == |rows| && ws != []
    ensures var n := |ws| - 1;
      HeadingsOf(Grouped(ws, rows)) == HeadingsOf(Grouped(ws[..n], rows[..n]))
        + HeadingsOf(Block(PreviousWeek(ws, n), ws[n], rows[n]))
  {
    var n := |ws| - 1;
    assert Grouped(ws, rows) == Grouped(ws[..n], rows[..n]) + Block(PreviousWeek(ws, n), ws[n], rows[n]);
    FilterMapAppend(HeadingWeek, Grouped(ws[..n], rows[..n]), Block(PreviousWeek(ws, n), ws[n], rows[n]));
  }

  /** Every week of a row has a heading and every heading is a row's week. */
  lemma {:induction false} GroupedHeadingsMembers(ws: seq<Week>, rows: seq<string>)
    requires |ws| == |rows|
    ensures forall w :: w in HeadingsOf(Grouped(ws, rows)) <==> w in ws
  {
    if ws != [] {
      var n := |ws| - 1;
      GroupedHeadingsMembers(ws[..n], rows[..n]);
      HeadingsStep(ws, rows);
      BlockParts(PreviousWeek(ws, n), ws[n], rows[n]);
      Snoc(ws);
      if n > 0 && ws[n - 1] == ws[n] {
        assert ws[n] in ws[..n];
      }
    }
  }

  /** The last heading is the last row's week. */
  lemma {:induction false} GroupedLastHeading(ws: seq<Week>, rows: seq<string>)
    requires |ws| == |rows| && ws != []
    ensures var hs := HeadingsOf(Grouped(ws, rows)); |hs| > 0 && hs[|hs| - 1] == ws[|ws| - 1]
  {
    var n := |ws| - 1;
    HeadingsStep(ws, rows);
    BlockParts(PreviousWeek(ws, n), ws[n], rows[n]);
    if n > 0 && ws[n - 1] == ws[n] {
      GroupedLastHeading(ws[..n], rows[..n]);
      assert HeadingsOf(Grouped(ws[..n], rows[..n])) + [] == HeadingsOf(Grouped(ws[..n], rows[..n]));
    }
  }

  /** With rows in week order, the headings come in strictly increasing week
      order: each week gets one heading, however many rows it has. */
  lemma {:induction false} GroupedHeadings(ws: seq<Week>, rows: seq<string>)
    requires |ws| == |rows| && WeeksAscending(ws)
    ensures StrictlyAscending(HeadingsOf(Grouped(ws, rows)))
  {
    if ws != [] {
      var n := |ws| - 1;
      var hs := HeadingsOf(Grouped(ws[..n], rows[..n]));
      var block := Block(PreviousWeek(ws, n), ws[n], rows[n]);
      assert StrictlyAscending(hs) by {
        assert WeeksAscending(ws[..n]);
        GroupedHeadings(ws[..n], rows[..n]);
      }
      assert HeadingsOf(Grouped(ws, rows)) == hs + HeadingsOf(block) by {
        HeadingsStep(ws, rows);
      }
      if n == 0 || ws[n - 1] != ws[n] {
        assert HeadingsOf(block) == [ws[n]] by {
          BlockParts(PreviousWeek(ws, n), ws[n], rows[n]);
        }
        assert hs != [] ==> WeekRank(hs[|hs| - 1]) < WeekRank(ws[n]) by {
          if n > 0 {
            GroupedLastHeading(ws[..n], rows[..n]);
            assert WeekRank(ws[n - 1]) <= WeekRank(ws[n]);
          }
        }
        AscendingAppend(hs, ws[n]);
      } else {
        assert HeadingsOf(block) == [] by {
          BlockParts(PreviousWeek(ws, n), ws[n], rows[n]);
        }
        assert hs + [] == hs;
      }
    }
  }

  /** A heading ranked above the last one keeps the headings ascending. */
  lemma AscendingAppend(hs: seq<Week>, w: Week)
    requires StrictlyAscending(hs)
    requires hs != [] ==> WeekRank(hs[|hs| - 1]) < WeekRank(w)
    ensures StrictlyAscending(hs + [w])
  {
    var r := hs + [w];
    forall i, j | 0 <= i < j < |r| ensures WeekRank(r[i]) < WeekRank(r[j]) {
      if j == |hs| && i < |hs| - 1 {
        assert WeekRank(hs[i]) < WeekRank(hs[|hs| - 1]);
      }
    }
  }

  // ---------------------------------------------------------------------
  // Row texts
  // ---------------------------------------------------------------------

  /** f"{count} Personen" for a truthy count, "? Personen" otherwise. */
  function PersonsText(count: Option<int>): string {
    if count.Some? && count.value != 0 then IntToString(count.value) + " Personen" else "? Personen"
  }

  /** f"für {length} Tag"/"Tage" for a truthy length, "für ? Tage" otherwise. */
  function LengthText(length: Option<int>): string {
    if length.Some? && length.value != 0
    then "für " + IntToString(length.value) + (if length.value == 1 then " Tag" else " Tage")
    else "für ? Tage"
  }

  /** "{Wd} {dd.mm.} / {home} / {people} / {stay}". */
  function ArrivalRow(a: Arrival): string {
    WeekdayAbbrev(a.date) + " " + FormatDayMonth(a.date) + " / " + a.home + " / "
      + PersonsText(a.count) + " / " + LengthText(a.length)
  }

  /** "{Wd} {dd.mm.} / {home}". */
  function DepartureRow(d: Departure): string {
    WeekdayAbbrev(d.date) + " " + FormatDayMonth(d.date) + " / " + d.home
  }

  const NoArrivals: string := "Keine Anreisen in den nächsten 3 Wochen."
  const NoDepartures: string := "Keine Abreisen in den nächsten 3 Wochen."

  /** The week label of each entry. */
  function WeeksOf<T>(xs: seq<T>, date: T -> Day, today: Day): seq<Week> {
    seq(|xs|, i requires 0 <= i < |xs| => WeekLabel(date(xs[i]), today))
  }

  /** The row text of each entry. */
  function RowTexts<T>(xs: seq<T>, row: T -> string): seq<string> {
    seq(|xs|, i requires 0 <= i < |xs| => row(xs[i]))
  }

  function ArrivalRows(): Arrival -> string {
    a => ArrivalRow(a)
  }

  function DepartureRows(): Departure -> string {
    d => DepartureRow(d)
  }

  /** The body of the arrivals page. */
  function ArrivalsPage(arrivals: seq<Arrival>, today: Day): seq<PageLine> {
    Page(WeeksOf(arrivals, ArrivalDate(), today), RowTexts(arrivals, ArrivalRows()), NoArrivals)
  }

  /** The body of the departures page. */
  function DeparturesPage(departures: seq<Departure>, today: Day): seq<PageLine> {
    Page(WeeksOf(departures, DepartureDate(), today), RowTexts(departures, DepartureRows()), NoDepartures)
  }

  /** generate_html of upcoming_arrivals.py, without the page frame. */
  method ArrivalsBody(arrivals: seq<Arrival>, today: Day) returns (lines: seq<PageLine>)
    ensures lines == ArrivalsPage(arrivals, today)
  {
    var ws := WeeksOf(arrivals, ArrivalDate(), today);
    var rows := RowTexts(arrivals, ArrivalRows());
    lines := GroupByWeek(ws, rows, NoArrivals);
  }

  /** generate_html of upcoming_departures.py, without the page frame. */
  method DeparturesBody(departures: seq<Departure>, today: Day) returns (lines: seq<PageLine>)
    ensures lines == DeparturesPage(departures, today)
  {
    var ws := WeeksOf(departures, DepartureDate(), today);
    var rows := RowTexts(departures, DepartureRows());
    lines := GroupByWeek(ws, rows, NoDepartures);
  }

  /** A count of 0 or None is shown as "? Personen", any other count as its
      number. */
  lemma PersonsUnknown(count: Option<int>)
    ensures PersonsText(count) == "? Personen" <==> count.None? || count.value == 0
  {
    if count.Some? && count.value != 0 {
      IntToStringStartsWithNumber(count.value);
      assert PersonsText(count)[0] != '?';
    }
  }

  /** A length of 0 or None is shown as "für ? Tage"; exactly a length of 1
      uses the singular " Tag". */
  lemma LengthTextKind(length: Option<int>)
    ensures LengthText(length) == "für ? Tage" <==> length.None? || length.value == 0
    ensures EndsWith(LengthText(length), " Tag") <==> length == Some(1)
  {
    var t := LengthText(length);
    if length.Some? && length.value != 0 {
      IntToStringStartsWithNumber(length.value);
      assert t[4] == IntToString(length.value)[0];
      if length.value != 1 {
        assert t[|t| - 1] == 'e';
      } else {
        assert t == "für 1 Tag";
      }
    } else {
      assert t[|t| - 1] == 'e';
    }
  }

  /** str(n) starts with a digit or a minus sign. */
  lemma IntToStringStartsWithNumber(n: int)
    ensures |IntToString(n)| > 0
    ensures IntToString(n)[0] == '-' || IsDigit(IntToString(n)[0])
  {
    NatToStringFacts(if n < 0 then -n else n);
  }

  /** A departure row is the weekday, the day and month, and the home, in
      fixed positions: the home is everything after the first 13 characters. */
  lemma DepartureRowParts(d: Departure)
    ensures var row := DepartureRow(d);
      && |row| == 13 + |d.home|
      && row[..3] == WeekdayAbbrev(d.date)
      && row[4..10] == FormatDayMonth(d.date)
      && row[13..] == d.home
  {
    TwoDigitField(d.date.day);
    TwoDigitField(d.date.month);
    assert |WeekdayAbbrev(d.date)| == 3;
  }

  /** An arrival row starts like a departure row, with the home after the
      first 13 characters. */
  lemma ArrivalRowParts(a: Arrival)
    ensures var row := ArrivalRow(a);
      && row[..3] == WeekdayAbbrev(a.date)
      && row[4..10] == FormatDayMonth(a.date)
      && row[13..13 + |a.home|] == a.home
  {
    var head := DepartureRow(Departure(a.date, a.home));
    var tail := " / " + PersonsText(a.count) + " / " + LengthText(a.length);
    assert ArrivalRow(a) == head + tail;
    DepartureRowParts(Departure(a.date, a.home));
    assert ArrivalRow(a)[..|head|] == head;
  }

  /** The page of rows in week order: the notice alone when there are no
      rows; otherwise every row once and in order, and one heading per week,
      in week order, for exactly the weeks of the rows. */
  lemma PageShape(ws: seq<Week>, rows: seq<string>, notice: string)
    requires |ws| == |rows| && WeeksAscending(ws)
    ensures ws == [] ==> Page(ws, rows, notice) == [Paragraph(notice)]
    ensures ws != [] ==> RowsOf(Page(ws, rows, notice)) == rows
    ensures StrictlyAscending(HeadingsOf(Page(ws, rows, notice)))
    ensures forall w :: w in HeadingsOf(Page(ws, rows, notice)) <==> w in ws
  {
    GroupedRows(ws, rows);
    GroupedHeadings(ws, rows);
    GroupedHeadingsMembers(ws, rows);
    if ws != [] {
      assert Page(ws, rows, notice) == Grouped(ws, rows);
    } else {
      assert Page(ws, rows, notice) == [Paragraph(notice)];
      FilterMapSingle(HeadingWeek, Paragraph(notice));
    }
  }

  /** For entries sorted by date (as collected), the page lists every
      entry's row once and in order, with one heading per week, in week
      order, for exactly the weeks of the entries; with no entries it is the
      notice alone. */
  lemma EntriesPageShape<T>(xs: seq<T>, date: T -> Day, row: T -> string, today: Day, notice: string)
    requires forall i, j :: 0 <= i < j < |xs| ==> !Before(date(xs[j]), date(xs[i]))
    ensures var page := Page(WeeksOf(xs, date, today), RowTexts(xs, row), notice);
      && (xs == [] ==> page == [Paragraph(notice)])
      && (xs != [] ==> RowsOf(page) == RowTexts(xs, row))
      && StrictlyAscending(HeadingsOf(page))
      && forall w :: w in HeadingsOf(page) <==> exists i :: 0 <= i < |xs| && WeekLabel(date(xs[i]), today) == w
  {
    var ws := WeeksOf(xs, date, today);
    assert WeeksAscending(ws) by {
      forall i, j | 0 <= i < j < |ws| ensures WeekRank(ws[i]) <= WeekRank(ws[j]) {
        WeekLabelMonotone(date(xs[i]), date(xs[j]), today);
      }
    }
    PageShape(ws, RowTexts(xs, row), notice);
    assert forall w :: w in ws <==> exists i :: 0 <= i < |xs| && WeekLabel(date(xs[i]), today) == w by {
      forall w ensures w in ws <==> exists i :: 0 <= i < |xs| && WeekLabel(date(xs[i]), today) == w {
        if w in ws {
          var i :| 0 <= i < |ws| && ws[i] == w;
        } else {
          forall i | 0 <= i < |xs| ensures WeekLabel(date(xs[i]), today) != w {
            assert ws[i] == WeekLabel(date(xs[i]), today);
          }
        }
      }
    }
  }

  /** The arrivals page, for arrivals as collected (sorted by date). */
  lemma ArrivalsPageShape(arrivals: seq<Arrival>, today: Day)
    requires forall i, j :: 0 <= i < j < |arrivals| ==> !Before(arrivals[j].date, arrivals[i].date)
    ensures arrivals == [] ==> ArrivalsPage(arrivals, today) == [Paragraph(NoArrivals)]
    ensures arrivals != [] ==> RowsOf(ArrivalsPage(arrivals, today)) == RowTexts(arrivals, ArrivalRows())
    ensures StrictlyAscending(HeadingsOf(ArrivalsPage(arrivals, today)))
    ensures forall w :: w in HeadingsOf(ArrivalsPage(arrivals, today)) <==>
      exists i :: 0 <= i < |arrivals| && WeekLabel(arrivals[i].date, today) == w
  {
    EntriesPageShape(arrivals, ArrivalDate(), ArrivalRows(), today, NoArrivals);
  }

  /** The departures page, for departures as collected (sorted by date). */
  lemma DeparturesPageShape(departures: seq<Departure>, today: Day)
    requires forall i, j :: 0 <= i < j < |departures| ==> !Before(departures[j].date, departures[i].date)
    ensures departures == [] ==> DeparturesPage(departures, today) == [Paragraph(NoDepartures)]
    ensures departures != [] ==> RowsOf(DeparturesPage(departures, today)) == RowTexts(departures, DepartureRows())
    ensures StrictlyAscending(HeadingsOf(DeparturesPage(departures, today)))
    ensures forall w :: w in HeadingsOf(DeparturesPage(departures, today)) <==>
      exists i :: 0 <= i < |departures| && WeekLabel(departures[i].date, today) == w
  {
    EntriesPageShape(departures, DepartureDate(), DepartureRows(), today, NoDepartures);
  }
}
