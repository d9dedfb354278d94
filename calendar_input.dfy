/** The input side of the booking calendar (visual_cal.py): reading the
    per-home overview files into bookings, ordering the homes for display, and
    reading the blocked-out date ranges. Files are passed in as their lines. */
module CalendarInput {
  import opened Wrappers
  import opened Text
  import opened Dates
  import opened Sorting
  import opened Lists

  /** One reservation read from an overview file. `guestCount` is adults plus
      children and `animals` the third number of the people field; both are
      None when that field is absent or does not parse. */
  datatype Booking = Booking(home: string, start: Date, end: Date, guest: string,
                             guestCount: Option<int>, animals: Option<int>)

  /** An overview file `<home>.txt`: its stem and its lines. */
  datatype SourceFile = SourceFile(stem: string, lines: seq<string>)

  /** A blocked-out range of a home. */
  datatype Blocked = Blocked(home: string, start: Date, end: Date)

  /** [p.strip() for p in line.split(sep)] */
  function Fields(line: string, sep: string): seq<string>
    requires |sep| > 0
  {
    StripAll(Split(line, sep))
  }

  function StripAll(parts: seq<string>): (r: seq<string>)
    ensures |r| == |parts|
  {
    if parts == [] then [] else [Strip(parts[0])] + StripAll(parts[1..])
  }

  /** Each field is its piece stripped. */
  lemma {:induction false} StripAllAt(parts: seq<string>, i: nat)
    requires i < |parts|
    ensures StripAll(parts)[i] == Strip(parts[i])
    decreases i
  {
    if i > 0 {
      StripAllAt(parts[1..], i - 1);
    }
  }

  lemma {:induction false} StripAllOfStripped(parts: seq<string>)
    requires forall i :: 0 <= i < |parts| ==> Strip(parts[i]) == parts[i]
    ensures StripAll(parts) == parts
  {
    if parts != [] {
      StripAllOfStripped(parts[1..]);
      assert parts == [parts[0]] + parts[1..];
    }
  }

  /** [int(n.strip()) for n in parts], or None where int() raises. */
  function ParseInts(parts: seq<string>): Option<seq<int>> {
    MapAll(ParseInt, parts)
  }

  /** The people field "adults / children / animals": the guest count
      (adults + children) and the animals (0 when missing); both None when a
      number does not parse. */
  function PeopleCounts(field: string): (Option<int>, Option<int>) {
    CountsOf(ParseInts(Split(field, "/")))
  }

  /** a + b and c of the numbers [a, b, c], each 0 when missing. */
  function CountsOf(nums: Option<seq<int>>): (Option<int>, Option<int>) {
    if nums.None? then (None, None)
    else
      var n := nums.value;
      var a := if |n| > 0 then n[0] else 0;
      var b := if |n| > 1 then n[1] else 0;
      var c := if |n| > 2 then n[2] else 0;
      (Some(a + b), Some(c))
  }

  /** The fields of an overview line from the guest name on: the booking, when
      there are at least four fields, both dates parse and the end is not
      before the start. */
  function BookingOfFields(home: string, parts: seq<string>): (r: Option<Booking>)
    ensures r.Some? ==> r.value.home == home && Valid(r.value.start) && Valid(r.value.end)
    ensures r.Some? ==> Ordinal(r.value.start) <= Ordinal(r.value.end)
  {
    if |parts| < 4 then None
    else
      var s, e := ParseDate(parts[2]), ParseDate(parts[3]);
      if s.None? || e.None? || Ordinal(e.value) < Ordinal(s.value) then None
      else
        var counts := if |parts| > 5 then PeopleCounts(parts[5]) else (None, None);
        Some(Booking(home, s.value, e.value, parts[1], counts.0, counts.1))
  }

  /** The filter every reader of the overview files applies first: the line
      is not blank, is not a summary line ("Belegungen") and contains "|". */
  predicate ListedLine(line: string) {
    Strip(line) != "" && !Contains(line, "Belegungen") && Contains(line, "|")
  }

  /** One line of an overview file, as collect_bookings reads it: blank lines,
      summary lines and lines without "|" are skipped. */
  function ParseBookingLine(home: string, line: string): (r: Option<Booking>)
    ensures r.Some? ==> r.value.home == home && Valid(r.value.start) && Valid(r.value.end)
    ensures r.Some? ==> Ordinal(r.value.start) <= Ordinal(r.value.end)
  {
    if !ListedLine(line) then None
    else BookingOfFields(home, Fields(line, "|"))
  }

  function LineParser(home: string): string -> Option<Booking> {
    line => ParseBookingLine(home, line)
  }

  /** The bookings of one file, in line order. */
  function FileBookings(home: string, lines: seq<string>): seq<Booking> {
    FilterMap(LineParser(home), lines)
  }

  /** The bookings of all files, file by file. */
  function AllBookings(files: seq<SourceFile>): seq<Booking> {
    if files == [] then []
    else AllBookings(files[..|files| - 1]) + FileBookings(files[|files| - 1].stem, files[|files| - 1].lines)
  }

  function Stems(files: seq<SourceFile>): seq<string> {
    if files == [] then [] else Stems(files[..|files| - 1]) + [files[|files| - 1].stem]
  }

  // ---------------------------------------------------------------------
  // Home display order
  // ---------------------------------------------------------------------

  /** The desired display order, top to bottom. */
  const HomesOrder: seq<string> := [
    "Sonnenwende 2a", "Dämmerlicht 2b", "Regenbogen 2c", "Wolke7 2d",
    "Küstenzauber 4a", "Strandliebe 4b", "Wellengang 4c", "Lüdde Wattwurm 4d",
    "Kl. Austernfischer", "Austernfischer", "Dat Lütte Huus1", "Dat Lütte Huus2",
    "Lütte Stuuv", "Fischers Huus", "Michels Koje", "Fietes Kajüte",
    "Fietes Lütte Huus", "Bös Lütte Stuuv"]

  /** The rank given to homes missing from HomesOrder (10**6). */
  const UnlistedRank: int := 1000000

  /** The position of h in HomesOrder (order_idx.get(h)). */
  function OrderIndex(h: string): (r: Option<nat>)
    ensures r.Some? ==> r.value < |HomesOrder| && HomesOrder[r.value] == h
    ensures r.None? ==> h !in HomesOrder
  {
    IndexIn(HomesOrder, h)
  }

  function IndexIn(names: seq<string>, h: string): (r: Option<nat>)
    ensures r.Some? ==> r.value < |names| && names[r.value] == h
    ensures r.None? ==> h !in names
  {
    if names == [] then None
    else if names[0] == h then Some(0)
    else match IndexIn(names[1..], h)
      case Some(i) => Some(i + 1)
      case None => None
  }

  /** The sort key (order_idx.get(h, 10**6), h). */
  function HomeKey(h: string): Key {
    Key(match OrderIndex(h) case Some(i) => i case None => UnlistedRank, h, 0, 0)
  }

  /** The distinct names of s, each at its first occurrence. */
  function Dedupe(s: seq<string>): seq<string> {
    if s == [] then []
    else if s[|s| - 1] in s[..|s| - 1] then Dedupe(s[..|s| - 1])
    else Dedupe(s[..|s| - 1]) + [s[|s| - 1]]
  }

  predicate Distinct<T(==)>(s: seq<T>) {
    forall i, j :: 0 <= i < j < |s| ==> s[i] != s[j]
  }

  /** sorted(set(homes)) reordered by HomeKey. */
  function HomesOrdered(stems: seq<string>): seq<string> {
    SortBy(Dedupe(stems), HomeKey)
  }

  /** Where home g is shown above home h: listed homes first, in list order,
      then the others alphabetically. */
  predicate ShownAbove(g: string, h: string) {
    match (OrderIndex(g), OrderIndex(h))
    case (Some(a), Some(b)) => a < b
    case (Some(_), None) => true
    case (None, Some(_)) => false
    case (None, None) => StrLess(g, h)
  }

  lemma {:induction false} DedupeCounts(s: seq<string>)
    ensures forall h :: multiset(Dedupe(s))[h] == if h in s then 1 else 0
  {
    if s != [] {
      var init, last := s[..|s| - 1], s[|s| - 1];
      DedupeCounts(init);
      assert s == init + [last];
      forall h ensures h in s <==> h in init || h == last { }
    }
  }

  lemma DistinctOfCounts(s: seq<string>)
    requires forall h :: multiset(s)[h] <= 1
    ensures Distinct(s)
  {
    forall i, j | 0 <= i < j < |s| ensures s[i] != s[j] {
      assert s == s[..j] + s[j..];
      assert s[i] in multiset(s[..j]) by { assert s[..j][i] == s[i]; }
      assert s[j] in multiset(s[j..]) by { assert s[j..][0] == s[j]; }
      assert multiset(s)[s[j]] == multiset(s[..j])[s[j]] + multiset(s[j..])[s[j]];
    }
  }

  /** The display order holds every file stem exactly once, listed homes
      first in HomesOrder's order and the others alphabetically. */
  lemma HomesOrderedCorrect(stems: seq<string>)
    ensures forall h :: h in HomesOrdered(stems) <==> h in stems
    ensures Distinct(HomesOrdered(stems))
    ensures var r := HomesOrdered(stems);
      forall i, j :: 0 <= i < j < |r| ==> ShownAbove(r[i], r[j])
  {
    var r := HomesOrdered(stems);
    SortByCorrect(Dedupe(stems), HomeKey);
    DedupeCounts(stems);
    forall h ensures h in r <==> h in stems {
      assert h in r <==> h in multiset(r);
    }
    DistinctOfCounts(r);
    forall i, j | 0 <= i < j < |r| ensures ShownAbove(r[i], r[j]) {
      assert KeyLe(HomeKey(r[i]), HomeKey(r[j]));
    }
  }

  // ---------------------------------------------------------------------
  // collect_bookings
  // ---------------------------------------------------------------------

  /** The loop of collect_bookings over the lines of one file: the accepted
      lines' bookings, in line order. */
  method ReadOverview(home: string, lines: seq<string>) returns (found: seq<Booking>)
    ensures found == FileBookings(home, lines)
  {
    found := [];
    var j := 0;
    while j < |lines|
      invariant 0 <= j <= |lines|
      invariant found == FileBookings(home, lines[..j])
    {
      var parsed := ParseBookingLine(home, lines[j]);
      FilterMapStep(LineParser(home), lines, j);
      found := found + parsed.ToSeq();
      j := j + 1;
    }
    assert lines[..j] == lines;
  }

  /** collect_bookings: every file's stem is a home; every accepted line is a
      booking, file by file and line by line. */
  method CollectBookings(files: seq<SourceFile>) returns (homes: seq<string>, bookings: seq<Booking>)
    ensures bookings == AllBookings(files)
    ensures homes == HomesOrdered(Stems(files))
  {
    var stems: seq<string> := [];
    bookings := [];
    var i := 0;
    while i < |files|
      invariant 0 <= i <= |files|
      invariant stems == Stems(files[..i])
      invariant bookings == AllBookings(files[..i])
    {
      stems := stems + [files[i].stem];
      var found := ReadOverview(files[i].stem, files[i].lines);
      bookings := bookings + found;
      assert files[..i + 1][..i] == files[..i];
      i := i + 1;
    }
    assert files[..i] == files;
    homes := HomesOrdered(stems);
  }

  /** The fields yield a booking exactly when there are at least four, both
      dates parse and the end is not before the start. */
  lemma BookingOfFieldsAccepted(home: string, parts: seq<string>)
    ensures BookingOfFields(home, parts).Some? <==>
      |parts| >= 4 && ParseDate(parts[2]).Some? && ParseDate(parts[3]).Some?
      && !Before(ParseDate(parts[3]).value, ParseDate(parts[2]).value)
  {
    if |parts| >= 4 && ParseDate(parts[2]).Some? && ParseDate(parts[3]).Some? {
      BeforeIsOrdinalLess(ParseDate(parts[3]).value, ParseDate(parts[2]).value);
    }
  }

  /** A line yields a booking exactly when it is not blank, is not a summary
      line, contains "|", and its "|"-fields yield a booking. */
  lemma BookingLineAccepted(home: string, line: string)
    ensures ParseBookingLine(home, line).Some? <==>
      !IsBlank(line) && !Contains(line, "Belegungen") && Contains(line, "|")
      && BookingOfFields(home, Fields(line, "|")).Some?
  {
    StripEmptyIffBlank(line);
  }

  /** Every booking comes from the lines of one file. */
  lemma {:induction false} AllBookingsFromFiles(files: seq<SourceFile>, b: Booking)
    ensures b in AllBookings(files) <==>
      exists i :: 0 <= i < |files| && b in FileBookings(files[i].stem, files[i].lines)
  {
    if files != [] {
      var init := files[..|files| - 1];
      AllBookingsFromFiles(init, b);
      if exists i :: 0 <= i < |init| && b in FileBookings(init[i].stem, init[i].lines) {
        var i :| 0 <= i < |init| && b in FileBookings(init[i].stem, init[i].lines);
        assert files[i] == init[i];
      }
      if exists i :: 0 <= i < |files| && b in FileBookings(files[i].stem, files[i].lines) {
        var i :| 0 <= i < |files| && b in FileBookings(files[i].stem, files[i].lines);
        if i < |init| { assert init[i] == files[i]; }
      }
    }
  }

  /** Every booking comes from one accepted line of one file, and every
      accepted line gives a booking. */
  lemma AllBookingsFromLines(files: seq<SourceFile>, b: Booking)
    ensures b in AllBookings(files) <==>
      exists i, j :: 0 <= i < |files| && 0 <= j < |files[i].lines|
        && LineParser(files[i].stem)(files[i].lines[j]) == Some(b)
  {
    AllBookingsFromFiles(files, b);
    forall i | 0 <= i < |files|
      ensures b in FileBookings(files[i].stem, files[i].lines) <==>
        exists j :: 0 <= j < |files[i].lines| && LineParser(files[i].stem)(files[i].lines[j]) == Some(b)
    {
      FilterMapMembers(LineParser(files[i].stem), files[i].lines, b);
    }
  }

  lemma ParseIntPadded(x: string)
    requires IsDigits(x)
    ensures ParseInt(x + " ") == Some(DigitsValue(x) as int)
    ensures ParseInt(" " + x + " ") == Some(DigitsValue(x) as int)
    ensures ParseInt(" " + x) == Some(DigitsValue(x) as int)
  {
    StripPadded(x);
  }

  lemma NoSlashInDigits(x: string)
    requires IsDigits(x)
    ensures '/' !in x + " " && '/' !in " " + x + " " && '/' !in " " + x
  {
  }

  /** The people field as the booking site writes it: "a / b / c" with each
      number a run of decimal digits. */
  function PeopleField(a: string, b: string, c: string): string {
    a + " / " + b + " / " + c
  }

  lemma SplitPeopleField(a: string, b: string, c: string)
    requires IsDigits(a) && IsDigits(b) && IsDigits(c)
    ensures Split(PeopleField(a, b, c), "/") == [a + " ", " " + b + " ", " " + c]
  {
    NoSlashInDigits(a);
    NoSlashInDigits(b);
    NoSlashInDigits(c);
    SplitThree(a + " ", " " + b + " ", " " + c, '/');
    assert PeopleField(a, b, c) == (a + " ") + ['/'] + (" " + b + " ") + ['/'] + (" " + c);
  }

  /** The people field "a / b / c" reads back as a + b guests and c animals,
      where x, y and z are the values of the digit strings a, b and c. */
  lemma PeopleCountsOfField(a: string, b: string, c: string, x: nat, y: nat, z: nat)
    requires IsDigits(a) && IsDigits(b) && IsDigits(c)
    requires DigitsValue(a) == x && DigitsValue(b) == y && DigitsValue(c) == z
    ensures PeopleCounts(PeopleField(a, b, c)) == (Some(x + y), Some(z as int))
  {
    ParseIntsPeopleField(a, b, c, x, y, z);
    CountsOfThree(ParseInts(Split(PeopleField(a, b, c), "/")), x, y, z);
  }

  lemma ParseIntsPeopleField(a: string, b: string, c: string, x: nat, y: nat, z: nat)
    requires IsDigits(a) && IsDigits(b) && IsDigits(c)
    requires DigitsValue(a) == x && DigitsValue(b) == y && DigitsValue(c) == z
    ensures ParseInts(Split(PeopleField(a, b, c), "/")) == Some([x as int, y as int, z as int])
  {
    SplitPeopleField(a, b, c);
    ParseIntPadded(a);
    ParseIntPadded(b);
    ParseIntPadded(c);
    MapAllThree(ParseInt, a + " ", " " + b + " ", " " + c, x, y, z);
  }

  lemma CountsOfThree(nums: Option<seq<int>>, x: int, y: int, z: int)
    requires nums == Some([x, y, z])
    ensures CountsOf(nums) == (Some(x + y), Some(z))
  {
  }

  /** The fields of a scraper row whose dates are written DD.MM.YY give the
      booking they describe. */
  lemma BookingOfScrapedFields(home: string, fields: seq<string>, s: Date, e: Date)
    requires |fields| >= 4
    requires Valid(s) && Valid(e) && 1969 <= s.year <= 2068 && 1969 <= e.year <= 2068
    requires fields[2] == FormatShort(s) && fields[3] == FormatShort(e)
    requires Ordinal(s) <= Ordinal(e)
    ensures BookingOfFields(home, fields) ==
      var counts := if |fields| > 5 then PeopleCounts(fields[5]) else (None, None);
      Some(Booking(home, s, e, fields[1], counts.0, counts.1))
  {
    ParseDateOfShort(s);
    ParseDateOfShort(e);
  }

  /** A "|"-join of at least two stripped, "|"-free fields is not blank,
      contains "|", and splits back into those fields. */
  lemma JoinedFields(fields: seq<string>)
    requires |fields| >= 2
    requires forall i :: 0 <= i < |fields| ==> '|' !in fields[i] && Strip(fields[i]) == fields[i]
    ensures !IsBlank(Join(fields, "|")) && Contains(Join(fields, "|"), "|")
    ensures Fields(Join(fields, "|"), "|") == fields
  {
    SplitJoin(fields, "|");
    FieldsOfSplit(Join(fields, "|"), "|", fields);
    JoinHasSeparator(fields, '|');
    NotBlankWithSeparator(Join(fields, "|"), '|');
  }

  lemma NotBlankWithSeparator(line: string, c: char)
    requires !IsSpace(c) && Contains(line, [c])
    ensures !IsBlank(line)
  {
    var k: nat := IndexFrom(line, [c], 0).value;
    IndexFromFirst(line, [c], 0);
    assert line[k] == line[k..k + 1][0] == c;
  }

  /** A row written by the overview scraper ("|"-joined fields, dates as
      DD.MM.YY) is read back as the booking it describes. */
  lemma BookingLineRoundTrip(home: string, fields: seq<string>, s: Date, e: Date)
    requires |fields| >= 4
    requires forall i :: 0 <= i < |fields| ==> '|' !in fields[i] && Strip(fields[i]) == fields[i]
    requires Valid(s) && Valid(e) && 1969 <= s.year <= 2068 && 1969 <= e.year <= 2068
    requires fields[2] == FormatShort(s) && fields[3] == FormatShort(e)
    requires Ordinal(s) <= Ordinal(e)
    requires !Contains(Join(fields, "|"), "Belegungen")
    ensures ParseBookingLine(home, Join(fields, "|")) ==
      var counts := if |fields| > 5 then PeopleCounts(fields[5]) else (None, None);
      Some(Booking(home, s, e, fields[1], counts.0, counts.1))
  {
    JoinedFields(fields);
    BookingLineAccepted(home, Join(fields, "|"));
    BookingOfScrapedFields(home, fields, s, e);
  }

  lemma JoinHasSeparator(parts: seq<string>, c: char)
    requires |parts| >= 2
    ensures Contains(Join(parts, [c]), [c])
  {
    var s := Join(parts, [c]);
    assert s == parts[0] + [c] + Join(parts[1..], [c]);
    assert OccursAt(s, [c], |parts[0]|);
    IndexFromFirst(s, [c], 0);
  }

  // ---------------------------------------------------------------------
  // load_blocked_dates
  // ---------------------------------------------------------------------

  /** The fields "home, start, end" of a blocked-dates line: the range, when
      there are at least three, both dates parse and end >= start. */
  function BlockedOfFields(parts: seq<string>): (r: Option<Blocked>)
    ensures r.Some? ==> Valid(r.value.start) && Valid(r.value.end)
    ensures r.Some? ==> Ordinal(r.value.start) <= Ordinal(r.value.end)
  {
    if |parts| < 3 then None
    else
      var s, e := ParseDate(parts[1]), ParseDate(parts[2]);
      if s.None? || e.None? || Ordinal(e.value) < Ordinal(s.value) then None
      else Some(Blocked(parts[0], s.value, e.value))
  }

  /** One line of the blocked-dates file; blank lines and "#" comments are skipped. */
  function ParseBlockedLine(line: string): (r: Option<Blocked>)
    ensures r.Some? ==> Valid(r.value.start) && Valid(r.value.end)
    ensures r.Some? ==> Ordinal(r.value.start) <= Ordinal(r.value.end)
  {
    var t := Strip(line);
    if t == "" || StartsWith(t, "#") then None
    else BlockedOfFields(Fields(t, ","))
  }

  /** The accepted lines of the blocked-dates file, in file order. */
  function BlockedRanges(lines: seq<string>): seq<Blocked> {
    FilterMap(ParseBlockedLine, lines)
  }

  predicate WellFormedRange(b: Blocked) {
    Valid(b.start) && Valid(b.end) && !Before(b.end, b.start)
  }

  /** Every range read from the file is made of real dates with start <= end. */
  lemma BlockedRangesWellFormed(lines: seq<string>)
    ensures forall k :: 0 <= k < |BlockedRanges(lines)| ==> WellFormedRange(BlockedRanges(lines)[k])
  {
    forall line | ParseBlockedLine(line).Some? ensures WellFormedRange(ParseBlockedLine(line).value) {
      var b := ParseBlockedLine(line).value;
      BeforeIsOrdinalLess(b.end, b.start);
    }
    FilterMapAll(ParseBlockedLine, lines, WellFormedRange);
  }

  /** load_blocked_dates: the accepted lines in file order; none when the
      file is missing (`file == None`). */
  method LoadBlockedDates(file: Option<seq<string>>) returns (blocked: seq<Blocked>)
    ensures file.None? ==> blocked == []
    ensures file.Some? ==> blocked == BlockedRanges(file.value)
  {
    blocked := [];
    if file.None? { return; }
    var lines := file.value;
    var i := 0;
    while i < |lines|
      invariant 0 <= i <= |lines|
      invariant blocked == BlockedRanges(lines[..i])
    {
      var parsed := ParseBlockedLine(lines[i]);
      FilterMapStep(ParseBlockedLine, lines, i);
      blocked := blocked + parsed.ToSeq();
      i := i + 1;
    }
    assert lines[..i] == lines;
  }

  /** Splitting into parts that need no stripping gives those parts as the fields. */
  lemma FieldsOfSplit(line: string, sep: string, parts: seq<string>)
    requires |sep| > 0 && Split(line, sep) == parts
    requires forall i :: 0 <= i < |parts| ==> Strip(parts[i]) == parts[i]
    ensures Fields(line, sep) == parts
  {
    StripAllOfStripped(parts);
  }

  /** A date written DD.MM.YYYY is all digits and dots: no comma, and nothing
      for strip() to remove. */
  lemma FormatLongShape(d: Date)
    requires Valid(d)
    ensures ',' !in FormatLong(d) && |FormatLong(d)| > 0
    ensures IsDigit(FormatLong(d)[0]) && IsDigit(FormatLong(d)[|FormatLong(d)| - 1])
    ensures Strip(FormatLong(d)) == FormatLong(d)
  {
    ZeroPadFacts(d.day, 2);
    ZeroPadFacts(d.month, 2);
    ZeroPadFacts(d.year, 4);
    DottedDigitsShape(ZeroPad(d.day, 2), ZeroPad(d.month, 2), ZeroPad(d.year, 4));
  }

  /** Three runs of digits joined with dots hold no comma and start and end
      with a digit. */
  lemma DottedDigitsShape(a: string, b: string, c: string)
    requires IsDigits(a) && IsDigits(b) && IsDigits(c)
    ensures var s := Dotted(a, b, c);
      && ',' !in s && |s| > 0 && IsDigit(s[0]) && IsDigit(s[|s| - 1]) && Strip(s) == s
  {
    var s := Dotted(a, b, c);
    assert s == a + ['.'] + b + ['.'] + c;
    assert s[0] == a[0] && s[|s| - 1] == c[|c| - 1];
    forall i | 0 <= i < |s| ensures s[i] != ',' {
      if i < |a| {
        assert s[i] == a[i];
      } else if i == |a| {
      } else if i < |a| + 1 + |b| {
        assert s[i] == b[i - |a| - 1];
      } else if i == |a| + 1 + |b| {
      } else {
        assert s[i] == c[i - |a| - |b| - 2];
      }
    }
    StripNoSpaceEnds(s);
  }

  /** A line "home,start,end" with the dates written as DD.MM.YYYY reads back
      as that range when start <= end. */
  lemma BlockedLineRoundTrip(home: string, s: Date, e: Date)
    requires home != "" && ',' !in home && Strip(home) == home && home[0] != '#'
    requires Valid(s) && Valid(e) && Ordinal(s) <= Ordinal(e)
    ensures ParseBlockedLine(home + "," + FormatLong(s) + "," + FormatLong(e)) == Some(Blocked(home, s, e))
  {
    var a, b := FormatLong(s), FormatLong(e);
    var line := home + [','] + a + [','] + b;
    assert "," == [','];
    BlockedLineShape(home, s, e);
    SplitThree(home, a, b, ',');
    var parts := [home, a, b];
    forall i | 0 <= i < 3 ensures Strip(parts[i]) == parts[i] {
      assert parts[i] == if i == 0 then home else if i == 1 then a else b;
    }
    FieldsOfSplit(line, ",", parts);
    BlockedOfLongDates(home, s, e);
    ParseBlockedLineOfFields(line, [home, a, b]);
  }

  lemma ParseBlockedLineOfFields(line: string, parts: seq<string>)
    requires Strip(line) == line && line != "" && !StartsWith(line, "#")
    requires Fields(line, ",") == parts
    ensures ParseBlockedLine(line) == BlockedOfFields(parts)
  {
  }

  lemma BlockedOfLongDates(home: string, s: Date, e: Date)
    requires Valid(s) && Valid(e) && Ordinal(s) <= Ordinal(e)
    ensures BlockedOfFields([home, FormatLong(s), FormatLong(e)]) == Some(Blocked(home, s, e))
  {
    StrptimeFormatLong(s);
    StrptimeFormatLong(e);
  }

  /** The line needs no stripping, is no comment, and its fields are free of commas. */
  lemma BlockedLineShape(home: string, s: Date, e: Date)
    requires home != "" && Strip(home) == home && home[0] != '#'
    requires Valid(s) && Valid(e)
    ensures var line := home + [','] + FormatLong(s) + [','] + FormatLong(e);
      Strip(line) == line && line != "" && !StartsWith(line, "#")
    ensures ',' !in FormatLong(s) && ',' !in FormatLong(e)
    ensures Strip(FormatLong(s)) == FormatLong(s) && Strip(FormatLong(e)) == FormatLong(e)
  {
    var a, b := FormatLong(s), FormatLong(e);
    FormatLongShape(s);
    FormatLongShape(e);
    var line := home + [','] + a + [','] + b;
    assert line[0] == home[0] && line[|line| - 1] == b[|b| - 1];
    StripNoSpaceEnds(line);
  }

  // ---------------------------------------------------------------------
  // The file-by-file, line-by-line loop the report scripts share
  // ---------------------------------------------------------------------

  /** What a per-line parser (given the file's stem) accepts from all files,
      file by file and line by line. */
  function Gather<T>(files: seq<SourceFile>, parser: string -> string -> Option<T>): seq<T> {
    if files == [] then []
    else Gather(files[..|files| - 1], parser) + FilterMap(parser(files[|files| - 1].stem), files[|files| - 1].lines)
  }

  /** The inner loop: the accepted lines of one file, in line order. */
  method ReadLines<T>(parse: string -> Option<T>, lines: seq<string>) returns (found: seq<T>)
    ensures found == FilterMap(parse, lines)
  {
    found := [];
    var j := 0;
    while j < |lines|
      invariant 0 <= j <= |lines|
      invariant found == FilterMap(parse, lines[..j])
    {
      var parsed := parse(lines[j]);
      FilterMapStep(parse, lines, j);
      found := found + parsed.ToSeq();
      j := j + 1;
    }
    assert lines[..j] == lines;
  }

  /** The outer loop over the files, in the given (sorted) order. */
  method GatherLines<T>(files: seq<SourceFile>, parser: string -> string -> Option<T>) returns (found: seq<T>)
    ensures found == Gather(files, parser)
  {
    found := [];
    var i := 0;
    while i < |files|
      invariant 0 <= i <= |files|
      invariant found == Gather(files[..i], parser)
    {
      var more := ReadLines(parser(files[i].stem), files[i].lines);
      found := found + more;
      assert files[..i + 1][..i] == files[..i];
      i := i + 1;
    }
    assert files[..i] == files;
  }

  /** Every gathered value comes from one accepted line of one file, and
      every accepted line is gathered. */
  lemma {:induction false} GatherFromLines<T>(files: seq<SourceFile>, parser: string -> string -> Option<T>, x: T)
    ensures x in Gather(files, parser) <==>
      exists i, j :: 0 <= i < |files| && 0 <= j < |files[i].lines| && parser(files[i].stem)(files[i].lines[j]) == Some(x)
  {
    if files != [] {
      var init, last := files[..|files| - 1], files[|files| - 1];
      var n := |files| - 1;
      GatherFromLines(init, parser, x);
      FilterMapMembers(parser(last.stem), last.lines, x);
      assert Gather(files, parser) == Gather(init, parser) + FilterMap(parser(last.stem), last.lines);
      if x in Gather(init, parser) {
        var i, j :| 0 <= i < |init| && 0 <= j < |init[i].lines| && parser(init[i].stem)(init[i].lines[j]) == Some(x);
        assert files[i] == init[i];
        assert 0 <= i < |files| && 0 <= j < |files[i].lines| && parser(files[i].stem)(files[i].lines[j]) == Some(x);
      } else if x in FilterMap(parser(last.stem), last.lines) {
        var j :| 0 <= j < |last.lines| && parser(last.stem)(last.lines[j]) == Some(x);
        assert 0 <= n < |files| && 0 <= j < |files[n].lines| && parser(files[n].stem)(files[n].lines[j]) == Some(x);
      }
    }
  }

  /** Values are gathered in file order: everything from an earlier file
      comes before everything from a later one. */
  lemma {:induction false} GatherAppend<T>(files: seq<SourceFile>, more: seq<SourceFile>, parser: string -> string -> Option<T>)
    ensures Gather(files + more, parser) == Gather(files, parser) + Gather(more, parser)
  {
    if more == [] {
      assert files + more == files;
    } else {
      var init, last := more[..|more| - 1], more[|more| - 1];
      var tail := FilterMap(parser(last.stem), last.lines);
      assert (files + more)[..|files + more| - 1] == files + init;
      assert (files + more)[|files + more| - 1] == last;
      assert Gather(files + more, parser) == Gather(files + init, parser) + tail;
      assert Gather(more, parser) == Gather(init, parser) + tail;
      GatherAppend(files, init, parser);
      AppendAssoc(Gather(files, parser), Gather(init, parser), tail);
    }
  }

  lemma GatherSnoc<T>(files: seq<SourceFile>, f: SourceFile, parser: string -> string -> Option<T>)
    ensures Gather(files + [f], parser) == Gather(files, parser) + FilterMap(parser(f.stem), f.lines)
  {
    assert (files + [f])[..|files|] == files;
  }

  /** A directory entry: its file name and lines (os.listdir order). */
  datatype DirEntry = DirEntry(name: string, lines: seq<string>)

  /** The .txt files of a listing, each as its home (the name without
      ".txt") and lines. */
  function TxtFiles(dir: seq<DirEntry>): seq<SourceFile> {
    if dir == [] then []
    else
      var e := dir[|dir| - 1];
      TxtFiles(dir[..|dir| - 1]) + (if EndsWith(e.name, ".txt") then [SourceFile(e.name[..|e.name| - 4], e.lines)] else [])
  }

  lemma TxtFilesStep(dir: seq<DirEntry>, i: nat)
    requires i < |dir|
    ensures TxtFiles(dir[..i + 1]) == TxtFiles(dir[..i])
      + (if EndsWith(dir[i].name, ".txt") then [SourceFile(dir[i].name[..|dir[i].name| - 4], dir[i].lines)] else [])
  {
    assert dir[..i + 1][..i] == dir[..i];
  }

  /** What one listing entry adds: the values of its lines when it is a
      ".txt" file, nothing otherwise. */
  function EntryValues<T>(parser: string -> string -> Option<T>, e: DirEntry): seq<T> {
    if EndsWith(e.name, ".txt") then FilterMap(parser(e.name[..|e.name| - 4]), e.lines) else []
  }

  lemma GatherTxtStep<T>(dir: seq<DirEntry>, i: nat, parser: string -> string -> Option<T>)
    requires i < |dir|
    ensures Gather(TxtFiles(dir[..i + 1]), parser) == Gather(TxtFiles(dir[..i]), parser) + EntryValues(parser, dir[i])
  {
    TxtFilesStep(dir, i);
    var files := TxtFiles(dir[..i]);
    if EndsWith(dir[i].name, ".txt") {
      GatherSnoc(files, SourceFile(dir[i].name[..|dir[i].name| - 4], dir[i].lines), parser);
    } else {
      assert files + [] == files;
      assert Gather(files, parser) + [] == Gather(files, parser);
    }
  }
}
