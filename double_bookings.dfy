/** The double-bookings alert: within each home's overview, a booking
    directly followed (in arrival order) by another booking of the same
    guest that starts on the day the first one ends. Each such pair is
    reported once; a history keyed by "<home>_<id1>_<id2>" remembers what was
    already reported. */
module DoubleBookings {
  import opened Wrappers
  import opened Text
  import opened Dates
  import opened Lists
  import opened Sorting
  import opened CalendarInput

  /** parse_booking's dict: the id as written, the other fields stripped. */
  datatype Reservation = Reservation(id: string, guest: string, arrival: string, departure: string)

  /** 'first_booking' / 'second_booking' of a report. */
  datatype Stay = Stay(id: string, arrival: string, departure: string)

  /** consecutive_info: the home, the guest and the two bookings. */
  datatype Pair = Pair(fewo: string, guest: string, first: Stay, second: Stay)

  /** A history entry: the date it was reported and the pair. */
  datatype Entry = Entry(reportedDate: string, details: Pair)

  /** The new pairs found and the history after recording them. */
  datatype Outcome = Outcome(found: seq<Pair>, history: map<string, Entry>)

  /** parse_booking: at least nine "|"-fields of the stripped line, and no
      "Belegungen" anywhere in the line. */
  function ParseBooking(line: string): (r: Option<Reservation>)
    ensures r.Some? ==> !Contains(line, "Belegungen")
  {
    var parts := Split(Strip(line), "|");
    if |parts| < 9 || Contains(line, "Belegungen") then None
    else Some(Reservation(parts[0], Strip(parts[1]), Strip(parts[2]), Strip(parts[3])))
  }

  /** A line is read exactly when its stripped form has nine "|"-fields and
      the line holds no "Belegungen"; the id is the first field as written,
      the guest and the dates are the next three fields stripped. */
  lemma ParseBookingAccepted(line: string)
    ensures ParseBooking(line).Some? <==>
      |Split(Strip(line), "|")| >= 9 && !Contains(line, "Belegungen")
    ensures ParseBooking(line).Some? ==>
      var parts := Split(Strip(line), "|");
      ParseBooking(line).value
        == Reservation(parts[0], Strip(parts[1]), Strip(parts[2]), Strip(parts[3]))
  {
  }

  function BookingParser(): string -> Option<Reservation> {
    line => ParseBooking(line)
  }

  /** The sort key: the arrival read as DD.MM.YY. */
  function ArrivalKey(): Reservation -> Key {
    (b: Reservation) => Key(match Strptime(b.arrival, false) case Some(d) => DateRank(d) case None => 0, "", 0, 0)
  }

  predicate ArrivalsParse(bs: seq<Reservation>) {
    forall i :: 0 <= i < |bs| ==> Strptime(bs[i].arrival, false).Some?
  }

  /** A file's bookings sorted by arrival; None when an arrival does not
      parse, where the sort raises and the file is skipped. */
  function SortedBookings(lines: seq<string>): Option<seq<Reservation>> {
    var bs := FilterMap(BookingParser(), lines);
    if ArrivalsParse(bs) then Some(SortBy(bs, ArrivalKey())) else None
  }

  /** Same guest, and the first departure string equals the second arrival
      string. */
  predicate Follows(a: Reservation, b: Reservation) {
    a.guest == b.guest && a.departure == b.arrival
  }

  function PairOf(fewo: string, a: Reservation, b: Reservation): Pair {
    Pair(fewo, a.guest, Stay(a.id, a.arrival, a.departure), Stay(b.id, b.arrival, b.departure))
  }

  /** booking_pair_id. */
  function PairId(p: Pair): string {
    p.fewo + "_" + p.first.id + "_" + p.second.id
  }

  /** The adjacent pairs of sorted bookings that follow each other. */
  function Adjacent(fewo: string, bs: seq<Reservation>): seq<Pair> {
    if |bs| < 2 then []
    else
      var n := |bs|;
      Adjacent(fewo, bs[..n - 1]) + (if Follows(bs[n - 2], bs[n - 1]) then [PairOf(fewo, bs[n - 2], bs[n - 1])] else [])
  }

  /** The pairs a file yields before the history is consulted. */
  function FilePairs(f: SourceFile): seq<Pair> {
    match SortedBookings(f.lines)
    case None => []
    case Some(bs) => Adjacent(f.stem, bs)
  }

  function AllPairs(files: seq<SourceFile>): seq<Pair> {
    if files == [] then [] else AllPairs(files[..|files| - 1]) + FilePairs(files[|files| - 1])
  }

  /** One candidate: reported and remembered unless its id is known. */
  function Record(o: Outcome, p: Pair, date: string): Outcome {
    if PairId(p) in o.history then o
    else Outcome(o.found + [p], o.history[PairId(p) := Entry(date, p)])
  }

  function RecordAll(o: Outcome, ps: seq<Pair>, date: string): Outcome {
    if ps == [] then o else Record(RecordAll(o, ps[..|ps| - 1], date), ps[|ps| - 1], date)
  }

  /** find_consecutive_bookings with the loaded history and today's date. */
  function FindConsecutive(files: seq<SourceFile>, history: map<string, Entry>, date: string): Outcome {
    RecordAll(Outcome([], history), AllPairs(files), date)
  }

  // ---------------------------------------------------------------------
  // The loops
  // ---------------------------------------------------------------------

  lemma RecordAllSnoc(o: Outcome, ps: seq<Pair>, p: Pair, date: string)
    ensures RecordAll(o, ps + [p], date) == Record(RecordAll(o, ps, date), p, date)
  {
    assert (ps + [p])[..|ps|] == ps;
  }

  lemma {:induction false} RecordAllAppend(o: Outcome, a: seq<Pair>, b: seq<Pair>, date: string)
    ensures RecordAll(o, a + b, date) == RecordAll(RecordAll(o, a, date), b, date)
  {
    if b == [] {
      assert a + b == a;
    } else {
      assert (a + b)[..|a + b| - 1] == a + b[..|b| - 1];
      RecordAllAppend(o, a, b[..|b| - 1], date);
    }
  }

  lemma AdjacentStep(fewo: string, bs: seq<Reservation>, i: nat)
    requires i + 1 < |bs|
    ensures Adjacent(fewo, bs[..i + 2]) == Adjacent(fewo, bs[..i + 1])
      + (if Follows(bs[i], bs[i + 1]) then [PairOf(fewo, bs[i], bs[i + 1])] else [])
  {
    assert bs[..i + 2][..i + 1] == bs[..i + 1];
  }

  /** The scan of one file's sorted bookings. */
  method ScanFile(fewo: string, bs: seq<Reservation>, o: Outcome, date: string) returns (o': Outcome)
    ensures o' == RecordAll(o, Adjacent(fewo, bs), date)
  {
    o' := o;
    if |bs| < 2 {
      return;
    }
    var i := 0;
    while i < |bs| - 1
      invariant 0 <= i <= |bs| - 1
      invariant o' == RecordAll(o, Adjacent(fewo, bs[..i + 1]), date)
    {
      var current, next := bs[i], bs[i + 1];
      AdjacentStep(fewo, bs, i);
      ghost var before := Adjacent(fewo, bs[..i + 1]);
      if current.guest == next.guest && current.departure == next.arrival {
        var p := PairOf(fewo, current, next);
        RecordAllSnoc(o, before, p, date);
        if PairId(p) !in o'.history {
          o' := Outcome(o'.found + [p], o'.history[PairId(p) := Entry(date, p)]);
        }
      } else {
        assert before + [] == before;
      }
      i := i + 1;
    }
    assert bs[..i + 1] == bs;
  }

  lemma AllPairsSnoc(files: seq<SourceFile>, i: nat)
    requires i < |files|
    ensures AllPairs(files[..i + 1]) == AllPairs(files[..i]) + FilePairs(files[i])
  {
    assert files[..i + 1][..i] == files[..i];
  }

  /** The body of the loop over the files: a file whose arrivals do not all
      parse is skipped, the others are scanned in arrival order. */
  method ScanOverview(f: SourceFile, o: Outcome, date: string) returns (o': Outcome)
    ensures o' == RecordAll(o, FilePairs(f), date)
  {
    var bookings := ReadLines(BookingParser(), f.lines);
    if ArrivalsParse(bookings) {
      var sorted := SortBy(bookings, ArrivalKey());
      o' := ScanFile(f.stem, sorted, o, date);
    } else {
      o' := o;
    }
  }

  /** find_consecutive_bookings: every overview file in turn; a file whose
      arrivals do not all parse is skipped. */
  method FindConsecutiveBookings(files: seq<SourceFile>, history: map<string, Entry>, date: string)
    returns (found: seq<Pair>, history': map<string, Entry>)
    ensures Outcome(found, history') == FindConsecutive(files, history, date)
  {
    var o := Outcome([], history);
    var k := 0;
    while k < |files|
      invariant 0 <= k <= |files|
      invariant o == RecordAll(Outcome([], history), AllPairs(files[..k]), date)
    {
      AllPairsSnoc(files, k);
      RecordAllAppend(Outcome([], history), AllPairs(files[..k]), FilePairs(files[k]), date);
      o := ScanOverview(files[k], o, date);
      k := k + 1;
    }
    assert files[..k] == files;
    found, history' := o.found, o.history;
  }

  // ---------------------------------------------------------------------
  // What the history guarantees
  // ---------------------------------------------------------------------

  /** What a history and the pairs reported since it was loaded guarantee:
      no earlier entry is lost or changed, each reported pair's id was
      unknown before, is now recorded with the pair, and is reported once,
      and every new id belongs to a reported pair. */
  predicate Consistent(h: map<string, Entry>, r: Outcome, date: string) {
    KeepsEntries(h, r, date) && IdsOnce(h, r)
  }

  predicate KeepsEntries(h: map<string, Entry>, r: Outcome, date: string) {
    && (forall id :: id in h ==> id in r.history && r.history[id] == h[id])
    && (forall i :: 0 <= i < |r.found| ==>
          PairId(r.found[i]) !in h && PairId(r.found[i]) in r.history && r.history[PairId(r.found[i])] == Entry(date, r.found[i]))
  }

  predicate IdsOnce(h: map<string, Entry>, r: Outcome) {
    Distinct(r) && NewIdsReported(h, r)
  }

  predicate Distinct(r: Outcome) {
    forall i, j :: 0 <= i < j < |r.found| ==> PairId(r.found[i]) != PairId(r.found[j])
  }

  predicate NewIdsReported(h: map<string, Entry>, r: Outcome) {
    forall id :: id in r.history ==> id in h || exists i :: 0 <= i < |r.found| && PairId(r.found[i]) == id
  }

  lemma RecordKeepsEntries(h: map<string, Entry>, m: Outcome, p: Pair, date: string)
    requires KeepsEntries(h, m, date)
    ensures KeepsEntries(h, Record(m, p, date), date)
  {
    if PairId(p) !in m.history {
      var r := Record(m, p, date);
      forall i | 0 <= i < |r.found|
        ensures PairId(r.found[i]) !in h && PairId(r.found[i]) in r.history && r.history[PairId(r.found[i])] == Entry(date, r.found[i])
      {
        if i < |m.found| {
          assert r.found[i] == m.found[i];
        }
      }
    }
  }

  lemma RecordDistinct(h: map<string, Entry>, m: Outcome, p: Pair, date: string)
    requires KeepsEntries(h, m, date) && Distinct(m)
    ensures Distinct(Record(m, p, date))
  {
    if PairId(p) !in m.history {
      var r := Record(m, p, date);
      assert r.found == m.found + [p];
      forall i, j | 0 <= i < j < |r.found|
        ensures PairId(r.found[i]) != PairId(r.found[j])
      {
        assert r.found[i] == m.found[i];
        if j < |m.found| {
          assert r.found[j] == m.found[j];
        }
      }
    }
  }

  lemma RecordNewIds(h: map<string, Entry>, m: Outcome, p: Pair, date: string)
    requires NewIdsReported(h, m)
    ensures NewIdsReported(h, Record(m, p, date))
  {
    var id := PairId(p);
    if id !in m.history {
      var r := Record(m, p, date);
      assert r.found == m.found + [p];
      forall x | x in r.history && x !in h
        ensures exists i :: 0 <= i < |r.found| && PairId(r.found[i]) == x
      {
        if x == id {
          assert PairId(r.found[|m.found|]) == x;
        } else {
          var i :| 0 <= i < |m.found| && PairId(m.found[i]) == x;
          assert PairId(r.found[i]) == x;
        }
      }
    }
  }

  lemma {:induction false} RecordAllConsistent(h: map<string, Entry>, ps: seq<Pair>, date: string)
    ensures Consistent(h, RecordAll(Outcome([], h), ps, date), date)
  {
    if ps != [] {
      RecordAllConsistent(h, ps[..|ps| - 1], date);
      var m := RecordAll(Outcome([], h), ps[..|ps| - 1], date);
      RecordKeepsEntries(h, m, ps[|ps| - 1], date);
      RecordDistinct(h, m, ps[|ps| - 1], date);
      RecordNewIds(h, m, ps[|ps| - 1], date);
    }
  }

  /** Only candidates are reported, and every candidate's id ends up in the
      history. */
  lemma {:induction false} RecordAllFrom(h: map<string, Entry>, ps: seq<Pair>, date: string)
    ensures forall p :: p in RecordAll(Outcome([], h), ps, date).found ==> p in ps
    ensures forall p :: p in ps ==> PairId(p) in RecordAll(Outcome([], h), ps, date).history
  {
    if ps != [] {
      var init := ps[..|ps| - 1];
      RecordAllFrom(h, init, date);
      var m := RecordAll(Outcome([], h), init, date);
      assert forall p :: p in init ==> p in ps;
      assert forall id :: id in m.history ==> id in Record(m, ps[|ps| - 1], date).history;
    }
  }

  /** find_consecutive_bookings reports only pairs it had not reported
      before, each once, never forgets an entry, and records exactly what it
      reports. */
  lemma ReportedOnce(files: seq<SourceFile>, history: map<string, Entry>, date: string)
    ensures var r := FindConsecutive(files, history, date);
      && (forall id :: id in history ==> id in r.history && r.history[id] == history[id])
      && (forall p :: p in r.found ==> PairId(p) !in history && p in AllPairs(files) && PairId(p) in r.history)
      && (forall i, j :: 0 <= i < j < |r.found| ==> PairId(r.found[i]) != PairId(r.found[j]))
      && (forall id :: id in r.history <==> id in history || exists p :: p in r.found && PairId(p) == id)
  {
    RecordAllConsistent(history, AllPairs(files), date);
    RecordAllFrom(history, AllPairs(files), date);
    var r := FindConsecutive(files, history, date);
    forall id | id in r.history && id !in history
      ensures exists p :: p in r.found && PairId(p) == id
    {
      var i :| 0 <= i < |r.found| && PairId(r.found[i]) == id;
      assert r.found[i] in r.found;
    }
  }

  /** With a history that already holds every pair's id, nothing is
      reported and the history stays as it is. */
  lemma {:induction false} RecordAllKnown(o: Outcome, ps: seq<Pair>, date: string)
    requires forall p :: p in ps ==> PairId(p) in o.history
    ensures RecordAll(o, ps, date) == o
  {
    if ps != [] {
      RecordAllKnown(o, ps[..|ps| - 1], date);
      assert ps[|ps| - 1] in ps;
    }
  }

  /** Running again on the same overviews with the saved history reports
      nothing and changes nothing. */
  lemma RerunReportsNothing(files: seq<SourceFile>, history: map<string, Entry>, date: string, later: string)
    ensures var r := FindConsecutive(files, history, date);
      FindConsecutive(files, r.history, later) == Outcome([], r.history)
  {
    var r := FindConsecutive(files, history, date);
    RecordAllFrom(history, AllPairs(files), date);
    RecordAllKnown(Outcome([], r.history), AllPairs(files), later);
  }

  // ---------------------------------------------------------------------
  // What a pair is
  // ---------------------------------------------------------------------

  /** The bookings at i and i + 1 follow each other and make the pair p. */
  predicate PairAt(fewo: string, bs: seq<Reservation>, i: int, p: Pair) {
    0 <= i < |bs| - 1 && Follows(bs[i], bs[i + 1]) && p == PairOf(fewo, bs[i], bs[i + 1])
  }

  /** A pair comes from two neighbours in arrival order with the same guest,
      the first leaving on the day (as written) the second arrives. */
  lemma {:induction false} AdjacentMembers(fewo: string, bs: seq<Reservation>, p: Pair)
    ensures p in Adjacent(fewo, bs) <==> exists i :: PairAt(fewo, bs, i, p)
  {
    if |bs| >= 2 {
      var n := |bs|;
      var init := bs[..n - 1];
      var tail := if Follows(bs[n - 2], bs[n - 1]) then [PairOf(fewo, bs[n - 2], bs[n - 1])] else [];
      assert Adjacent(fewo, bs) == Adjacent(fewo, init) + tail;
      AdjacentMembers(fewo, init, p);
      if p in Adjacent(fewo, init) {
        var i :| PairAt(fewo, init, i, p);
        assert bs[i] == init[i] && bs[i + 1] == init[i + 1];
        assert PairAt(fewo, bs, i, p);
      } else if p in tail {
        assert PairAt(fewo, bs, n - 2, p);
      }
      if exists i :: PairAt(fewo, bs, i, p) {
        var i :| PairAt(fewo, bs, i, p);
        if i < n - 2 {
          assert init[i] == bs[i] && init[i + 1] == bs[i + 1];
          assert PairAt(fewo, init, i, p);
        } else {
          assert p in tail;
        }
      }
    }
  }

  /** The bookings a file is scanned in: every parsed booking, once, with
      equal arrivals kept in line order. */
  lemma SortedBookingsPermutes(lines: seq<string>)
    requires SortedBookings(lines).Some?
    ensures multiset(SortedBookings(lines).value) == multiset(FilterMap(BookingParser(), lines))
    ensures forall k :: Ties(SortedBookings(lines).value, ArrivalKey(), k) == Ties(FilterMap(BookingParser(), lines), ArrivalKey(), k)
  {
    SortByCorrect(FilterMap(BookingParser(), lines), ArrivalKey());
  }

  /** ... and in arrival order. */
  lemma SortedBookingsOrdered(bs: seq<Reservation>)
    requires ArrivalsParse(bs)
    ensures ArrivalsParse(SortBy(bs, ArrivalKey()))
    ensures var s := SortBy(bs, ArrivalKey());
      forall i, j :: 0 <= i < j < |s| ==> !Before(Strptime(s[j].arrival, false).value, Strptime(s[i].arrival, false).value)
  {
    var s := SortBy(bs, ArrivalKey());
    SortByMembers(bs, ArrivalKey());
    SortByCorrect(bs, ArrivalKey());
    forall i | 0 <= i < |s| ensures Strptime(s[i].arrival, false).Some? {
      assert s[i] in bs;
    }
    forall i, j | 0 <= i < j < |s|
      ensures !Before(Strptime(s[j].arrival, false).value, Strptime(s[i].arrival, false).value)
    {
      assert KeyLe(ArrivalKey()(s[i]), ArrivalKey()(s[j]));
      DateRankOrder(Strptime(s[j].arrival, false).value, Strptime(s[i].arrival, false).value);
    }
  }

  /** A file with an arrival that does not parse yields no pairs. */
  lemma UnparsableFileSkipped(f: SourceFile, i: nat)
    requires i < |FilterMap(BookingParser(), f.lines)|
    requires Strptime(FilterMap(BookingParser(), f.lines)[i].arrival, false).None?
    ensures FilePairs(f) == []
  {
  }

  // ---------------------------------------------------------------------
  // generate_email_content
  // ---------------------------------------------------------------------

  /** The five lines of one pair. */
  function PairBlock(p: Pair): seq<string> {
    ["Holiday Home: " + p.fewo,
     "Guest: " + p.guest,
     "First Booking: " + p.first.arrival + " - " + p.first.departure,
     "Second Booking: " + p.second.arrival + " - " + p.second.departure,
     ""]
  }

  function PairLines(ps: seq<Pair>): seq<string> {
    if ps == [] then [] else PairLines(ps[..|ps| - 1]) + PairBlock(ps[|ps| - 1])
  }

  function EmailLines(ps: seq<Pair>): seq<string> {
    ["Doppelbuchungen Alert:", ""] + PairLines(ps)
  }

  /** generate_email_content: None for no pairs, else the lines joined
      with newlines. */
  method GenerateEmailContent(ps: seq<Pair>) returns (content: Option<string>)
    ensures ps == [] <==> content.None?
    ensures content.Some? ==> content.value == Join(EmailLines(ps), "\n")
  {
    if ps == [] {
      return None;
    }
    var lines := ["Doppelbuchungen Alert:", ""];
    var i := 0;
    while i < |ps|
      invariant 0 <= i <= |ps|
      invariant lines == EmailLines(ps[..i])
    {
      var p := ps[i];
      assert ps[..i + 1][..i] == ps[..i];
      lines := lines + ["Holiday Home: " + p.fewo];
      lines := lines + ["Guest: " + p.guest];
      lines := lines + ["First Booking: " + p.first.arrival + " - " + p.first.departure];
      lines := lines + ["Second Booking: " + p.second.arrival + " - " + p.second.departure];
      lines := lines + [""];
      i := i + 1;
    }
    assert ps[..i] == ps;
    return Some(Join(lines, "\n"));
  }

  /** The pairs' lines are five per pair, in order. */
  lemma {:induction false} PairLinesAt(ps: seq<Pair>)
    ensures |PairLines(ps)| == 5 * |ps|
    ensures forall i :: 0 <= i < |ps| ==> PairLines(ps)[5 * i..5 * i + 5] == PairBlock(ps[i])
  {
    if ps != [] {
      var init, last := ps[..|ps| - 1], ps[|ps| - 1];
      PairLinesAt(init);
      var before := PairLines(init);
      assert PairLines(ps) == before + PairBlock(last);
      forall i | 0 <= i < |ps|
        ensures PairLines(ps)[5 * i..5 * i + 5] == PairBlock(ps[i])
      {
        if i < |init| {
          SliceAppendLeft(before, PairBlock(last), 5 * i, 5 * i + 5);
          assert init[i] == ps[i];
        } else {
          SliceAppendRight(before, PairBlock(last), 5 * i, 5 * i + 5);
        }
      }
    }
  }

  /** The e-mail is the header and a blank line, then the five lines of
      each pair in order. */
  lemma EmailShape(ps: seq<Pair>)
    ensures |EmailLines(ps)| == 2 + 5 * |ps|
    ensures EmailLines(ps)[..2] == ["Doppelbuchungen Alert:", ""]
    ensures forall i :: 0 <= i < |ps| ==> EmailLines(ps)[2 + 5 * i..2 + 5 * i + 5] == PairBlock(ps[i])
  {
    var header := ["Doppelbuchungen Alert:", ""];
    PairLinesAt(ps);
    forall i | 0 <= i < |ps|
      ensures EmailLines(ps)[2 + 5 * i..2 + 5 * i + 5] == PairBlock(ps[i])
    {
      SliceAppendRight(header, PairLines(ps), 2 + 5 * i, 2 + 5 * i + 5);
    }
  }
}
