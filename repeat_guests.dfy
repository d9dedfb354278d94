/** The repeat-guests listing: every visit in the overviews grouped by guest
    name, and the guests with more than one visit listed by visit count
    (most first), then name, each with their visits in start order. */
module RepeatGuests {
  import opened Wrappers
  import opened Text
  import opened Dates
  import opened Lists
  import opened Sorting
  import opened CalendarInput

  /** One stay of a guest: the home and the dates. */
  datatype Visit = Visit(home: string, start: Day, end: Day)

  /** A line's guest and visit. A line is read as the calendar reads it: not
      blank, no "Belegungen", a "|", at least four stripped fields, both
      dates readable (four- or two-digit year) and the end not before the
      start. */
  function GuestVisitOf(home: string, line: string): (r: Option<(string, Visit)>)
    ensures r.Some? ==> r.value.1.home == home && !Before(r.value.1.end, r.value.1.start)
  {
    match ParseBookingLine(home, line)
    case None => None
    case Some(b) =>
      BeforeIsOrdinalLess(b.end, b.start);
      Some((b.guest, Visit(b.home, b.start, b.end)))
  }

  function VisitParsers(): string -> string -> Option<(string, Visit)> {
    home => line => GuestVisitOf(home, line)
  }

  /** Every (guest, visit) of the overviews, file by file, line by line. */
  function AllVisits(files: seq<SourceFile>): seq<(string, Visit)> {
    Gather(files, VisitParsers())
  }

  /** collect_guest_visits: guest_visits[guest].append(visit). */
  function GuestVisits(files: seq<SourceFile>): map<string, seq<Visit>> {
    Buckets(map[], AllVisits(files))
  }

  /** A line yields a visit exactly under the conditions above. */
  lemma VisitAccepted(home: string, line: string)
    ensures GuestVisitOf(home, line).Some? <==>
      && !IsBlank(line) && !Contains(line, "Belegungen") && Contains(line, "|")
      && |Fields(line, "|")| >= 4
      && ParseDate(Fields(line, "|")[2]).Some? && ParseDate(Fields(line, "|")[3]).Some?
      && !Before(ParseDate(Fields(line, "|")[3]).value, ParseDate(Fields(line, "|")[2]).value)
    ensures GuestVisitOf(home, line).Some? ==> (GuestVisitOf(home, line).value ==
      (Fields(line, "|")[1], Visit(home, ParseDate(Fields(line, "|")[2]).value, ParseDate(Fields(line, "|")[3]).value)))
  {
    BookingLineAccepted(home, line);
    if ListedLine(line) {
      BookingOfFieldsAccepted(home, Fields(line, "|"));
    }
  }

  // ---------------------------------------------------------------------
  // collect_guest_visits
  // ---------------------------------------------------------------------

  lemma KeysOfSnoc<K, V>(kvs: seq<(K, V)>, kv: (K, V))
    ensures KeysOf(kvs + [kv]) == if kv.0 in KeysOf(kvs) then KeysOf(kvs) else KeysOf(kvs) + [kv.0]
  {
    assert (kvs + [kv])[..|kvs|] == kvs;
  }

  /** One visit appended, and its guest added to the key order when new. */
  method AddVisit(ghost found: seq<(string, Visit)>, visits: map<string, seq<Visit>>, guests: seq<string>, kv: (string, Visit))
    returns (visits': map<string, seq<Visit>>, guests': seq<string>)
    requires visits == Buckets(map[], found) && guests == KeysOf(found)
    ensures visits' == Buckets(map[], found + [kv]) && guests' == KeysOf(found + [kv])
  {
    KeysOfFacts(found);
    BucketsLookup(found, kv.0);
    KeysOfSnoc(found, kv);
    BucketsSnoc(map[], found, kv);
    guests' := if kv.0 in visits then guests else guests + [kv.0];
    visits' := AddPair(visits, kv);
  }

  /** The inner loop over one file's lines. */
  method ReadVisits(ghost found: seq<(string, Visit)>, visits: map<string, seq<Visit>>, guests: seq<string>,
                    home: string, lines: seq<string>)
    returns (visits': map<string, seq<Visit>>, guests': seq<string>)
    requires visits == Buckets(map[], found) && guests == KeysOf(found)
    ensures visits' == Buckets(map[], found + FilterMap(VisitParsers()(home), lines))
    ensures guests' == KeysOf(found + FilterMap(VisitParsers()(home), lines))
  {
    var parse := VisitParsers()(home);
    visits', guests' := visits, guests;
    ghost var acc := found;
    assert lines[..0] == [] && found + [] == found;
    var j := 0;
    while j < |lines|
      invariant 0 <= j <= |lines|
      invariant acc == found + FilterMap(parse, lines[..j])
      invariant visits' == Buckets(map[], acc) && guests' == KeysOf(acc)
    {
      FilterMapStep(parse, lines, j);
      var kv := parse(lines[j]);
      ghost var more := FilterMap(parse, lines[..j]);
      if kv.Some? {
        AppendAssoc(found, more, [kv.value]);
        visits', guests' := AddVisit(acc, visits', guests', kv.value);
        acc := acc + [kv.value];
      } else {
        assert more + [] == more;
      }
      j := j + 1;
    }
    assert lines[..j] == lines;
  }

  /** collect_guest_visits over the (sorted) overview files; `guests` is the
      dict's key order. */
  method CollectGuestVisits(files: seq<SourceFile>) returns (visits: map<string, seq<Visit>>, guests: seq<string>)
    ensures visits == GuestVisits(files) && guests == KeysOf(AllVisits(files))
  {
    visits, guests := map[], [];
    var i := 0;
    while i < |files|
      invariant 0 <= i <= |files|
      invariant visits == Buckets(map[], Gather(files[..i], VisitParsers()))
      invariant guests == KeysOf(Gather(files[..i], VisitParsers()))
    {
      assert files[..i + 1][..i] == files[..i];
      visits, guests := ReadVisits(Gather(files[..i], VisitParsers()), visits, guests, files[i].stem, files[i].lines);
      i := i + 1;
    }
    assert files[..i] == files;
  }

  /** Each accepted line is one visit of its guest: a guest is a key exactly
      when some line names them, and their list holds each of their visits
      once per line. */
  lemma GuestVisitsLookup(files: seq<SourceFile>, guest: string, v: Visit)
    ensures guest in GuestVisits(files) <==> exists v :: (guest, v) in AllVisits(files)
    ensures guest in GuestVisits(files) ==> multiset(GuestVisits(files)[guest])[v] == multiset(AllVisits(files))[(guest, v)]
  {
    var kvs := AllVisits(files);
    BucketsLookup(kvs, guest);
    BucketCount(kvs, guest, v);
    GuestKeys(kvs, guest);
  }

  lemma {:induction false} GuestKeys(kvs: seq<(string, Visit)>, guest: string)
    ensures BucketOf(kvs, guest) != [] <==> exists v :: (guest, v) in kvs
  {
    if kvs != [] {
      var init := kvs[..|kvs| - 1];
      GuestKeys(init, guest);
      assert forall x :: x in init ==> x in kvs;
      if kvs[|kvs| - 1].0 == guest {
        assert (guest, kvs[|kvs| - 1].1) in kvs;
      } else if exists v :: (guest, v) in kvs {
        var v :| (guest, v) in kvs;
        assert (guest, v) in init;
      }
    }
  }

  // ---------------------------------------------------------------------
  // The listing
  // ---------------------------------------------------------------------

  /** The guests with more than one visit. */
  function Repeats(visits: map<string, seq<Visit>>): map<string, seq<Visit>> {
    map g | g in visits && |visits[g]| > 1 :: visits[g]
  }

  function VisitCount(visits: map<string, seq<Visit>>, g: string): int {
    if g in visits then |visits[g]| else 0
  }

  /** (-len(visits), guest). */
  function GuestKey(visits: map<string, seq<Visit>>): string -> Key {
    g => Key(-VisitCount(visits, g), g, 0, 0)
  }

  function RepeatParser(visits: map<string, seq<Visit>>): string -> Option<string> {
    g => if VisitCount(visits, g) > 1 then Some(g) else None
  }

  /** sorted(repeat_guests.items(), key=...): the repeat guests in dict
      order, then sorted. */
  function GuestOrder(visits: map<string, seq<Visit>>, guests: seq<string>): seq<string> {
    SortBy(FilterMap(RepeatParser(visits), guests), GuestKey(visits))
  }

  /** The visit key v['start']. */
  function StartKey(): Visit -> Key {
    (v: Visit) => Key(DateRank(v.start), "", 0, 0)
  }

  function VisitLine(v: Visit): string {
    "  - " + v.home + ": " + FormatLong(v.start) + " - " + FormatLong(v.end)
  }

  function GuestLine(g: string, n: int): string {
    g + " (" + IntToString(n) + " visits):"
  }

  /** One guest's lines: the name and count, the visits by start, a blank
      line. */
  function GuestBlock(g: string, vs: seq<Visit>): seq<string> {
    [GuestLine(g, |vs|)] + Image(VisitLine, SortBy(vs, StartKey())) + [""]
  }

  function Header(n: int): string {
    "Found " + IntToString(n) + " guests with multiple visits:\n"
  }

  function Blocks(visits: map<string, seq<Visit>>, order: seq<string>): seq<string> {
    if order == [] then []
    else Blocks(visits, order[..|order| - 1]) + GuestBlock(order[|order| - 1], Lookup(visits, order[|order| - 1]))
  }

  function Lookup(visits: map<string, seq<Visit>>, g: string): seq<Visit> {
    if g in visits then visits[g] else []
  }

  const NoRepeats: string := "No repeat guests found."

  /** The text main writes. */
  function Listing(visits: map<string, seq<Visit>>, guests: seq<string>): string {
    var order := GuestOrder(visits, guests);
    if order == [] then NoRepeats
    else Join([Header(|order|)] + Blocks(visits, order), "\n")
  }

  /** The lines of one guest. */
  method GuestLines(g: string, vs: seq<Visit>) returns (lines: seq<string>)
    ensures lines == GuestBlock(g, vs)
  {
    var sorted := SortBy(vs, StartKey());
    var shown := [];
    var j := 0;
    while j < |sorted|
      invariant 0 <= j <= |sorted|
      invariant shown == Image(VisitLine, sorted[..j])
    {
      ImageStep(VisitLine, sorted, j);
      var v := sorted[j];
      shown := shown + ["  - " + v.home + ": " + FormatLong(v.start) + " - " + FormatLong(v.end)];
      j := j + 1;
    }
    assert sorted[..j] == sorted;
    lines := [g + " (" + IntToString(|vs|) + " visits):"] + shown + [""];
  }

  lemma BlocksStep(visits: map<string, seq<Visit>>, order: seq<string>, i: nat)
    requires i < |order|
    ensures Blocks(visits, order[..i + 1]) == Blocks(visits, order[..i]) + GuestBlock(order[i], Lookup(visits, order[i]))
  {
    assert order[..i + 1][..i] == order[..i];
  }

  /** main: the repeat guests' listing, or the notice when there are
      none. */
  method RepeatListing(visits: map<string, seq<Visit>>, guests: seq<string>) returns (output: string)
    ensures output == Listing(visits, guests)
  {
    var repeats := ReadLines(RepeatParser(visits), guests);
    if repeats == [] {
      return NoRepeats;
    }
    var order := SortBy(repeats, GuestKey(visits));
    SortByLength(repeats, GuestKey(visits));
    var lines := [];
    var i := 0;
    while i < |order|
      invariant 0 <= i <= |order|
      invariant lines == Blocks(visits, order[..i])
    {
      BlocksStep(visits, order, i);
      var block := GuestLines(order[i], Lookup(visits, order[i]));
      lines := lines + block;
      i := i + 1;
    }
    assert order[..i] == order;
    output := Join([Header(|order|)] + lines, "\n");
  }

  /** The guests listed are exactly those with more than one visit. */
  lemma RepeatMembers(visits: map<string, seq<Visit>>, guests: seq<string>)
    requires forall g :: g in guests <==> g in visits
    ensures forall g :: g in GuestOrder(visits, guests) <==> g in Repeats(visits)
  {
    var parsed := FilterMap(RepeatParser(visits), guests);
    SortByMembers(parsed, GuestKey(visits));
    forall g ensures g in parsed <==> g in Repeats(visits) {
      FilterMapMembers(RepeatParser(visits), guests, g);
      if g in Repeats(visits) {
        var i :| 0 <= i < |guests| && guests[i] == g;
      }
    }
  }

  /** The listing names each guest once, by visit count (most first) and
      then by name. */
  lemma GuestOrderStrict(visits: map<string, seq<Visit>>, guests: seq<string>)
    requires forall i, j :: 0 <= i < j < |guests| ==> guests[i] != guests[j]
    ensures var order := GuestOrder(visits, guests);
      forall i, j :: 0 <= i < j < |order| ==>
        VisitCount(visits, order[i]) > VisitCount(visits, order[j])
        || (VisitCount(visits, order[i]) == VisitCount(visits, order[j]) && StrLess(order[i], order[j]))
  {
    var parsed := FilterMap(RepeatParser(visits), guests);
    var order := SortBy(parsed, GuestKey(visits));
    SortByCorrect(parsed, GuestKey(visits));
    DistinctFilter(visits, guests);
    forall i, j | 0 <= i < j < |order|
      ensures VisitCount(visits, order[i]) > VisitCount(visits, order[j])
        || (VisitCount(visits, order[i]) == VisitCount(visits, order[j]) && StrLess(order[i], order[j]))
    {
      assert KeyLe(GuestKey(visits)(order[i]), GuestKey(visits)(order[j]));
      DistinctAfterSort(parsed, GuestKey(visits), i, j);
    }
  }

  lemma {:induction false} DistinctFilter(visits: map<string, seq<Visit>>, guests: seq<string>)
    requires forall i, j :: 0 <= i < j < |guests| ==> guests[i] != guests[j]
    ensures Distinct(FilterMap(RepeatParser(visits), guests))
  {
    if guests != [] {
      var init, last := guests[..|guests| - 1], guests[|guests| - 1];
      DistinctFilter(visits, init);
      FilterMapMembers(RepeatParser(visits), init, last);
    }
  }

  predicate Distinct(s: seq<string>) {
    forall i, j :: 0 <= i < j < |s| ==> s[i] != s[j]
  }

  /** Two places of a sorted list of distinct elements hold different
      elements. */
  lemma DistinctAfterSort(s: seq<string>, key: string -> Key, i: int, j: int)
    requires Distinct(s)
    requires 0 <= i < j < |SortBy(s, key)|
    ensures SortBy(s, key)[i] != SortBy(s, key)[j]
  {
    var r := SortBy(s, key);
    SortByCorrect(s, key);
    if r[i] == r[j] {
      var x := r[i];
      assert multiset(r)[x] >= 2 by {
        assert r == r[..j] + [r[j]] + r[j + 1..];
        assert x in r[..j];
      }
      DistinctCount(s, x);
    }
  }

  lemma {:induction false} DistinctCount(s: seq<string>, x: string)
    requires Distinct(s)
    ensures multiset(s)[x] <= 1
  {
    if s != [] {
      var init := s[..|s| - 1];
      DistinctCount(init, x);
      assert s == init + [s[|s| - 1]];
    }
  }

  /** The key order collect_guest_visits returns names each guest of the
      map once. */
  lemma GuestKeysDistinct(files: seq<SourceFile>)
    ensures forall g :: g in KeysOf(AllVisits(files)) <==> g in GuestVisits(files)
    ensures var ks := KeysOf(AllVisits(files)); forall i, j :: 0 <= i < j < |ks| ==> ks[i] != ks[j]
  {
    KeysOfFacts(AllVisits(files));
    forall g ensures g in KeysOf(AllVisits(files)) <==> g in GuestVisits(files) {
      BucketsLookup(AllVisits(files), g);
    }
  }

  /** Each guest's visits are listed by start date, every one of them. */
  lemma VisitsByStart(vs: seq<Visit>)
    ensures var s := SortBy(vs, StartKey());
      && multiset(s) == multiset(vs)
      && forall i, j :: 0 <= i < j < |s| ==> !Before(s[j].start, s[i].start)
  {
    var s := SortBy(vs, StartKey());
    SortByCorrect(vs, StartKey());
    forall i, j | 0 <= i < j < |s| ensures !Before(s[j].start, s[i].start) {
      assert KeyLe(StartKey()(s[i]), StartKey()(s[j]));
      DateRankOrder(s[j].start, s[i].start);
    }
  }

  lemma JoinStartsWith(parts: seq<string>, sep: string)
    requires parts != []
    ensures StartsWith(Join(parts, sep), parts[0])
  {
    if |parts| > 1 {
      assert Join(parts, sep)[..|parts[0]|] == parts[0];
    }
  }

  /** Without a repeat guest the output is only the notice. */
  lemma ListingNotice(visits: map<string, seq<Visit>>, guests: seq<string>)
    requires forall g :: g in guests <==> g in visits
    ensures Repeats(visits) == map[] <==> Listing(visits, guests) == NoRepeats
  {
    RepeatMembers(visits, guests);
    var order := GuestOrder(visits, guests);
    if order != [] {
      assert order[0] in Repeats(visits);
      ListingHeader(visits, guests);
      assert NoRepeats[..6] != "Found ";
    } else if Repeats(visits) != map[] {
      var g :| g in Repeats(visits);
    }
  }

  /** With repeat guests the output starts with the count line. */
  lemma ListingHeader(visits: map<string, seq<Visit>>, guests: seq<string>)
    requires GuestOrder(visits, guests) != []
    ensures StartsWith(Listing(visits, guests), Header(|GuestOrder(visits, guests)|))
    ensures StartsWith(Listing(visits, guests), "Found ")
  {
    var order := GuestOrder(visits, guests);
    var h := Header(|order|);
    JoinStartsWith([h] + Blocks(visits, order), "\n");
    assert h[..6] == "Found ";
  }
}
