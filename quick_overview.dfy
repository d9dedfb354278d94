/** The quick overview page: for every home, whether a guest is in the house
    today (and for how many more days), how many days until the next
    arrival, or that nothing is booked. */
module QuickOverview {
  import opened Wrappers
  import opened Text
  import opened Dates
  import opened CalendarInput
  import opened Lists
  import opened Reports

  /** The part of a line get_status looks at. */
  datatype Stay = Stay(arrival: Date, departure: Date, count: Option<int>)

  /** get_status's tagged tuples: ("occupied", count, days left),
      ("vacant", days until the next arrival) and ("empty",). */
  datatype Status = Occupied(count: Option<int>, remaining: int) | Vacant(days: int) | Empty

  /** A line get_status uses: listed, six fields, both dates parse. */
  function ParseStay(line: string): (r: Option<Stay>)
    ensures r.Some? ==> Valid(r.value.arrival) && Valid(r.value.departure)
  {
    match ReportFields(line)
    case None => None
    case Some(parts) =>
      var a, d := ParseDate(parts[2]), ParseDate(parts[3]);
      if a.None? || d.None? then None else Some(Stay(a.value, d.value, GuestCount(parts[5])))
  }

  /** A line gives a stay exactly when the report reads it and both of its
      dates parse; nothing compares the two dates. */
  lemma StayLineKept(line: string)
    ensures ParseStay(line).Some? <==>
      ReportFields(line).Some? && ParseDate(ReportFields(line).value[2]).Some?
      && ParseDate(ReportFields(line).value[3]).Some?
    ensures ParseStay(line).Some? ==>
      ParseStay(line).value.arrival == ParseDate(ReportFields(line).value[2]).value
      && ParseStay(line).value.departure == ParseDate(ReportFields(line).value[3]).value
      && ParseStay(line).value.count == GuestCount(ReportFields(line).value[5])
  {
  }

  /** A line whose departure lies before its arrival is kept as it stands. */
  lemma ReversedStayKept(a: Date, d: Date)
    requires Valid(a) && Valid(d) && Before(d, a)
    ensures ParseStay(Join(["1", "Gast", FormatLong(a), FormatLong(d), "3", "2"], "|"))
      == Some(Stay(a, d, GuestCount("2")))
  {
    var parts := ["1", "Gast", FormatLong(a), FormatLong(d), "3", "2"];
    assert forall i :: 0 <= i < |parts| ==> '|' !in parts[i] && 'B' !in parts[i] by {
      FormatLongNoChar(a, '|');
      FormatLongNoChar(d, '|');
      FormatLongNoChar(a, 'B');
      FormatLongNoChar(d, 'B');
    }
    ListedOfParts(parts);
    StayOfPieces(Join(parts, "|"), parts);
    assert ParseDate(parts[2]) == Some(a) by { StrptimeFormatLong(a); }
    assert ParseDate(parts[3]) == Some(d) by { StrptimeFormatLong(d); }
    StripDigit('2');
  }

  /** The pieces joined with "|", when the first is "1" and none holds a "|"
      or a 'B', form a listed line that splits back into them. */
  lemma ListedOfParts(parts: seq<string>)
    requires |parts| >= 2 && parts[0] == "1"
    requires forall i :: 0 <= i < |parts| ==> '|' !in parts[i] && 'B' !in parts[i]
    ensures Split(Join(parts, "|"), "|") == parts && ListedLine(Join(parts, "|"))
  {
    var line := Join(parts, "|");
    SplitJoin(parts, "|");
    JoinWithout(parts, "|", 'B');
    assert line == "1|" + Join(parts[1..], "|");
    assert line[0] == '1';
    StripEmptyIffBlank(line);
    assert OccursAt(line, "|", 1);
    ContainsIff(line, "|");
    IndexFromAbsent(line, "Belegungen", 0);
  }

  /** The stay of a listed line, read off its pieces. */
  lemma StayOfPieces(line: string, parts: seq<string>)
    requires ListedLine(line) && Split(line, "|") == parts && |parts| >= 6
    ensures ParseStay(line) ==
      if ParseDate(parts[2]).Some? && ParseDate(parts[3]).Some?
      then Some(Stay(ParseDate(parts[2]).value, ParseDate(parts[3]).value, GuestCount(Strip(parts[5]))))
      else None
  {
    var f := StripAll(parts);
    assert ReportFields(line) == Some(f);
    assert ParseDate(f[2]) == ParseDate(parts[2]) by {
      StripAllAt(parts, 2);
      ParseDateOfStripped(parts[2]);
    }
    assert ParseDate(f[3]) == ParseDate(parts[3]) by {
      StripAllAt(parts, 3);
      ParseDateOfStripped(parts[3]);
    }
    assert f[5] == Strip(parts[5]) by {
      StripAllAt(parts, 5);
    }
  }

  function StayParser(): string -> Option<Stay> {
    line => ParseStay(line)
  }

  /** The stays of a file's usable lines, in line order. */
  function Stays(lines: seq<string>): seq<Stay> {
    FilterMap(StayParser(), lines)
  }

  predicate ValidStay(s: Stay) {
    Valid(s.arrival) && Valid(s.departure)
  }

  predicate AllValid(stays: seq<Stay>) {
    forall i :: 0 <= i < |stays| ==> ValidStay(stays[i])
  }

  lemma StaysValid(lines: seq<string>)
    ensures AllValid(Stays(lines))
  {
    FilterMapAll(StayParser(), lines, ValidStay);
  }

  /** arrival <= today <= departure */
  predicate Covers(s: Stay, today: Date) {
    !Before(today, s.arrival) && !Before(s.departure, today)
  }

  /** `current` after the given stays: the status from the first stay that
      covers today. */
  function CurrentOf(stays: seq<Stay>, today: Date): Option<Status>
    requires Valid(today) && AllValid(stays)
  {
    if stays == [] then None
    else
      CurrentAfter(CurrentOf(stays[..|stays| - 1], today), stays[|stays| - 1], today)
  }

  /** The running status after one more stay: the first covering stay wins. */
  function CurrentAfter(prev: Option<Status>, s: Stay, today: Date): Option<Status>
    requires Valid(today) && ValidStay(s)
  {
    if prev.None? && Covers(s, today)
    then Some(Occupied(s.count, Ordinal(s.departure) - Ordinal(today)))
    else prev
  }

  /** `next_arrival` after the given stays: the earliest arrival after
      today, the first such stay on a tie. */
  function NextArrivalOf(stays: seq<Stay>, today: Date): (r: Option<Date>)
    requires AllValid(stays)
    ensures r.Some? ==> Valid(r.value)
  {
    if stays == [] then None
    else
      ArrivalAfter(NextArrivalOf(stays[..|stays| - 1], today), stays[|stays| - 1], today)
  }

  /** The running next arrival after one more stay: a strictly earlier
      arrival after today replaces it. */
  function ArrivalAfter(prev: Option<Date>, s: Stay, today: Date): Option<Date> {
    if Before(today, s.arrival) && (prev.None? || Before(s.arrival, prev.value))
    then Some(s.arrival)
    else prev
  }

  /** The status of a home with these stays. */
  function StatusOf(stays: seq<Stay>, today: Date): Status
    requires Valid(today) && AllValid(stays)
  {
    match CurrentOf(stays, today)
    case Some(st) => st
    case None =>
      match NextArrivalOf(stays, today)
      case Some(d) => Vacant(Ordinal(d) - Ordinal(today))
      case None => Empty
  }

  /** The status of a home whose overview file has these lines. */
  function FileStatus(lines: seq<string>, today: Date): Status
    requires Valid(today)
  {
    StaysValid(lines);
    StatusOf(Stays(lines), today)
  }

  /** One pass of the loop over a file's lines: the running current status
      and next arrival after one more stay. */
  method NoteStay(current: Option<Status>, nextArrival: Option<Date>, s: Stay, today: Date)
    returns (current': Option<Status>, nextArrival': Option<Date>)
    requires Valid(today) && ValidStay(s)
    ensures current' == CurrentAfter(current, s, today)
    ensures nextArrival' == ArrivalAfter(nextArrival, s, today)
  {
    current', nextArrival' := current, nextArrival;
    if Covers(s, today) && current.None? {
      current' := Some(Occupied(s.count, Ordinal(s.departure) - Ordinal(today)));
    }
    if Before(today, s.arrival) && (nextArrival.None? || Before(s.arrival, nextArrival.value)) {
      nextArrival' := Some(s.arrival);
    }
  }

  lemma StatusStep(stays: seq<Stay>, s: Stay, today: Date)
    requires Valid(today) && AllValid(stays) && ValidStay(s)
    ensures AllValid(stays + [s])
    ensures CurrentOf(stays + [s], today) == CurrentAfter(CurrentOf(stays, today), s, today)
    ensures NextArrivalOf(stays + [s], today) == ArrivalAfter(NextArrivalOf(stays, today), s, today)
  {
    assert (stays + [s])[..|stays|] == stays;
  }

  lemma StaysStep(lines: seq<string>, j: nat)
    requires j < |lines|
    ensures Stays(lines[..j + 1]) == Stays(lines[..j]) + ParseStay(lines[j]).ToSeq()
  {
    FilterMapStep(StayParser(), lines, j);
  }

  /** The loop of get_status over one file's lines. */
  method HomeStatus(lines: seq<string>, today: Date) returns (status: Status)
    requires Valid(today)
    ensures status == FileStatus(lines, today)
  {
    var current: Option<Status> := None;
    var nextArrival: Option<Date> := None;
    ghost var stays: seq<Stay> := [];
    var j := 0;
    while j < |lines|
      invariant 0 <= j <= |lines|
      invariant stays == Stays(lines[..j]) && AllValid(stays)
      invariant current == CurrentOf(stays, today)
      invariant nextArrival == NextArrivalOf(stays, today)
    {
      var stay := ParseStay(lines[j]);
      StaysStep(lines, j);
      if stay.Some? {
        current, nextArrival := NoteStay(current, nextArrival, stay.value, today);
        StatusStep(stays, stay.value, today);
        assert stay.ToSeq() == [stay.value];
        stays := stays + [stay.value];
      } else {
        assert stay.ToSeq() == [];
        assert stays + [] == stays;
      }
      j := j + 1;
    }
    assert lines[..j] == lines;
    if current.Some? {
      status := current.value;
    } else if nextArrival.Some? {
      status := Vacant(Ordinal(nextArrival.value) - Ordinal(today));
    } else {
      status := Empty;
    }
  }

  /** get_status: one status per home of HOMES (the list HomesOrder holds);
      a home without an overview file is empty. `files` maps a home to the
      lines of its file. */
  method GetStatus(files: map<string, seq<string>>, today: Date) returns (status: map<string, Status>)
    requires Valid(today)
    ensures status.Keys == set h | h in HomesOrder
    ensures forall h :: h in status ==>
      status[h] == if h in files then FileStatus(files[h], today) else Empty
  {
    status := map[];
    var i := 0;
    while i < |HomesOrder|
      invariant 0 <= i <= |HomesOrder|
      invariant status.Keys == set h | h in HomesOrder[..i]
      invariant forall h :: h in status ==>
        status[h] == if h in files then FileStatus(files[h], today) else Empty
    {
      var home := HomesOrder[i];
      var st := Empty;
      if home in files {
        st := HomeStatus(files[home], today);
      }
      status := status[home := st];
      assert HomesOrder[..i + 1] == HomesOrder[..i] + [home];
      i := i + 1;
    }
    assert HomesOrder[..i] == HomesOrder;
  }

  // ---------------------------------------------------------------------
  // What the status promises
  // ---------------------------------------------------------------------

  /** The occupied status comes from the first stay covering today, with the
      days left until its departure, never negative. */
  lemma {:induction false} CurrentIsFirstCovering(stays: seq<Stay>, today: Date) returns (i: nat)
    requires Valid(today) && AllValid(stays) && CurrentOf(stays, today).Some?
    ensures i < |stays| && Covers(stays[i], today)
    ensures forall k :: 0 <= k < i ==> !Covers(stays[k], today)
    ensures CurrentOf(stays, today) == Some(Occupied(stays[i].count, Ordinal(stays[i].departure) - Ordinal(today)))
    ensures Ordinal(stays[i].departure) - Ordinal(today) >= 0
  {
    var init := stays[..|stays| - 1];
    if CurrentOf(init, today).Some? {
      i := CurrentIsFirstCovering(init, today);
      assert stays[i] == init[i];
      assert forall k :: 0 <= k < i ==> stays[k] == init[k];
    } else {
      i := |stays| - 1;
      NoCurrentNoCovering(init, today);
      assert forall k :: 0 <= k < i ==> stays[k] == init[k];
    }
    BeforeIsOrdinalLess(stays[i].departure, today);
  }

  /** Without an occupied status no stay covers today. */
  lemma {:induction false} NoCurrentNoCovering(stays: seq<Stay>, today: Date)
    requires Valid(today) && AllValid(stays) && CurrentOf(stays, today).None?
    ensures forall k :: 0 <= k < |stays| ==> !Covers(stays[k], today)
  {
    if stays != [] {
      var init := stays[..|stays| - 1];
      NoCurrentNoCovering(init, today);
      assert forall k :: 0 <= k < |init| ==> stays[k] == init[k];
    }
  }

  /** A stay covering today makes the home occupied. */
  lemma {:induction false} CoveringMakesCurrent(stays: seq<Stay>, today: Date, k: nat)
    requires Valid(today) && AllValid(stays) && k < |stays| && Covers(stays[k], today)
    ensures CurrentOf(stays, today).Some?
  {
    var init := stays[..|stays| - 1];
    if k < |init| {
      assert init[k] == stays[k];
      CoveringMakesCurrent(init, today, k);
    }
  }

  /** The next arrival is after today and no later than any arrival after
      today. */
  lemma {:induction false} NextArrivalIsEarliest(stays: seq<Stay>, today: Date, k: nat)
    requires AllValid(stays) && k < |stays| && Before(today, stays[k].arrival)
    ensures NextArrivalOf(stays, today).Some?
    ensures !Before(stays[k].arrival, NextArrivalOf(stays, today).value)
  {
    var init := stays[..|stays| - 1];
    var last := stays[|stays| - 1];
    if k < |init| {
      assert init[k] == stays[k];
      NextArrivalIsEarliest(init, today, k);
      var p := NextArrivalOf(init, today).value;
      if Before(today, last.arrival) && Before(last.arrival, p) {
        BeforeIsOrdinalLess(last.arrival, p);
        BeforeIsOrdinalLess(stays[k].arrival, p);
        BeforeIsOrdinalLess(stays[k].arrival, last.arrival);
      }
    } else {
      var prev := NextArrivalOf(init, today);
      if prev.Some? && !Before(last.arrival, prev.value) {
        BeforeIsOrdinalLess(last.arrival, prev.value);
        BeforeIsOrdinalLess(prev.value, last.arrival);
      }
    }
  }

  /** Without a next arrival no stay arrives after today. */
  lemma {:induction false} NoNextArrival(stays: seq<Stay>, today: Date)
    requires AllValid(stays) && NextArrivalOf(stays, today).None?
    ensures forall k :: 0 <= k < |stays| ==> !Before(today, stays[k].arrival)
  {
    if stays != [] {
      var init := stays[..|stays| - 1];
      NoNextArrival(init, today);
      assert forall k :: 0 <= k < |init| ==> stays[k] == init[k];
    }
  }

  /** The next arrival is the arrival of some stay, after today. */
  lemma {:induction false} NextArrivalFromStay(stays: seq<Stay>, today: Date) returns (k: nat)
    requires AllValid(stays) && NextArrivalOf(stays, today).Some?
    ensures k < |stays| && stays[k].arrival == NextArrivalOf(stays, today).value
    ensures Before(today, NextArrivalOf(stays, today).value)
  {
    var init := stays[..|stays| - 1];
    var last := stays[|stays| - 1];
    if Before(today, last.arrival)
       && (NextArrivalOf(init, today).None? || Before(last.arrival, NextArrivalOf(init, today).value)) {
      k := |stays| - 1;
    } else {
      k := NextArrivalFromStay(init, today);
      assert init[k] == stays[k];
    }
  }

  /** Status priority: occupied exactly when a stay covers today; otherwise
      vacant, for at least one day, when a stay arrives after today;
      otherwise empty. */
  lemma StatusPriority(stays: seq<Stay>, today: Date)
    requires Valid(today) && AllValid(stays)
    ensures StatusOf(stays, today).Occupied? <==> exists k :: 0 <= k < |stays| && Covers(stays[k], today)
    ensures StatusOf(stays, today).Empty? <==>
      forall k :: 0 <= k < |stays| ==> !Covers(stays[k], today) && !Before(today, stays[k].arrival)
    ensures StatusOf(stays, today).Vacant? ==> StatusOf(stays, today).days >= 1
  {
    if CurrentOf(stays, today).Some? {
      var i := CurrentIsFirstCovering(stays, today);
    } else {
      NoCurrentNoCovering(stays, today);
      if NextArrivalOf(stays, today).Some? {
        var k := NextArrivalFromStay(stays, today);
        BeforeIsOrdinalLess(today, NextArrivalOf(stays, today).value);
      } else {
        NoNextArrival(stays, today);
      }
    }
    if exists k :: 0 <= k < |stays| && Covers(stays[k], today) {
      var k :| 0 <= k < |stays| && Covers(stays[k], today);
      CoveringMakesCurrent(stays, today, k);
    }
    if !(forall k :: 0 <= k < |stays| ==> !Covers(stays[k], today) && !Before(today, stays[k].arrival)) {
      var k :| 0 <= k < |stays| && (Covers(stays[k], today) || Before(today, stays[k].arrival));
      if Covers(stays[k], today) {
        CoveringMakesCurrent(stays, today, k);
      } else {
        NextArrivalIsEarliest(stays, today, k);
      }
    }
  }

  // ---------------------------------------------------------------------
  // The status text of generate_html
  // ---------------------------------------------------------------------

  /** f"{count} Pers." for a truthy count, "? Pers." for 0 or None. */
  function PeopleText(count: Option<int>): string {
    if count.Some? && count.value != 0 then IntToString(count.value) + " Pers." else "? Pers."
  }

  /** The text cell of a home's row. */
  function StatusText(st: Status): string {
    match st
    case Occupied(count, remaining) =>
      PeopleText(count) + (if remaining == 0 then ", Abreise heute"
                           else if remaining == 1 then ", noch 1 Tag"
                           else ", noch " + IntToString(remaining) + " Tage")
    case Vacant(days) =>
      if days == 1 then "— arrival in 1 day" else "— arrival in " + IntToString(days) + " days"
    case Empty => "— keine Buchungen"
  }

  /** The text tells the three kinds apart: an occupied home's text starts
      with its guest count (or "?"), a vacant home's with "— arrival in ",
      an empty home's is "— keine Buchungen". */
  lemma StatusTextKind(st: Status)
    ensures st.Empty? <==> StatusText(st) == "— keine Buchungen"
    ensures st.Vacant? <==> StartsWith(StatusText(st), "— arrival in ")
    ensures st.Occupied? <==> !StartsWith(StatusText(st), "—")
  {
    var t := StatusText(st);
    if st.Occupied? {
      var p := PeopleText(st.count);
      if st.count.Some? && st.count.value != 0 {
        var n := st.count.value;
        NatToStringFacts(if n < 0 then -n else n);
        assert t[0] == p[0] == IntToString(n)[0];
      } else {
        assert t[0] == '?';
      }
    } else if st.Vacant? {
      if st.days != 1 {
        assert t == "— arrival in " + (IntToString(st.days) + " days");
      }
      assert t[..|"— arrival in "|] == "— arrival in ";
      assert t[0] == '—';
    } else {
      assert t[2] == 'k' && "— arrival in "[2] == 'a';
    }
  }
}
