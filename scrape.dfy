/** The booking-overview scraper: the filter that drops the repeated page
    headers from the texts of a page's spans, the two ways of cutting those
    texts into rows of nine fields, the date test, and how the rows of a
    home's pages end up in its overview file. The browser is not modelled:
    the texts of the spans a page shows are given. */
module Scrape {
  import opened Wrappers
  import opened Text
  import opened Dates
  import opened Lists
  import Utils

  // ---------------------------------------------------------------------
  // is_future
  // ---------------------------------------------------------------------

  /** is_future: whether a DD.MM.YY date (surrounding blanks allowed) is not
      before this moment one day ago; None where strptime raises. */
  function IsFuture(dateStr: string, now: Now): Option<bool> {
    match ParseShortDate(dateStr)
    case Some(d) => Some(Moment(d, 0) >= Moment(now.date, now.micros) - DayMicros)
    case None => None
  }

  /** In whole days: a date is in the future when it is today or later,
      and exactly at midnight also when it is yesterday. */
  lemma IsFutureByDays(dateStr: string, now: Now)
    ensures IsFuture(dateStr, now).Some? <==> ParseShortDate(dateStr).Some?
    ensures ParseShortDate(dateStr).Some? ==>
      var a, t := Ordinal(ParseShortDate(dateStr).value), Ordinal(now.date);
      IsFuture(dateStr, now) == Some(if now.micros == 0 then a >= t - 1 else a >= t)
  {
  }

  /** A day written as DD.MM.YY (years 1969 to 2068) is in the future
      exactly when it is not before today, or yesterday at midnight. */
  lemma IsFutureOfFormatted(d: Day, now: Now)
    requires 1969 <= d.year <= 2068
    ensures IsFuture(FormatShort(d), now) ==
      Some(if now.micros == 0 then Ordinal(d) >= Ordinal(now.date) - 1 else Ordinal(d) >= Ordinal(now.date))
  {
    StrptimeFormatShort(d);
  }

  // ---------------------------------------------------------------------
  // parse_booking_rows
  // ---------------------------------------------------------------------

  /** list.index: the first position of x; None where it raises ValueError. */
  function IndexOf(s: seq<string>, x: string): (r: Option<nat>)
    ensures r.None? <==> x !in s
    ensures r.Some? ==> r.value < |s| && s[r.value] == x && x !in s[..r.value]
  {
    if s == [] then None
    else if s[0] == x then Some(0)
    else
      match IndexOf(s[1..], x)
      case None => None
      case Some(i) =>
        assert s[..i + 1] == [s[0]] + s[1..][..i];
        Some(i + 1)
  }

  /** spans[start:-4]: from start up to the fourth span from the end, and
      nothing when start is at or past that point. */
  function Middle(spans: seq<string>, start: nat): seq<string> {
    var stop := if |spans| >= 4 then |spans| - 4 else 0;
    if start < stop then spans[start..stop] else []
  }

  /** A span the main path keeps: not blank and without "Storno". */
  predicate Kept(span: string) {
    Strip(span) != "" && !Contains(span, "Storno")
  }


  /** spans[i:i+9] for i in range(0, len(spans), 9). */
  function Chunks(s: seq<string>): seq<seq<string>>
    decreases |s|
  {
    if s == [] then []
    else if |s| <= 9 then [s]
    else [s[..9]] + Chunks(s[9..])
  }

  /** The rows of the main path when "Einnahmen" first stands at i. */
  function MainRows(spans: seq<string>, i: nat): seq<seq<string>> {
    Chunks(FilterMap(Keep(Kept), Middle(spans, i + 1)))
  }

  /** A reservation number: after stripping, at least five ASCII digits. */
  predicate IsResNumber(span: string) {
    IsDigits(Strip(span)) && |Strip(span)| >= 5
  }

  /** The positions below k whose element satisfies p, in order. */
  function Positions<T>(p: T -> bool, s: seq<T>, k: nat): seq<nat>
    requires k <= |s|
  {
    if k == 0 then []
    else
      var j: nat := k - 1;
      Positions(p, s, j) + (if p(s[j]) then [j] else [])
  }

  /** One more position. */
  lemma PositionsStep<T>(p: T -> bool, s: seq<T>, i: nat)
    requires i < |s|
    ensures Positions(p, s, i + 1) == Positions(p, s, i) + (if p(s[i]) then [i] else [])
  {
  }

  /** The row that starts at position idx: that span and every second one
      after it, nine in all. */
  function RowAt(spans: seq<string>, idx: nat): seq<string>
    requires idx + 16 < |spans|
  {
    seq(9, k requires 0 <= k < 9 => spans[idx + 2 * k])
  }

  /** The row of a reservation number when the page goes on far enough. */
  function RowFrom(spans: seq<string>): nat -> Option<seq<string>> {
    (idx: nat) => if idx + 16 < |spans| then Some(RowAt(spans, idx)) else None
  }

  /** The rows of the fallback path. */
  function FallbackRows(spans: seq<string>): seq<seq<string>> {
    FilterMap(RowFrom(spans), Positions(IsResNumber, spans, |spans|))
  }

  /** parse_booking_rows: the main path when some span is "Einnahmen",
      otherwise the fallback. */
  function BookingRows(spans: seq<string>): seq<seq<string>> {
    match IndexOf(spans, "Einnahmen")
    case Some(i) => MainRows(spans, i)
    case None => FallbackRows(spans)
  }

  /** The inner loop of the fallback: the spans at idx + j for
      j = 0, 2, ..., 16. */
  method PickRow(spans: seq<string>, idx: nat) returns (row: seq<string>)
    requires idx + 16 < |spans|
    ensures row == RowAt(spans, idx)
  {
    row := [];
    var j := 0;
    while j < 18
      invariant 0 <= j <= 18 && j % 2 == 0
      invariant |row| == j / 2
      invariant forall k :: 0 <= k < |row| ==> row[k] == spans[idx + 2 * k]
    {
      if idx + j < |spans| {
        row := row + [spans[idx + j]];
      }
      j := j + 2;
    }
  }

  /** The first loop of the fallback: the positions of the reservation
      numbers. */
  method ResNumberPositions(spans: seq<string>) returns (resNums: seq<nat>)
    ensures resNums == Positions(IsResNumber, spans, |spans|)
  {
    resNums := [];
    var i: nat := 0;
    while i < |spans|
      invariant i <= |spans|
      invariant resNums == Positions(IsResNumber, spans, i)
    {
      PositionsStep(IsResNumber, spans, i);
      if IsResNumber(spans[i]) {
        resNums := resNums + [i];
      }
      i := i + 1;
    }
  }

  /** The second loop of the fallback: a row for every position that has
      sixteen more spans after it. */
  method RowsAt(spans: seq<string>, resNums: seq<nat>) returns (rows: seq<seq<string>>)
    ensures rows == FilterMap(RowFrom(spans), resNums)
  {
    rows := [];
    var n := 0;
    while n < |resNums|
      invariant 0 <= n <= |resNums|
      invariant rows == FilterMap(RowFrom(spans), resNums[..n])
    {
      FilterMapStep(RowFrom(spans), resNums, n);
      var idx := resNums[n];
      if idx + 16 < |spans| {
        var row := PickRow(spans, idx);
        assert RowFrom(spans)(idx).ToSeq() == [row];
        if |row| == 9 {
          rows := rows + [row];
        }
      } else {
        assert RowFrom(spans)(idx).ToSeq() == [];
      }
      n := n + 1;
    }
    assert resNums[..n] == resNums;
  }

  /** parse_booking_rows: the slice and the comprehension of the main path,
      or the two loops of the fallback. */
  method ParseBookingRows(spans: seq<string>) returns (rows: seq<seq<string>>)
    ensures rows == BookingRows(spans)
  {
    var start := IndexOf(spans, "Einnahmen");
    if start.Some? {
      return MainRows(spans, start.value);
    }
    var resNums := ResNumberPositions(spans);
    rows := RowsAt(spans, resNums);
  }

  /** The chunks are the comprehension's slices: chunk i is the nine spans
      from 9 * i on, or what is left of them at the end. */
  lemma {:induction false} ChunksAt(s: seq<string>)
    ensures |Chunks(s)| == (|s| + 8) / 9
    ensures forall i :: 0 <= i < |Chunks(s)| ==>
      Chunks(s)[i] == s[9 * i .. if 9 * i + 9 <= |s| then 9 * i + 9 else |s|]
    decreases |s|
  {
    if |s| > 9 {
      var rest := s[9..];
      ChunksAt(rest);
      assert Chunks(s) == [s[..9]] + Chunks(rest);
      forall i | 1 <= i < |Chunks(s)|
        ensures Chunks(s)[i] == s[9 * i .. if 9 * i + 9 <= |s| then 9 * i + 9 else |s|]
      {
        var j := i - 1;
        ChunkAfterFirst(s, j, if 9 * j + 9 <= |rest| then 9 * j + 9 else |rest|);
      }
    }
  }

  /** A slice of what follows the first nine spans is a slice of the spans. */
  lemma ChunkAfterFirst(s: seq<string>, j: nat, e: nat)
    requires |s| > 9 && 9 * j <= e <= |s| - 9
    ensures s[9..][9 * j .. e] == s[9 * (j + 1) .. e + 9]
  {
    assert forall k :: 0 <= k < e - 9 * j ==> s[9..][9 * j .. e][k] == s[9 * j + 9 + k];
  }

  /** The chunks, one after another, give the spans back. */
  lemma {:induction false} ChunksConcat(s: seq<string>)
    ensures Concat(Chunks(s)) == s
    decreases |s|
  {
    if s == [] {
    } else if |s| <= 9 {
      ConcatCons(s, []);
    } else {
      ChunksConcat(s[9..]);
      ConcatCons(s[..9], Chunks(s[9..]));
    }
  }

  /** The main path: the rows, one after another, are the kept spans of
      the middle stretch; every row has one to nine fields, and all but the
      last exactly nine. */
  lemma MainRowsCover(spans: seq<string>, i: nat)
    ensures Concat(MainRows(spans, i)) == FilterMap(Keep(Kept), Middle(spans, i + 1))
    ensures forall k :: 0 <= k < |MainRows(spans, i)| ==> 1 <= |MainRows(spans, i)[k]| <= 9
    ensures forall k :: 0 <= k < |MainRows(spans, i)| - 1 ==> |MainRows(spans, i)[k]| == 9
  {
    var kept := FilterMap(Keep(Kept), Middle(spans, i + 1));
    ChunksConcat(kept);
    ChunksAt(kept);
  }

  /** The kept spans of the middle stretch are exactly those that are
      neither blank nor hold "Storno". */
  lemma MainRowsKeep(spans: seq<string>, i: nat)
    ensures forall x :: x in Concat(MainRows(spans, i)) <==> x in Middle(spans, i + 1) && Kept(x)
  {
    var mid := Middle(spans, i + 1);
    ChunksConcat(FilterMap(Keep(Kept), mid));
    forall x ensures x in FilterMap(Keep(Kept), mid) <==> x in mid && Kept(x) {
      KeepMembers(Kept, mid, x);
    }
  }

  /** The positions that satisfy p, in increasing order. */
  lemma {:induction false} PositionsExactly<T>(p: T -> bool, s: seq<T>, k: nat)
    requires k <= |s|
    ensures forall j: nat :: j in Positions(p, s, k) <==> j < k && p(s[j])
    ensures forall a, b :: 0 <= a < b < |Positions(p, s, k)| ==> Positions(p, s, k)[a] < Positions(p, s, k)[b]
    ensures forall a :: 0 <= a < |Positions(p, s, k)| ==> Positions(p, s, k)[a] < k
  {
    if k > 0 {
      var j: nat := k - 1;
      PositionsExactly(p, s, j);
      var prev := Positions(p, s, j);
      if p(s[j]) {
        assert Positions(p, s, k) == prev + [j];
      } else {
        assert Positions(p, s, k) == prev;
      }
    }
  }

  /** What f makes of the positions that satisfy p. */
  lemma FromPositions<T, B>(p: T -> bool, f: nat -> Option<B>, s: seq<T>, b: B)
    ensures b in FilterMap(f, Positions(p, s, |s|)) <==> exists i: nat :: i < |s| && p(s[i]) && f(i) == Some(b)
  {
    var res := Positions(p, s, |s|);
    PositionsExactly(p, s, |s|);
    FilterMapMembers(f, res, b);
    if b in FilterMap(f, res) {
      var j :| 0 <= j < |res| && f(res[j]) == Some(b);
      assert res[j] in res;
    }
    if exists i: nat :: i < |s| && p(s[i]) && f(i) == Some(b) {
      var i: nat :| i < |s| && p(s[i]) && f(i) == Some(b);
      assert i in res;
      var j :| 0 <= j < |res| && res[j] == i;
    }
  }

  /** The fallback path: a row is exactly the nine spans at idx, idx + 2,
      ..., idx + 16 of a reservation number at idx that has sixteen more
      spans after it. */
  lemma FallbackRowsExactly(spans: seq<string>)
    ensures forall r :: r in FallbackRows(spans) ==> |r| == 9
    ensures forall r :: r in FallbackRows(spans) <==>
      exists idx: nat :: idx + 16 < |spans| && IsResNumber(spans[idx]) && r == RowAt(spans, idx)
  {
    forall r
      ensures r in FallbackRows(spans) <==>
        exists idx: nat :: idx + 16 < |spans| && IsResNumber(spans[idx]) && r == RowAt(spans, idx)
    {
      FromPositions(IsResNumber, RowFrom(spans), spans, r);
    }
  }

  // ---------------------------------------------------------------------
  // filter_page_headers
  // ---------------------------------------------------------------------

  /** The first span of a page header, repeated on every page of the PDF. */
  const PageHeader: string := "Belegungsübersicht"

  predicate IsPageHeader(span: string) {
    StartsWith(span, PageHeader)
  }

  /** The "Seite X von Y" span that ends a page header. */
  predicate IsPageMarker(span: string) {
    Contains(span, "Seite") && Contains(span, "von")
  }

  // The filter is written for any marker test, so that the proofs about it
  // need not look inside the substring search; the scraper uses
  // IsPageMarker.

  /** The first position in [j, stop) holding a marker. */
  function MarkerFrom(isMarker: string -> bool, spans: seq<string>, j: nat, stop: nat): (r: Option<nat>)
    requires j <= stop <= |spans|
    ensures r.Some? ==> j <= r.value < stop && isMarker(spans[r.value])
    ensures r.None? ==> forall m :: j <= m < stop ==> !isMarker(spans[m])
    decreases stop - j
  {
    if j == stop then None
    else if isMarker(spans[j]) then Some(j)
    else MarkerFrom(isMarker, spans, j + 1, stop)
  }

  /** The end of the ten-span window a header at i is searched in. */
  function Window(spans: seq<string>, i: nat): nat {
    if i + 10 <= |spans| then i + 10 else |spans|
  }

  /** Where the spans skipped for a header at i end: after the first marker
      in its window, or right after the header when there is none. */
  function HeaderEnd(isMarker: string -> bool, spans: seq<string>, i: nat): (e: nat)
    requires i < |spans|
    ensures i < e <= |spans|
  {
    match MarkerFrom(isMarker, spans, i, Window(spans, i))
    case Some(j) => j + 1
    case None => i + 1
  }

  /** What filter_page_headers keeps of the spans from position i on. */
  function Unpaged(isMarker: string -> bool, spans: seq<string>, i: nat): seq<string>
    requires i <= |spans|
    decreases |spans| - i
  {
    if i == |spans| then []
    else if IsPageHeader(spans[i]) then Unpaged(isMarker, spans, HeaderEnd(isMarker, spans, i))
    else [spans[i]] + Unpaged(isMarker, spans, i + 1)
  }

  /** The filter at a header: what follows the first marker of its window,
      or what follows the header when the window has none. */
  lemma HeaderStep(isMarker: string -> bool, spans: seq<string>, i: nat, m: Option<nat>)
    requires i < |spans| && IsPageHeader(spans[i])
    requires m == MarkerFrom(isMarker, spans, i, Window(spans, i))
    ensures m.Some? ==> i <= m.value < |spans|
    ensures Unpaged(isMarker, spans, i) == Unpaged(isMarker, spans, if m.Some? then m.value + 1 else i + 1)
  {
  }

  /** The filter at any other span: that span, then the rest. */
  lemma PlainStep(isMarker: string -> bool, spans: seq<string>, i: nat, before: seq<string>)
    requires i < |spans| && !IsPageHeader(spans[i])
    ensures before + Unpaged(isMarker, spans, i) == (before + [spans[i]]) + Unpaged(isMarker, spans, i + 1)
  {
    AppendAssoc(before, [spans[i]], Unpaged(isMarker, spans, i + 1));
  }

  /** The inner loop: the first marker in the window of the header at i. */
  method FindPageMarker(spans: seq<string>, i: nat) returns (m: Option<nat>)
    requires i < |spans|
    ensures m == MarkerFrom(IsPageMarker, spans, i, Window(spans, i))
  {
    var stop := Window(spans, i);
    var j := i;
    while j < stop
      invariant i <= j <= stop
      invariant MarkerFrom(IsPageMarker, spans, j, stop) == MarkerFrom(IsPageMarker, spans, i, stop)
    {
      if IsPageMarker(spans[j]) {
        return Some(j);
      }
      j := j + 1;
    }
    return None;
  }

  /** filter_page_headers: a scan that skips up to the marker position it
      last found. */
  method FilterPageHeaders(spans: seq<string>) returns (filtered: seq<string>)
    ensures filtered == Unpaged(IsPageMarker, spans, 0)
  {
    filtered := [];
    var skipUntil := -1;
    var i := 0;
    ghost var next: nat := 0;
    while i < |spans|
      invariant 0 <= i <= |spans|
      invariant -1 <= skipUntil < |spans|
      invariant next == if i <= skipUntil then skipUntil + 1 else i
      invariant Unpaged(IsPageMarker, spans, 0) == filtered + Unpaged(IsPageMarker, spans, next)
    {
      if i <= skipUntil {
        i := i + 1;
        continue;
      }
      if StartsWith(spans[i], PageHeader) {
        var m := FindPageMarker(spans, i);
        HeaderStep(IsPageMarker, spans, i, m);
        if m.Some? {
          skipUntil := m.value;
        }
        next := if m.Some? then m.value + 1 else i + 1;
      } else {
        PlainStep(IsPageMarker, spans, i, filtered);
        filtered := filtered + [spans[i]];
        next := i + 1;
      }
      i := i + 1;
    }
  }

  /** A stretch without headers is kept as it is. */
  lemma {:induction false} PlainRun(isMarker: string -> bool, spans: seq<string>, i: nat, j: nat)
    requires i <= j <= |spans|
    requires forall k :: i <= k < j ==> !IsPageHeader(spans[k])
    ensures Unpaged(isMarker, spans, i) == spans[i..j] + Unpaged(isMarker, spans, j)
    decreases j - i
  {
    if i < j {
      PlainRun(isMarker, spans, i + 1, j);
      assert Unpaged(isMarker, spans, i) == [spans[i]] + Unpaged(isMarker, spans, i + 1);
      AppendAssoc([spans[i]], spans[i + 1..j], Unpaged(isMarker, spans, j));
      assert [spans[i]] + spans[i + 1..j] == spans[i..j];
    }
  }

  /** Spans without any header come through unchanged. */
  lemma NoHeaders(spans: seq<string>)
    requires forall k :: 0 <= k < |spans| ==> !IsPageHeader(spans[k])
    ensures Unpaged(IsPageMarker, spans, 0) == spans
  {
    PlainRun(IsPageMarker, spans, 0, |spans|);
  }

  /** No kept span starts a header, and every kept span is one of the
      spans from i on. */
  lemma {:induction false} HeadersGone(isMarker: string -> bool, spans: seq<string>, i: nat)
    requires i <= |spans|
    ensures |Unpaged(isMarker, spans, i)| <= |spans| - i
    ensures forall k :: 0 <= k < |Unpaged(isMarker, spans, i)| ==> !IsPageHeader(Unpaged(isMarker, spans, i)[k])
    ensures forall x :: x in Unpaged(isMarker, spans, i) ==> x in spans[i..]
    decreases |spans| - i
  {
    if i < |spans| {
      if IsPageHeader(spans[i]) {
        HeadersGone(isMarker, spans, HeaderEnd(isMarker, spans, i));
        assert forall x :: x in spans[HeaderEnd(isMarker, spans, i)..] ==> x in spans[i..];
      } else {
        HeadersGone(isMarker, spans, i + 1);
        assert forall x :: x in spans[i + 1..] ==> x in spans[i..];
      }
    }
  }

  /** The marker search does not depend on what comes before. */
  lemma {:induction false} MarkerShift(isMarker: string -> bool, p: seq<string>, b: seq<string>, j: nat, stop: nat)
    requires j <= stop <= |b|
    ensures MarkerFrom(isMarker, p + b, |p| + j, |p| + stop) ==
      match MarkerFrom(isMarker, b, j, stop) case Some(m) => Some(|p| + m) case None => None
    decreases stop - j
  {
    if j < stop {
      assert (p + b)[|p| + j] == b[j];
      MarkerShift(isMarker, p, b, j + 1, stop);
    }
  }

  /** Nor where the spans skipped for a header end. */
  lemma HeaderEndShift(isMarker: string -> bool, p: seq<string>, b: seq<string>, k: nat)
    requires k < |b|
    ensures HeaderEnd(isMarker, p + b, |p| + k) == |p| + HeaderEnd(isMarker, b, k)
  {
    assert Window(p + b, |p| + k) == |p| + Window(b, k);
    MarkerShift(isMarker, p, b, k, Window(b, k));
  }

  /** Neither does the filter. */
  lemma {:induction false} HeadersShift(isMarker: string -> bool, p: seq<string>, b: seq<string>, k: nat)
    requires k <= |b|
    ensures Unpaged(isMarker, p + b, |p| + k) == Unpaged(isMarker, b, k)
    decreases |b| - k
  {
    if k < |b| {
      assert (p + b)[|p| + k] == b[k];
      if IsPageHeader(b[k]) {
        var e := HeaderEnd(isMarker, b, k);
        HeaderEndShift(isMarker, p, b, k);
        HeadersShift(isMarker, p, b, e);
        assert Unpaged(isMarker, p + b, |p| + k) == Unpaged(isMarker, p + b, |p| + e);
      } else {
        HeadersShift(isMarker, p, b, k + 1);
        assert Unpaged(isMarker, p + b, |p| + k) == [b[k]] + Unpaged(isMarker, p + b, |p| + k + 1);
      }
    }
  }

  /** The first marker in [j, stop) is found. */
  lemma {:induction false} MarkerFirst(isMarker: string -> bool, spans: seq<string>, j: nat, stop: nat, m: nat)
    requires j <= m < stop <= |spans| && isMarker(spans[m])
    requires forall k :: j <= k < m ==> !isMarker(spans[k])
    ensures MarkerFrom(isMarker, spans, j, stop) == Some(m)
    decreases m - j
  {
    if j < m {
      MarkerFirst(isMarker, spans, j + 1, stop, m);
    }
  }

  /** A page header of at most ten spans that ends with the first marker
      after it is dropped whole, and the spans around it are kept. */
  lemma PageDropped(a: seq<string>, page: seq<string>, b: seq<string>)
    requires forall k :: 0 <= k < |a| ==> !IsPageHeader(a[k])
    requires 1 <= |page| <= 10 && IsPageHeader(page[0])
    requires IsPageMarker(page[|page| - 1])
    requires forall k :: 0 <= k < |page| - 1 ==> !IsPageMarker(page[k])
    ensures Unpaged(IsPageMarker, a + page + b, 0) == a + Unpaged(IsPageMarker, b, 0)
  {
    var s := a + page + b;
    var e := |a| + |page|;
    PlainRun(IsPageMarker, s, 0, |a|);
    assert s[..|a|] == a;
    assert s[|a|] == page[0];
    forall k | |a| <= k < e - 1 ensures !IsPageMarker(s[k]) {
      assert s[k] == page[k - |a|];
    }
    assert s[e - 1] == page[|page| - 1];
    MarkerFirst(IsPageMarker, s, |a|, Window(s, |a|), e - 1);
    assert s == (a + page) + b;
    HeadersShift(IsPageMarker, a + page, b, 0);
  }

  // ---------------------------------------------------------------------
  // The overview file of a home
  // ---------------------------------------------------------------------

  /** "|".join(row) */
  function RowLine(row: seq<string>): string {
    Join(row, "|")
  }

  /** "\n".join("|".join(row) for row in rows) */
  function NewData(rows: seq<seq<string>>): string {
    Join(Image(RowLine, rows), "\n")
  }

  /** The file after the rows of one page; None where it does not exist.
      Rows are appended after a line break in append mode when the file
      exists and overwrite it otherwise; no rows empty the file unless in
      append mode, where it stays as it is. */
  function Saved(file: Option<string>, rows: seq<seq<string>>, appendMode: bool): Option<string> {
    if rows != [] then
      if appendMode && file.Some? then Some(file.value + "\n" + NewData(rows)) else Some(NewData(rows))
    else if !appendMode then Some("")
    else file
  }

  /** The file after the pages of a home: the first overwrites, the later
      ones append. */
  function SavedAll(file: Option<string>, pages: seq<seq<seq<string>>>): Option<string> {
    if pages == [] then file
    else Saved(SavedAll(file, pages[..|pages| - 1]), pages[|pages| - 1], |pages| > 1)
  }

  /** Saving never removes a file: only a file that did not exist can still
      be missing. */
  lemma {:induction false} SavedAllAbsent(file: Option<string>, pages: seq<seq<seq<string>>>)
    ensures SavedAll(file, pages).None? ==> file.None?
    decreases |pages|
  {
    if pages != [] {
      SavedAllAbsent(file, pages[..|pages| - 1]);
    }
  }

  /** A blank first line when the first page had no rows. */
  function Lead(pages: seq<seq<seq<string>>>): seq<string>
    requires pages != []
  {
    if pages[0] == [] then [""] else []
  }

  /** Whatever was there before, the file holds one line per row of all
      pages, in page order, after a blank line when the first page had no
      rows. */
  lemma {:induction false} SavedAllLines(file: Option<string>, pages: seq<seq<seq<string>>>)
    requires pages != []
    ensures SavedAll(file, pages) == Some(Join(Lead(pages) + Image(RowLine, Concat(pages)), "\n"))
    decreases |pages|
  {
    var init, last := pages[..|pages| - 1], pages[|pages| - 1];
    assert pages == init + [last];
    if init == [] {
      SavedFirstLines(file, last);
      assert pages == [last];
    } else {
      SavedAllLines(file, init);
      SavedNextLines(SavedAll(file, init), init, last);
    }
  }

  /** The first page alone. */
  lemma SavedFirstLines(file: Option<string>, last: seq<seq<string>>)
    ensures SavedAll(file, [last]) == Some(Join(Lead([last]) + Image(RowLine, Concat([last])), "\n"))
  {
    assert [last][..0] == [];
    ConcatCons(last, []);
    assert Concat([last]) == last;
    if last == [] {
      assert Lead([last]) + Image(RowLine, last) == [""];
    } else {
      assert Lead([last]) + Image(RowLine, last) == Image(RowLine, last);
    }
  }

  /** One more page, appended to a file that holds the earlier ones. */
  lemma SavedNextLines(before: Option<string>, init: seq<seq<seq<string>>>, last: seq<seq<string>>)
    requires init != []
    requires before == Some(Join(Lead(init) + Image(RowLine, Concat(init)), "\n"))
    ensures Saved(before, last, true) == Some(Join(Lead(init) + Image(RowLine, Concat(init + [last])), "\n"))
  {
    var lines := Lead(init) + Image(RowLine, Concat(init));
    var all := init + [last];
    assert all[..|all| - 1] == init && all[|all| - 1] == last;
    assert Concat(all) == Concat(init) + last;
    if last == [] {
      assert Concat(all) == Concat(init);
    } else {
      ImageAppend(RowLine, Concat(init), last);
      AppendAssoc(Lead(init), Image(RowLine, Concat(init)), Image(RowLine, last));
      assert lines + Image(RowLine, last) == Lead(init) + Image(RowLine, Concat(all));
      LinesPresent(init);
      JoinAppend(lines, Image(RowLine, last), "\n");
      assert Saved(before, last, true) == Some(Join(lines, "\n") + "\n" + NewData(last));
    }
  }

  /** Rows that read back from their lines: every row has a field and no
      field holds a line break or "|". */
  predicate CleanRows(rows: seq<seq<string>>) {
    forall k :: 0 <= k < |rows| ==>
      |rows[k]| >= 1 && forall m :: 0 <= m < |rows[k]| ==> '\n' !in rows[k][m] && '|' !in rows[k][m]
  }

  /** There is always a line: the blank one, or the first page's first row. */
  lemma LinesPresent(pages: seq<seq<seq<string>>>)
    requires pages != []
    ensures |Lead(pages) + Image(RowLine, Concat(pages))| >= 1
  {
    if pages[0] != [] {
      assert pages == [pages[0]] + pages[1..];
      ConcatCons(pages[0], pages[1..]);
    }
  }

  /** Reading the file back: its lines are the lines of the rows, and each
      line splits on "|" into its row. */
  lemma FileReadsBack(file: Option<string>, pages: seq<seq<seq<string>>>)
    requires pages != [] && CleanRows(Concat(pages))
    ensures SavedAll(file, pages).Some?
    ensures Split(SavedAll(file, pages).value, "\n") == Lead(pages) + Image(RowLine, Concat(pages))
    ensures forall k :: 0 <= k < |Concat(pages)| ==>
      Split(Image(RowLine, Concat(pages))[k], "|") == Concat(pages)[k]
  {
    var rows := Concat(pages);
    var lines := Lead(pages) + Image(RowLine, rows);
    SavedAllLines(file, pages);
    forall k | 0 <= k < |rows| ensures Image(RowLine, rows)[k] == RowLine(rows[k]) {
      ImageAt(RowLine, rows, k);
    }
    forall k | 0 <= k < |rows|
      ensures '\n' !in RowLine(rows[k]) && Split(RowLine(rows[k]), "|") == rows[k]
    {
      JoinWithout(rows[k], "|", '\n');
      SplitJoin(rows[k], "|");
    }
    LinesPresent(pages);
    forall i | 0 <= i < |lines| ensures '\n' !in lines[i] {
      if i >= |Lead(pages)| {
        assert lines[i] == Image(RowLine, rows)[i - |Lead(pages)|];
      }
    }
    SplitJoin(lines, "\n");
  }

  // ---------------------------------------------------------------------
  // scrape_fewo and the loop over a home's URLs
  // ---------------------------------------------------------------------

  /** The rows scrape_fewo takes from the spans of a page. */
  function PageRows(spans: seq<string>): seq<seq<string>> {
    BookingRows(Unpaged(IsPageMarker, spans, 0))
  }

  /** A file as an option: None where it does not exist. */
  function FileAt(files: map<string, string>, name: string): Option<string> {
    if name in files then Some(files[name]) else None
  }

  /** Writing an optional content: None leaves the files as they are. */
  function Store(files: map<string, string>, name: string, content: Option<string>): map<string, string> {
    match content
    case Some(c) => files[name := c]
    case None => files
  }

  /** The files after scrape_fewo on one page of a home with the given
      display name. A home without one (get_fewo_name raises KeyError, which
      scrape_fewo swallows) writes nothing. */
  function AfterPage(files: map<string, string>, displayName: Option<string>, spans: seq<string>, appendMode: bool): map<string, string> {
    match displayName
    case None => files
    case Some(name) => Store(files, name, Saved(FileAt(files, name), PageRows(spans), appendMode))
  }

  /** The files after the pages of a home, the first page overwriting. */
  function AfterHome(files: map<string, string>, displayName: Option<string>, pages: seq<seq<string>>): map<string, string> {
    if pages == [] then files
    else AfterPage(AfterHome(files, displayName, pages[..|pages| - 1]), displayName, pages[|pages| - 1], |pages| > 1)
  }

  /** One more page of a home. */
  lemma AfterHomeStep(files: map<string, string>, displayName: Option<string>, pages: seq<seq<string>>, idx: nat)
    requires idx < |pages|
    ensures AfterHome(files, displayName, pages[..idx + 1]) ==
      AfterPage(AfterHome(files, displayName, pages[..idx]), displayName, pages[idx], idx > 0)
  {
    assert pages[..idx + 1][..idx] == pages[..idx];
  }

  /** The spans of the page of a URL that is not blank. */
  function UrlPage(url: (string, seq<string>)): Option<seq<string>> {
    if Strip(url.0) != "" then Some(url.1) else None
  }

  /** The overview files, by display name. */
  class OverviewFiles {
    var files: map<string, string>

    constructor(existing: map<string, string>)
      ensures files == existing
    {
      files := existing;
    }

    /** scrape_fewo on the spans of one page: filter the headers, cut the
        rows, look up the display name, and write, append or empty the
        file of the home. */
    method ScrapeFewo(fewo: string, spans: seq<string>, appendMode: bool)
      modifies this
      ensures files == AfterPage(old(files), Utils.DisplayName(fewo), spans, appendMode)
    {
      var kept := FilterPageHeaders(spans);
      var rows := ParseBookingRows(kept);
      var displayName := Utils.GetFewoName(fewo);
      if displayName.None? {
        return;
      }
      var name := displayName.value;
      if rows != [] {
        var newData := NewData(rows);
        if appendMode && name in files {
          files := files[name := files[name] + "\n" + newData];
        } else {
          files := files[name := newData];
        }
      } else if !appendMode {
        files := files[name := ""];
      }
    }

    /** main's loop over the URLs of one home, each with the spans its page
        shows: blank URLs are dropped, the first page overwrites and the
        later ones append. */
    method ScrapeHome(fewo: string, urls: seq<(string, seq<string>)>)
      modifies this
      ensures files == AfterHome(old(files), Utils.DisplayName(fewo), FilterMap(UrlPage, urls))
    {
      var pages := FilterMap(UrlPage, urls);
      var idx := 0;
      while idx < |pages|
        invariant 0 <= idx <= |pages|
        invariant files == AfterHome(old(files), Utils.DisplayName(fewo), pages[..idx])
      {
        ScrapeFewo(fewo, pages[idx], idx > 0);
        AfterHomeStep(old(files), Utils.DisplayName(fewo), pages, idx);
        idx := idx + 1;
      }
      assert pages[..idx] == pages;
    }
  }

  /** A home without a display name leaves every file as it was. */
  lemma {:induction false} UnknownHomeUntouched(files: map<string, string>, pages: seq<seq<string>>)
    ensures AfterHome(files, None, pages) == files
    decreases |pages|
  {
    if pages != [] {
      UnknownHomeUntouched(files, pages[..|pages| - 1]);
    }
  }

  /** For a home with a display name only its file changes, and it becomes
      what the rows of the pages make of it. */
  lemma {:induction false} HomeFile(files: map<string, string>, name: string, pages: seq<seq<string>>)
    ensures AfterHome(files, Some(name), pages) == Store(files, name, SavedAll(FileAt(files, name), Image(PageRows, pages)))
    decreases |pages|
  {
    if pages != [] {
      var init, last := pages[..|pages| - 1], pages[|pages| - 1];
      HomeFile(files, name, init);
      var rowsList := Image(PageRows, pages);
      assert rowsList[..|rowsList| - 1] == Image(PageRows, init);
      ImageAt(PageRows, pages, |pages| - 1);
      var before := SavedAll(FileAt(files, name), Image(PageRows, init));
      SavedAllAbsent(FileAt(files, name), Image(PageRows, init));
      StoreTwice(files, name, before, PageRows(last), |pages| > 1);
      assert SavedAll(FileAt(files, name), rowsList) == Saved(before, PageRows(last), |pages| > 1);
    }
  }

  /** Saving over a stored file is storing the saved file once. */
  lemma StoreTwice(files: map<string, string>, name: string, before: Option<string>,
                   rows: seq<seq<string>>, appendMode: bool)
    requires before.None? ==> name !in files
    ensures var m := Store(files, name, before);
      Store(m, name, Saved(FileAt(m, name), rows, appendMode)) == Store(files, name, Saved(before, rows, appendMode))
  {
    var m := Store(files, name, before);
    assert FileAt(m, name) == before;
    var after := Saved(before, rows, appendMode);
    if after.Some? {
      assert Store(m, name, after) == files[name := after.value];
    }
  }

  /** What scraping a home leaves in its overview file: one line per row of
      its pages, in order, each splitting back into its fields. */
  lemma HomeFileLines(files: map<string, string>, name: string, pages: seq<seq<string>>)
    requires pages != [] && CleanRows(Concat(Image(PageRows, pages)))
    ensures var rows := Concat(Image(PageRows, pages));
      && name in AfterHome(files, Some(name), pages)
      && Split(AfterHome(files, Some(name), pages)[name], "\n") ==
        (if PageRows(pages[0]) == [] then [""] else []) + Image(RowLine, rows)
      && forall k :: 0 <= k < |rows| ==> Split(Image(RowLine, rows)[k], "|") == rows[k]
  {
    HomeFile(files, name, pages);
    ImageAt(PageRows, pages, 0);
    FileReadsBack(FileAt(files, name), Image(PageRows, pages));
  }
}
