/** The timeline of the booking calendar (render in visual_cal.py). At the
    default scale of 1.5 every length a bar uses is a whole number of pixels:
    a day column is 24 px wide, a row 36 px high, a label needs a bar of at
    least 60 px, and a label character is 9.75 = 39/4 px wide. A row is the
    bars, labels and turnover markers drawn for one home. */
module Layout {
  import opened Wrappers
  import opened Dates
  import opened Sorting
  import opened Lists
  import opened CalendarInput
  import opened Annotations

  const DayWidth: int := 24         // 16 * SCALE
  const RowHeight: int := 36        // 24 * SCALE
  const TopHeight: int := 78        // 52 * SCALE
  const LabelMinWidth: int := 60    // 40 * SCALE
  const LabelInset: int := 6        // 4 * SCALE
  const LabelPadding: int := 12     // 8 * SCALE
  const WindowBack: int := 90
  const WindowDays: int := 365

  function Max(a: int, b: int): int { if a < b then b else a }

  // ---------------------------------------------------------------------
  // ellipsize
  // ---------------------------------------------------------------------

  /** ellipsize(text, max_px, 6.5 * SCALE): as many characters as fit in
      max_px, the last one replaced by "…" when the text is cut. The number
      of characters that fit is int(max_px / 9.75) = (4 * max_px) / 39. */
  function Ellipsize(text: string, maxPx: int): string {
    if maxPx <= 0 then ""
    else
      var n := (4 * maxPx) / 39;
      if n <= 0 then ""
      else if |text| <= n then text
      else text[..Max(1, n - 1)] + "…"
  }

  /** The label is empty when nothing fits, the text itself when it fits,
      and otherwise a non-empty prefix of the text followed by "…". It is
      never longer than what fits, except that a single fitting character
      gives two: one of the text and "…". */
  lemma EllipsizeFits(text: string, maxPx: int)
    ensures var r, n := Ellipsize(text, maxPx), if maxPx <= 0 then 0 else (4 * maxPx) / 39;
      && (n == 0 || (text == "" && n > 0) <==> r == "")
      && (n > 0 && |text| <= n ==> r == text)
      && (n > 0 && |text| > n ==> 2 <= |r| && r == text[..|r| - 1] + "…")
      && (|r| <= n || (n == 1 && |r| == 2))
  {
    var r := Ellipsize(text, maxPx);
    if maxPx > 0 && 0 < (4 * maxPx) / 39 < |text| {
      var m := Max(1, (4 * maxPx) / 39 - 1);
      assert r == text[..m] + "…";
      assert r[..|r| - 1] == text[..m];
    }
  }

  // ---------------------------------------------------------------------
  // by_home: the items of each home, sorted by (start, end)
  // ---------------------------------------------------------------------

  /** An entry of a home's row: a booking, or a blocked range. */
  datatype Item = Item(start: Date, end: Date, guest: string,
                       guestCount: Option<int>, animals: Option<int>, blocked: bool)

  function BookingItem(b: Booking): Item {
    Item(b.start, b.end, b.guest, b.guestCount, b.animals, false)
  }

  function BlockedItem(r: Blocked): Item {
    Item(r.start, r.end, "BLOCKED", None, None, true)
  }

  predicate ValidItem(it: Item) {
    Valid(it.start) && Valid(it.end)
  }

  predicate AllValidItems(items: seq<Item>) {
    forall j :: 0 <= j < |items| ==> ValidItem(items[j])
  }

  /** The sort key (home, start, end) of the bookings; dates compare as their ordinals. */
  function HomeSpanKey(b: Booking): Key {
    Key(0, b.home, DateRank(b.start), DateRank(b.end))
  }

  /** The sort key (start, end) of a home's items. */
  function SpanKey(it: Item): Key {
    Key(DateRank(it.start), "", DateRank(it.end), 0)
  }

  function BookingOfHome(home: string): Booking -> Option<Item> {
    (b: Booking) => if b.home == home then Some(BookingItem(b)) else None
  }

  function BlockedOfHome(home: string): Blocked -> Option<Item> {
    (r: Blocked) => if r.home == home then Some(BlockedItem(r)) else None
  }

  function BookingItemsOf(bookings: seq<Booking>, home: string): seq<Item> {
    FilterMap(BookingOfHome(home), bookings)
  }

  function BlockedItemsOf(blocked: seq<Blocked>, home: string): seq<Item> {
    FilterMap(BlockedOfHome(home), blocked)
  }

  /** by_home[home] after the appends: the home's bookings in (home, start,
      end) order, then its blocked ranges in file order. */
  function Appended(bookings: seq<Booking>, blocked: seq<Blocked>, home: string): seq<Item> {
    BookingItemsOf(SortBy(bookings, HomeSpanKey), home) + BlockedItemsOf(blocked, home)
  }

  /** by_home.get(home, []) once each list is sorted by (start, end). */
  function HomeItems(bookings: seq<Booking>, blocked: seq<Blocked>, home: string): seq<Item> {
    SortBy(Appended(bookings, blocked, home), SpanKey)
  }

  function RowItems(byHome: map<string, seq<Item>>, home: string): seq<Item> {
    if home in byHome then byHome[home] else []
  }

  /** The first grouping loop of render: every booking, in the given
      order, appended to its home's list. */
  method AppendBookings(sorted: seq<Booking>) returns (byHome: map<string, seq<Item>>)
    ensures forall h :: h in byHome ==> byHome[h] != []
    ensures forall h :: RowItems(byHome, h) == BookingItemsOf(sorted, h)
  {
    byHome := map[];
    var i := 0;
    while i < |sorted|
      invariant 0 <= i <= |sorted|
      invariant forall h :: h in byHome ==> byHome[h] != []
      invariant forall h :: RowItems(byHome, h) == BookingItemsOf(sorted[..i], h)
    {
      var b := sorted[i];
      ghost var prev := byHome;
      byHome := byHome[b.home := RowItems(byHome, b.home) + [BookingItem(b)]];
      forall h ensures RowItems(byHome, h) == BookingItemsOf(sorted[..i + 1], h) {
        AppendBookingStep(prev, sorted, i, h);
      }
      i := i + 1;
    }
    assert sorted[..i] == sorted;
  }

  lemma AppendBookingStep(prev: map<string, seq<Item>>, sorted: seq<Booking>, i: nat, h: string)
    requires i < |sorted|
    requires RowItems(prev, h) == BookingItemsOf(sorted[..i], h)
    ensures var b := sorted[i];
      RowItems(prev[b.home := RowItems(prev, b.home) + [BookingItem(b)]], h) == BookingItemsOf(sorted[..i + 1], h)
  {
    var b := sorted[i];
    FilterMapStep(BookingOfHome(h), sorted, i);
    if h == b.home {
      assert BookingOfHome(h)(b).ToSeq() == [BookingItem(b)];
    } else {
      assert BookingOfHome(h)(b).ToSeq() == [];
    }
  }

  /** The second grouping loop: every blocked range appended to its home's list. */
  method AppendBlocked(lists: map<string, seq<Item>>, blocked: seq<Blocked>) returns (byHome: map<string, seq<Item>>)
    requires forall h :: h in lists ==> lists[h] != []
    ensures forall h :: h in byHome ==> byHome[h] != []
    ensures forall h :: RowItems(byHome, h) == RowItems(lists, h) + BlockedItemsOf(blocked, h)
  {
    byHome := lists;
    var k := 0;
    while k < |blocked|
      invariant 0 <= k <= |blocked|
      invariant forall h :: h in byHome ==> byHome[h] != []
      invariant forall h :: RowItems(byHome, h) == RowItems(lists, h) + BlockedItemsOf(blocked[..k], h)
    {
      var r := blocked[k];
      ghost var prev := byHome;
      byHome := byHome[r.home := RowItems(byHome, r.home) + [BlockedItem(r)]];
      forall h ensures RowItems(byHome, h) == RowItems(lists, h) + BlockedItemsOf(blocked[..k + 1], h) {
        AppendBlockedStep(prev, lists, blocked, k, h);
      }
      k := k + 1;
    }
    assert blocked[..k] == blocked;
  }

  lemma AppendBlockedStep(prev: map<string, seq<Item>>, lists: map<string, seq<Item>>, blocked: seq<Blocked>, k: nat, h: string)
    requires k < |blocked|
    requires RowItems(prev, h) == RowItems(lists, h) + BlockedItemsOf(blocked[..k], h)
    ensures var r := blocked[k];
      RowItems(prev[r.home := RowItems(prev, r.home) + [BlockedItem(r)]], h)
        == RowItems(lists, h) + BlockedItemsOf(blocked[..k + 1], h)
  {
    var r := blocked[k];
    FilterMapStep(BlockedOfHome(h), blocked, k);
    var base, done := RowItems(lists, h), BlockedItemsOf(blocked[..k], h);
    if h == r.home {
      assert BlockedOfHome(h)(r).ToSeq() == [BlockedItem(r)];
      assert base + done + [BlockedItem(r)] == base + (done + [BlockedItem(r)]);
    } else {
      assert BlockedOfHome(h)(r).ToSeq() == [];
      assert done + [] == done;
    }
  }

  /** The third grouping loop: each home's list sorted by (start, end). */
  method SortLists(lists: map<string, seq<Item>>) returns (byHome: map<string, seq<Item>>)
    ensures byHome.Keys == lists.Keys
    ensures forall h :: h in byHome ==> byHome[h] == SortBy(lists[h], SpanKey)
  {
    byHome := lists;
    var todo := byHome.Keys;
    while todo != {}
      invariant todo <= byHome.Keys && byHome.Keys == lists.Keys
      invariant forall h :: h in byHome ==>
        byHome[h] == if h in todo then lists[h] else SortBy(lists[h], SpanKey)
      decreases |todo|
    {
      var h :| h in todo;
      byHome := byHome[h := SortBy(byHome[h], SpanKey)];
      todo := todo - {h};
    }
  }

  /** The grouping of render: by_home.get(home, []) is the home's items in
      (start, end) order for every home, and only homes with something to
      show have a list. */
  method GroupByHome(bookings: seq<Booking>, blocked: seq<Blocked>) returns (byHome: map<string, seq<Item>>)
    ensures forall h :: h in byHome ==> byHome[h] != []
    ensures forall h :: RowItems(byHome, h) == HomeItems(bookings, blocked, h)
  {
    var lists := AppendBookings(SortBy(bookings, HomeSpanKey));
    lists := AppendBlocked(lists, blocked);
    byHome := SortLists(lists);
    forall h | h in byHome ensures byHome[h] != [] {
      SortByLength(lists[h], SpanKey);
    }
  }

  /** A home's items are ordered by start date, and by end date among equal starts. */
  lemma HomeItemsOrdered(bookings: seq<Booking>, blocked: seq<Blocked>, home: string)
    ensures SortedBy(HomeItems(bookings, blocked, home), SpanKey)
  {
    SortByCorrect(Appended(bookings, blocked, home), SpanKey);
  }

  lemma BookingItemsMembers(bs: seq<Booking>, home: string, it: Item)
    ensures it in BookingItemsOf(bs, home) <==>
      exists i :: 0 <= i < |bs| && bs[i].home == home && it == BookingItem(bs[i])
  {
    FilterMapMembers(BookingOfHome(home), bs, it);
    if exists i :: 0 <= i < |bs| && bs[i].home == home && it == BookingItem(bs[i]) {
      var i :| 0 <= i < |bs| && bs[i].home == home && it == BookingItem(bs[i]);
      assert BookingOfHome(home)(bs[i]) == Some(it);
    }
  }

  lemma SortedBookingItemsMembers(bookings: seq<Booking>, home: string, it: Item)
    ensures it in BookingItemsOf(SortBy(bookings, HomeSpanKey), home) <==>
      exists i :: 0 <= i < |bookings| && bookings[i].home == home && it == BookingItem(bookings[i])
  {
    var sorted := SortBy(bookings, HomeSpanKey);
    SortByMembers(bookings, HomeSpanKey);
    BookingItemsMembers(sorted, home, it);
    if exists i :: 0 <= i < |bookings| && bookings[i].home == home && it == BookingItem(bookings[i]) {
      var i :| 0 <= i < |bookings| && bookings[i].home == home && it == BookingItem(bookings[i]);
      assert bookings[i] in sorted;
      var j :| 0 <= j < |sorted| && sorted[j] == bookings[i];
    }
    if exists j :: 0 <= j < |sorted| && sorted[j].home == home && it == BookingItem(sorted[j]) {
      var j :| 0 <= j < |sorted| && sorted[j].home == home && it == BookingItem(sorted[j]);
      assert sorted[j] in bookings;
      var i :| 0 <= i < |bookings| && bookings[i] == sorted[j];
    }
  }

  lemma BlockedItemsMembers(blocked: seq<Blocked>, home: string, it: Item)
    ensures it in BlockedItemsOf(blocked, home) <==>
      exists k :: 0 <= k < |blocked| && blocked[k].home == home && it == BlockedItem(blocked[k])
  {
    FilterMapMembers(BlockedOfHome(home), blocked, it);
    if exists k :: 0 <= k < |blocked| && blocked[k].home == home && it == BlockedItem(blocked[k]) {
      var k :| 0 <= k < |blocked| && blocked[k].home == home && it == BlockedItem(blocked[k]);
      assert BlockedOfHome(home)(blocked[k]) == Some(it);
    }
  }

  /** A home's items are exactly its bookings and its blocked ranges. */
  lemma HomeItemsMembers(bookings: seq<Booking>, blocked: seq<Blocked>, home: string, it: Item)
    ensures it in HomeItems(bookings, blocked, home) <==>
      (exists i :: 0 <= i < |bookings| && bookings[i].home == home && it == BookingItem(bookings[i]))
      || (exists k :: 0 <= k < |blocked| && blocked[k].home == home && it == BlockedItem(blocked[k]))
  {
    SortByMembers(Appended(bookings, blocked, home), SpanKey);
    SortedBookingItemsMembers(bookings, home, it);
    BlockedItemsMembers(blocked, home, it);
  }

  /** Among items of the same range, the bookings come first, in their
      (home, start, end) order, and then the blocked ranges in file order. */
  lemma HomeItemsTies(bookings: seq<Booking>, blocked: seq<Blocked>, home: string, k: Key)
    ensures Ties(HomeItems(bookings, blocked, home), SpanKey, k)
      == Ties(BookingItemsOf(SortBy(bookings, HomeSpanKey), home), SpanKey, k)
         + Ties(BlockedItemsOf(blocked, home), SpanKey, k)
  {
    SortByCorrect(Appended(bookings, blocked, home), SpanKey);
    TiesAppend(BookingItemsOf(SortBy(bookings, HomeSpanKey), home), BlockedItemsOf(blocked, home), SpanKey, k);
  }

  // ---------------------------------------------------------------------
  // The window and the bars of one row
  // ---------------------------------------------------------------------

  /** The days the timeline shows: from 90 days before today to 365 days later. */
  datatype Window = Window(first: Date, last: Date)

  function WindowOf(today: Date): (w: Window)
    requires ClockDate(today)
    ensures Valid(w.first) && Valid(w.last)
    ensures Ordinal(w.first) == Ordinal(today) - WindowBack
    ensures Ordinal(w.last) == Ordinal(w.first) + WindowDays
  {
    ClockDateRoom(today);
    var first := AddDays(today, -WindowBack);
    Window(first, AddDays(first, WindowDays))
  }

  predicate ValidWindow(w: Window) {
    Valid(w.first) && Valid(w.last) && Ordinal(w.last) == Ordinal(w.first) + WindowDays
  }

  /** The horizontal pixel position of a day: (d - min_d).days * day_w. */
  function Offset(d: Date, w: Window): int
    requires Valid(d) && Valid(w.first)
  {
    (Ordinal(d) - Ordinal(w.first)) * DayWidth
  }

  /** max(a, b) and min(a, b) on dates. */
  function Later(a: Date, b: Date): Date { if Before(a, b) then b else a }
  function Earlier(a: Date, b: Date): Date { if Before(b, a) then b else a }

  /** What one item draws: its bar, the bar's label, and the same-day
      turnover line at its end. */
  datatype Kind = BlockedBar | GuestBar(isNew: bool)
  datatype Mark = Bar(x: int, width: int, kind: Kind) | Label(x: int, text: string) | Turnover(x: int)

  /** The key of an item in home's row, booking_key(home, s, e); the
      dates of a valid item are always valid. */
  function KeyFor(home: string): (Date, Date) -> string {
    (s, e) => if Valid(s) && Valid(e) then BookingKey(home, s, e) else ""
  }

  /** The guest shown on a booking: "Stamm: " marks a repeat guest. */
  function DisplayGuest(key: (Date, Date) -> string, it: Item, repeatKeys: set<string>): string
    requires ValidItem(it)
  {
    if key(it.start, it.end) in repeatKeys then "Stamm: " + it.guest else it.guest
  }

  /** The next item in the row starts on the day this one ends. */
  predicate Touches(items: seq<Item>, j: nat)
    requires j < |items|
  {
    j + 1 < |items| && items[j + 1].start == items[j].end
  }

  /** The item overlaps the window. */
  predicate Shown(it: Item, w: Window) {
    !Before(it.end, w.first) && !Before(w.last, it.start)
  }

  /** The bar of item j: clipped to the window, one day column per day
      including the end day, at least one column wide, one pixel shorter
      when the next item starts on its (unclipped) end day. */
  function BarOf(key: (Date, Date) -> string, items: seq<Item>, j: nat, w: Window, newKeys: set<string>): Mark
    requires j < |items| && ValidItem(items[j]) && ValidWindow(w)
  {
    var it := items[j];
    var s := Later(it.start, w.first);
    var e := Earlier(it.end, w.last);
    var full := Max(DayWidth, (Ordinal(e) - Ordinal(s) + 1) * DayWidth);
    var width := if e == it.end && Touches(items, j) then Max(DayWidth, full - 1) else full;
    Bar(Offset(s, w), width,
        if it.blocked then BlockedBar else GuestBar(key(it.start, it.end) in newKeys))
  }

  /** The label drawn on a bar wide enough for one: the guest, or "x" on a
      blocked range, ellipsized to the bar less its padding. */
  function CaptionOf(key: (Date, Date) -> string, it: Item, bar: Mark, repeatKeys: set<string>): seq<Mark>
    requires ValidItem(it) && bar.Bar?
  {
    var caption := if bar.width >= LabelMinWidth
      then Ellipsize(if it.blocked then "x" else DisplayGuest(key, it, repeatKeys), bar.width - LabelPadding)
      else "";
    if caption != "" then [Label(bar.x + LabelInset, caption)] else []
  }

  /** The turnover line of a booking whose end day, inside the window, is
      the start day of the next item. */
  function TurnoverOf(items: seq<Item>, j: nat, w: Window): seq<Mark>
    requires j < |items| && ValidItem(items[j]) && ValidWindow(w)
  {
    var it := items[j];
    if !it.blocked && Touches(items, j) && !Before(it.end, w.first) && !Before(w.last, it.end)
    then [Turnover(Offset(it.end, w))] else []
  }

  /** The marks of item j, in the order render writes them. */
  function ItemMarks(key: (Date, Date) -> string, items: seq<Item>, j: nat, w: Window,
                     newKeys: set<string>, repeatKeys: set<string>): seq<Mark>
    requires j < |items| && ValidItem(items[j]) && ValidWindow(w)
  {
    if !Shown(items[j], w) then []
    else
      var bar := BarOf(key, items, j, w, newKeys);
      [bar] + CaptionOf(key, items[j], bar, repeatKeys) + TurnoverOf(items, j, w)
  }

  /** The marks of a row, item by item. */
  function RowMarks(key: (Date, Date) -> string, items: seq<Item>, w: Window,
                    newKeys: set<string>, repeatKeys: set<string>): seq<seq<Mark>>
    requires AllValidItems(items) && ValidWindow(w)
  {
    seq(|items|, j requires 0 <= j < |items| => ItemMarks(key, items, j, w, newKeys, repeatKeys))
  }

  /** The clipping and width computation of the inner loop of render. */
  method MeasureBar(key: (Date, Date) -> string, items: seq<Item>, j: nat, w: Window, newKeys: set<string>)
    returns (bar: Mark)
    requires j < |items| && ValidItem(items[j]) && ValidWindow(w)
    ensures bar == BarOf(key, items, j, w, newKeys)
  {
    var it := items[j];
    var s, e := it.start, it.end;
    s := Later(s, w.first);
    e := Earlier(e, w.last);
    var width := Max(DayWidth, (Ordinal(e) - Ordinal(s) + 1) * DayWidth);
    if e == it.end && j + 1 < |items| && items[j + 1].start == it.end {
      width := Max(DayWidth, width - 1);
    }
    var k := key(it.start, it.end);
    bar := Bar(Offset(s, w), width, if it.blocked then BlockedBar else GuestBar(k in newKeys));
  }

  /** The label of a bar, drawn when the bar is at least 60 px wide and
      something fits. */
  method DrawCaption(key: (Date, Date) -> string, it: Item, bar: Mark, repeatKeys: set<string>) returns (caption: seq<Mark>)
    requires ValidItem(it) && bar.Bar?
    ensures caption == CaptionOf(key, it, bar, repeatKeys)
  {
    caption := [];
    if bar.width >= LabelMinWidth {
      var text := Ellipsize(if it.blocked then "x" else DisplayGuest(key, it, repeatKeys), bar.width - LabelPadding);
      if text != "" {
        caption := [Label(bar.x + LabelInset, text)];
      }
    }
  }

  /** One pass of the inner loop of render: the marks of item j. */
  method DrawItem(key: (Date, Date) -> string, items: seq<Item>, j: nat, w: Window, newKeys: set<string>, repeatKeys: set<string>)
    returns (step: seq<Mark>)
    requires j < |items| && ValidItem(items[j]) && ValidWindow(w)
    ensures step == ItemMarks(key, items, j, w, newKeys, repeatKeys)
  {
    var it := items[j];
    if Before(it.end, w.first) || Before(w.last, it.start) {
      return [];
    }
    var bar := MeasureBar(key, items, j, w, newKeys);
    var caption := DrawCaption(key, it, bar, repeatKeys);
    var turnover: seq<Mark> := [];
    if !it.blocked && j + 1 < |items| && it.end == items[j + 1].start
      && !Before(it.end, w.first) && !Before(w.last, it.end) {
      turnover := [Turnover(Offset(it.end, w))];
    }
    step := [bar] + caption + turnover;
  }

  /** The inner loop of render over one home's items, walked by index
      since each item looks at the next one. */
  method RenderRow(key: (Date, Date) -> string, items: seq<Item>, w: Window, newKeys: set<string>, repeatKeys: set<string>)
    returns (marks: seq<seq<Mark>>)
    requires AllValidItems(items) && ValidWindow(w)
    ensures marks == RowMarks(key, items, w, newKeys, repeatKeys)
  {
    marks := [];
    var j := 0;
    while j < |items|
      invariant 0 <= j <= |items| && |marks| == j
      invariant forall k :: 0 <= k < j ==> marks[k] == ItemMarks(key, items, k, w, newKeys, repeatKeys)
    {
      var step := DrawItem(key, items, j, w, newKeys, repeatKeys);
      marks := marks + [step];
      j := j + 1;
    }
  }

  // ---------------------------------------------------------------------
  // What the bars promise
  // ---------------------------------------------------------------------

  function Min(a: int, b: int): int { if a < b then a else b }

  /** The window is 366 days: today - 90 up to today + 275. */
  lemma WindowSpan(today: Date)
    requires ClockDate(today)
    ensures var w := WindowOf(today);
      ValidWindow(w) && Ordinal(w.first) == Ordinal(today) - 90 && Ordinal(w.last) == Ordinal(today) + 275
      && Before(w.first, today) && Before(today, w.last)
  {
    var w := WindowOf(today);
    BeforeIsOrdinalLess(w.first, today);
    BeforeIsOrdinalLess(today, w.last);
  }

  /** An item is drawn exactly when it overlaps the window, by day number. */
  lemma DrawnIffOverlaps(key: (Date, Date) -> string, items: seq<Item>, j: nat, w: Window, newKeys: set<string>, repeatKeys: set<string>)
    requires j < |items| && ValidItem(items[j]) && ValidWindow(w)
    ensures ItemMarks(key, items, j, w, newKeys, repeatKeys) != [] <==>
      Ordinal(w.first) <= Ordinal(items[j].end) && Ordinal(items[j].start) <= Ordinal(w.last)
    ensures ItemMarks(key, items, j, w, newKeys, repeatKeys) != [] ==>
      ItemMarks(key, items, j, w, newKeys, repeatKeys)[0] == BarOf(key, items, j, w, newKeys)
  {
    BeforeIsOrdinalLess(items[j].end, w.first);
    BeforeIsOrdinalLess(w.last, items[j].start);
  }

  /** The bar of a drawn item covers the days of the item inside the window,
      end day included: it starts at the column of the later of the start
      and the window's first day, and is one column per day wide, less one
      pixel when the item ends inside the window on the start day of the
      next item and spans more than one day. It stays within the window's
      366 columns and is never narrower than a column. */
  lemma BarGeometry(key: (Date, Date) -> string, items: seq<Item>, j: nat, w: Window, newKeys: set<string>)
    requires j < |items| && ValidItem(items[j]) && ValidWindow(w)
    requires Shown(items[j], w) && !Before(items[j].end, items[j].start)
    ensures var it, bar := items[j], BarOf(key, items, j, w, newKeys);
      var lo := Max(Ordinal(it.start), Ordinal(w.first));
      var cols := Min(Ordinal(it.end), Ordinal(w.last)) - lo + 1;
      && 1 <= cols <= WindowDays + 1
      && bar.x == (lo - Ordinal(w.first)) * DayWidth
      && bar.width == (if Ordinal(it.end) <= Ordinal(w.last) && Touches(items, j) && cols > 1
                       then cols * DayWidth - 1 else cols * DayWidth)
      && DayWidth <= bar.width && 0 <= bar.x && bar.x + bar.width <= (WindowDays + 1) * DayWidth
      && (bar.kind == BlockedBar <==> it.blocked)
  {
    var it := items[j];
    BeforeIsOrdinalLess(it.start, w.first);
    BeforeIsOrdinalLess(it.end, w.last);
    BeforeIsOrdinalLess(it.end, w.first);
    BeforeIsOrdinalLess(w.last, it.start);
    BeforeIsOrdinalLess(it.end, it.start);
    BeforeIsOrdinalLess(w.last, it.end);
  }

  /** A turnover line is drawn exactly for a booking (not a blocked range)
      whose end day lies in the window and is the start day of the next
      item; it sits where that next item's bar starts. */
  lemma TurnoverAtNextBar(key: (Date, Date) -> string, items: seq<Item>, j: nat, w: Window, newKeys: set<string>)
    requires j < |items| && ValidItem(items[j]) && ValidWindow(w)
    ensures TurnoverOf(items, j, w) != [] <==>
      !items[j].blocked && Touches(items, j)
      && Ordinal(w.first) <= Ordinal(items[j].end) <= Ordinal(w.last)
    ensures TurnoverOf(items, j, w) != [] && ValidItem(items[j + 1]) && !Before(items[j + 1].end, items[j + 1].start) ==>
      Shown(items[j + 1], w) && TurnoverOf(items, j, w) == [Turnover(BarOf(key, items, j + 1, w, newKeys).x)]
  {
    BeforeIsOrdinalLess(items[j].end, w.first);
    BeforeIsOrdinalLess(w.last, items[j].end);
    if TurnoverOf(items, j, w) != [] && ValidItem(items[j + 1]) && !Before(items[j + 1].end, items[j + 1].start) {
      var next := items[j + 1];
      BeforeIsOrdinalLess(next.end, next.start);
      BeforeIsOrdinalLess(next.end, w.first);
      BeforeIsOrdinalLess(next.start, w.first);
      assert Later(next.start, w.first) == next.start;
    }
  }

  /** A label is drawn exactly on a bar of at least 60 px with something to
      show, and it fits the bar less its padding: the guest (with "Stamm: "
      for a repeat guest, "x" on a blocked range) or a prefix of it ended by
      "…". */
  lemma CaptionFits(key: (Date, Date) -> string, it: Item, bar: Mark, repeatKeys: set<string>)
    requires ValidItem(it) && bar.Bar?
    ensures var shown := if it.blocked then "x" else DisplayGuest(key, it, repeatKeys);
      && (CaptionOf(key, it, bar, repeatKeys) != [] <==> bar.width >= LabelMinWidth && shown != "")
      && (CaptionOf(key, it, bar, repeatKeys) != [] ==>
            var t := CaptionOf(key, it, bar, repeatKeys)[0];
            && t == Label(bar.x + LabelInset, t.text)
            && 39 * |t.text| <= 4 * (bar.width - LabelPadding)
            && (t.text == shown || (2 <= |t.text| && t.text == shown[..|t.text| - 1] + "…")))
  {
    var shown := if it.blocked then "x" else DisplayGuest(key, it, repeatKeys);
    EllipsizeFits(shown, bar.width - LabelPadding);
    if bar.width >= LabelMinWidth {
      var n := (4 * (bar.width - LabelPadding)) / 39;
      assert n >= 4;
      assert 39 * n <= 4 * (bar.width - LabelPadding);
    }
  }

  // ---------------------------------------------------------------------
  // The rows
  // ---------------------------------------------------------------------

  /** row_y(i): the top of home i's row. */
  function RowY(i: nat): (y: int)
    ensures y >= TopHeight && (i > 0 ==> y == RowY(i - 1) + RowHeight)
  {
    TopHeight + i * RowHeight
  }

  datatype Row = Row(y: int, marks: seq<seq<Mark>>)

  lemma HomeItemsValid(bookings: seq<Booking>, blocked: seq<Blocked>, home: string)
    requires AllWellFormed(bookings) && forall k :: 0 <= k < |blocked| ==> WellFormedRange(blocked[k])
    ensures AllValidItems(HomeItems(bookings, blocked, home))
  {
    var items := HomeItems(bookings, blocked, home);
    forall j | 0 <= j < |items| ensures ValidItem(items[j]) {
      HomeItemsMembers(bookings, blocked, home, items[j]);
    }
  }

  /** The marks of a home's row. */
  function HomeRow(bookings: seq<Booking>, blocked: seq<Blocked>, home: string, w: Window,
                   newKeys: set<string>, repeatKeys: set<string>): seq<seq<Mark>>
    requires AllWellFormed(bookings) && forall k :: 0 <= k < |blocked| ==> WellFormedRange(blocked[k])
    requires ValidWindow(w)
  {
    HomeItemsValid(bookings, blocked, home);
    var items := HomeItems(bookings, blocked, home);
    RowMarks(KeyFor(home), items, w, newKeys, repeatKeys)
  }

  /** The loop of render over the homes, given the window and the items
      grouped by home: lst = by_home.get(home, []) drawn at row_y(i). The
      homes are distinct, as HomesOrdered makes them, so indices[home] is the
      home's own position. */
  method DrawRows(homes: seq<string>, byHome: map<string, seq<Item>>, w: Window,
                  newKeys: set<string>, repeatKeys: set<string>) returns (rows: seq<Row>)
    requires Distinct(homes)
    requires ValidWindow(w) && forall h :: AllValidItems(RowItems(byHome, h))
    ensures |rows| == |homes|
    ensures forall i :: 0 <= i < |homes| ==>
      rows[i] == Row(RowY(i), RowMarks(KeyFor(homes[i]), RowItems(byHome, homes[i]), w, newKeys, repeatKeys))
  {
    rows := [];
    var i := 0;
    while i < |homes|
      invariant 0 <= i <= |homes| && |rows| == i
      invariant forall k :: 0 <= k < i ==>
        rows[k] == Row(RowY(k), RowMarks(KeyFor(homes[k]), RowItems(byHome, homes[k]), w, newKeys, repeatKeys))
    {
      var marks := RenderRow(KeyFor(homes[i]), RowItems(byHome, homes[i]), w, newKeys, repeatKeys);
      rows := rows + [Row(RowY(i), marks)];
      i := i + 1;
    }
  }

  /** The rows of render: one per home, in the order of homes, each holding
      the marks of the home's items in (start, end) order. */
  method RenderBars(homes: seq<string>, bookings: seq<Booking>, blocked: seq<Blocked>, today: Date,
                    newKeys: set<string>, repeatKeys: set<string>) returns (rows: seq<Row>)
    requires Distinct(homes)
    requires ClockDate(today) && AllWellFormed(bookings)
    requires forall k :: 0 <= k < |blocked| ==> WellFormedRange(blocked[k])
    ensures |rows| == |homes|
    ensures forall i :: 0 <= i < |homes| ==>
      rows[i] == Row(RowY(i), HomeRow(bookings, blocked, homes[i], WindowOf(today), newKeys, repeatKeys))
  {
    var w := WindowOf(today);
    var byHome := GroupByHome(bookings, blocked);
    forall h ensures AllValidItems(RowItems(byHome, h)) {
      HomeItemsValid(bookings, blocked, h);
    }
    rows := DrawRows(homes, byHome, w, newKeys, repeatKeys);
  }
}
