/** The two persistent stores of the booking calendar (visual_cal.py): the
    seen-bookings store, which remembers when each booking was first seen and
    so marks bookings as new, and the guest history, which marks bookings of
    returning guests. A store file is passed in as its decoded map, or None
    when the file is missing, unreadable or not a JSON object; the clock is
    the parameter `today`. */
module Annotations {
  import opened Wrappers
  import opened Text
  import opened Dates
  import opened Lists
  import opened CalendarInput

  // ---------------------------------------------------------------------
  // booking_key
  // ---------------------------------------------------------------------

  predicate WellFormed(b: Booking) {
    Valid(b.start) && Valid(b.end)
  }

  predicate AllWellFormed(bookings: seq<Booking>) {
    forall i :: 0 <= i < |bookings| ==> WellFormed(bookings[i])
  }

  /** "home|YYYY-MM-DD|YYYY-MM-DD", the key under which both stores know a booking. */
  function BookingKey(home: string, start: Date, end: Date): string
    requires Valid(start) && Valid(end)
  {
    home + "|" + IsoFormat(start) + "|" + IsoFormat(end)
  }

  function KeyOf(b: Booking): string
    requires WellFormed(b)
  {
    BookingKey(b.home, b.start, b.end)
  }

  lemma IsoFormatShape(d: Date)
    requires Valid(d)
    ensures '|' !in IsoFormat(d)
  {
    ZeroPadNoChar(d.year, 4, '|');
    ZeroPadNoChar(d.month, 2, '|');
    ZeroPadNoChar(d.day, 2, '|');
  }

  /** The key identifies the booking: homes without "|" and different date
      ranges never share a key. */
  lemma BookingKeyInjective(h1: string, s1: Date, e1: Date, h2: string, s2: Date, e2: Date)
    requires '|' !in h1 && '|' !in h2
    requires Valid(s1) && Valid(e1) && Valid(s2) && Valid(e2)
    requires BookingKey(h1, s1, e1) == BookingKey(h2, s2, e2)
    ensures h1 == h2 && s1 == s2 && e1 == e2
  {
    IsoFormatShape(s1);
    IsoFormatShape(e1);
    IsoFormatShape(s2);
    IsoFormatShape(e2);
    assert BookingKey(h1, s1, e1) == h1 + ['|'] + IsoFormat(s1) + ['|'] + IsoFormat(e1);
    assert BookingKey(h2, s2, e2) == h2 + ['|'] + IsoFormat(s2) + ['|'] + IsoFormat(e2);
    SplitThree(h1, IsoFormat(s1), IsoFormat(e1), '|');
    SplitThree(h2, IsoFormat(s2), IsoFormat(e2), '|');
    IsoFormatInjective(s1, s2);
    IsoFormatInjective(e1, e2);
  }

  /** The keys of the bookings, in order. */
  function Keys(bookings: seq<Booking>): (r: seq<string>)
    requires AllWellFormed(bookings)
    ensures |r| == |bookings|
  {
    Image(KeyOf, bookings)
  }

  /** {booking_key(h, s, e) for (h, s, e, *_) in bookings} */
  function CurrentKeys(bookings: seq<Booking>): set<string>
    requires AllWellFormed(bookings)
  {
    set k | k in Keys(bookings)
  }

  /** Every booking's key is current ... */
  lemma KeyIsCurrent(bookings: seq<Booking>, i: nat)
    requires AllWellFormed(bookings) && i < |bookings|
    ensures KeyOf(bookings[i]) in CurrentKeys(bookings)
  {
    ImageAt(KeyOf, bookings, i);
  }

  /** ... and every current key is some booking's key. */
  lemma CurrentKeyOfBooking(bookings: seq<Booking>, k: string)
    requires AllWellFormed(bookings) && k in CurrentKeys(bookings)
    ensures exists i :: 0 <= i < |bookings| && KeyOf(bookings[i]) == k
  {
    var i :| 0 <= i < |bookings| && Keys(bookings)[i] == k;
    ImageAt(KeyOf, bookings, i);
  }

  // ---------------------------------------------------------------------
  // Stored dates
  // ---------------------------------------------------------------------

  /** A value of the seen store, decoded: a date that fromisoformat() reads,
      kept with the text it was read from, or any other text (which reads as
      today). The text is what the store writes back. */
  datatype Stamp = Dated(date: Date, text: string) | Undated(text: string)

  function DecodeStamp(v: string): (t: Stamp)
    ensures t.Dated? <==> IsoParse(v).Some?
    ensures t.Dated? ==> Valid(t.date)
  {
    match IsoParse(v)
    case Some(d) => Dated(d, v)
    case None => Undated(v)
  }

  /** What DecodeStamp can produce. */
  predicate Decoded(t: Stamp) {
    match t
    case Dated(d, v) => IsoParse(v) == Some(d)
    case Undated(v) => IsoParse(v).None?
  }

  function EncodeStamp(t: Stamp): string {
    t.text
  }

  /** The value the program stores for a date it writes itself: the date's
      isoformat() text, which reads back as that date. */
  function Stamped(d: Date): (t: Stamp)
    requires Valid(d)
    ensures Decoded(t) && t.Dated? && t.date == d
  {
    IsoRoundTrip(d);
    Dated(d, IsoFormat(d))
  }

  /** Decoding loses nothing: the stored text is written back as it was. */
  lemma StampRoundTrip(v: string)
    ensures Decoded(DecodeStamp(v))
    ensures EncodeStamp(DecodeStamp(v)) == v
  {
  }

  /** And every decoded value is read back from its text. */
  lemma StampDecodesBack(t: Stamp)
    requires Decoded(t)
    ensures DecodeStamp(EncodeStamp(t)) == t
  {
  }

  /** A stored value in the basic form is a date, not new two months on,
      and is written back as it was read. */
  lemma BasicFormStamp()
    ensures var t := DecodeStamp("20240101");
      t.Dated? && t.date == Date(1, 1, 2024) && EncodeStamp(t) == "20240101"
      && !IsNew(t, Date(1, 3, 2024))
  {
    IsoCalendarFormsOf2024();
  }

  /** Every dated entry holds a representable date. */
  predicate StoreDates(m: map<string, Stamp>) {
    forall k :: k in m && m[k].Dated? ==> Valid(m[k].date)
  }

  // ---------------------------------------------------------------------
  // update_seen_and_new: the specification
  // ---------------------------------------------------------------------

  /** today - 8 days: the first-seen date that makes a booking old. */
  function Backdate(today: Date): (d: Date)
    requires ClockDate(today)
    ensures Valid(d) && Ordinal(d) == Ordinal(today) - 8
  {
    ClockDateRoom(today);
    AddDays(today, -8)
  }

  /** The migration of stores written by an earlier version, which stamped
      every booking with the day it ran: it applies when some stored value is
      a date and every stored date is today. */
  predicate Migrates(m: map<string, Stamp>, today: Date) {
    (exists k :: k in m && m[k].Dated?)
    && (forall k :: k in m && m[k].Dated? ==> m[k].date == today)
  }

  /** The store after the migration step: every entry backdated, or unchanged. */
  function Migrated(m: map<string, Stamp>, today: Date): map<string, Stamp>
    requires ClockDate(today)
  {
    if Migrates(m, today) then map k | k in m :: Stamped(Backdate(today)) else m
  }

  /** The date given to keys not yet in the store: backdated on a first run
      (no usable store), so nothing is new then; today otherwise. */
  function SeedDate(firstRun: bool, today: Date): Date
    requires ClockDate(today)
  {
    if firstRun then Backdate(today) else today
  }

  /** seen.get(k, default) */
  function Get(m: map<string, Stamp>, k: string, default: Stamp): Stamp {
    if k in m then m[k] else default
  }

  /** The store written back: exactly the current keys, each with its
      (possibly migrated) stored value, or the seed date when it is new to the store. */
  function SeenAfter(store: Option<map<string, Stamp>>, current: set<string>, today: Date): map<string, Stamp>
    requires ClockDate(today)
  {
    var m := Migrated(store.GetOr(map[]), today);
    map k | k in current :: Get(m, k, Stamped(SeedDate(store.None?, today)))
  }

  /** A first-seen value makes a booking new when it is a date at most 7 days
      back (dates in the future included), or no date at all (it reads as today). */
  predicate IsNew(t: Stamp, today: Date)
    requires Valid(today) && (t.Dated? ==> Valid(t.date))
  {
    match t
    case Dated(d, _) => Ordinal(today) - Ordinal(d) <= 7
    case Undated(_) => true
  }

  function NewKeys(seen: map<string, Stamp>, current: set<string>, today: Date): set<string>
    requires Valid(today) && StoreDates(seen)
  {
    set k | k in current && IsNew(Get(seen, k, Stamped(today)), today)
  }

  // ---------------------------------------------------------------------
  // update_seen_and_new: the loops
  // ---------------------------------------------------------------------

  /** The migration test: one pass over the stored values collecting whether
      any is a date and whether all dates are today. */
  method StoredDatesAllToday(seen: map<string, Stamp>, today: Date) returns (migrate: bool)
    ensures migrate == Migrates(seen, today)
  {
    var anyDate, allToday := false, true;
    var todo := seen.Keys;
    while todo != {}
      invariant todo <= seen.Keys
      invariant anyDate <==> exists k :: k in seen && k !in todo && seen[k].Dated?
      invariant allToday <==> forall k :: k in seen && k !in todo && seen[k].Dated? ==> seen[k].date == today
      decreases todo
    {
      var k :| k in todo;
      if seen[k].Dated? {
        anyDate := true;
        if seen[k].date != today {
          allToday := false;
        }
      }
      todo := todo - {k};
    }
    migrate := anyDate && allToday;
  }

  /** The migration step: when Migrates holds, every stored entry is set to
      today - 8 days; otherwise the store is left as it is. */
  method MigrateStore(stored: map<string, Stamp>, today: Date) returns (seen: map<string, Stamp>)
    requires ClockDate(today)
    ensures seen == Migrated(stored, today)
  {
    seen := stored;
    if |seen| > 0 {
      var migrate := StoredDatesAllToday(seen, today);
      if migrate {
        var back := Stamped(Backdate(today));
        var todo := seen.Keys;
        while todo != {}
          invariant todo <= seen.Keys == stored.Keys
          invariant forall k :: k in seen ==> seen[k] == if k in todo then stored[k] else back
          decreases todo
        {
          var k :| k in todo;
          seen := seen[k := back];
          todo := todo - {k};
        }
      }
    }
  }

  /** The seeding loop: every current key missing from the store gets the
      seed value; stored entries keep theirs. */
  method SeedMissing(stored: map<string, Stamp>, current: set<string>, seed: Stamp)
    returns (seen: map<string, Stamp>)
    ensures seen.Keys == stored.Keys + current
    ensures forall k :: k in seen ==> seen[k] == Get(stored, k, seed)
  {
    seen := stored;
    var todo := current;
    while todo != {}
      invariant todo <= current
      invariant seen.Keys == stored.Keys + (current - todo)
      invariant forall k :: k in seen ==> seen[k] == Get(stored, k, seed)
      decreases todo
    {
      var k :| k in todo;
      if k !in seen {
        seen := seen[k := seed];
      }
      todo := todo - {k};
    }
  }

  /** Seeding then pruning leaves the current keys, each with its stored
      value or the seed. */
  lemma PruneSeeded(seeded: map<string, Stamp>, stored: map<string, Stamp>, current: set<string>, seed: Stamp)
    requires seeded.Keys == stored.Keys + current
    requires forall k :: k in seeded ==> seeded[k] == Get(stored, k, seed)
    ensures (map k | k in seeded && k in current :: seeded[k]) == map k | k in current :: Get(stored, k, seed)
  {
  }

  /** The steps after the key set is built: migrate, seed the unseen
      current keys, prune to the current keys, and collect the keys first
      seen at most 7 days ago. */
  method UpdateSeen(store: Option<map<string, Stamp>>, current: set<string>, today: Date)
    returns (seen: map<string, Stamp>, newKeys: set<string>)
    requires ClockDate(today) && (store.Some? ==> StoreDates(store.value))
    ensures seen == SeenAfter(store, current, today)
    ensures StoreDates(seen)
    ensures newKeys == NewKeys(seen, current, today)
  {
    var firstRun := store.None?;
    var migrated := MigrateStore(store.GetOr(map[]), today);
    var seed := Stamped(SeedDate(firstRun, today));
    seen := SeedMissing(migrated, current, seed);
    PruneSeeded(seen, migrated, current, seed);
    seen := map k | k in seen && k in current :: seen[k];
    newKeys := set k | k in current && IsNew(Get(seen, k, Stamped(today)), today);
  }

  /** update_seen_and_new(bookings, today): the store written back and the
      keys of the bookings to mark as new. */
  method UpdateSeenAndNew(store: Option<map<string, Stamp>>, bookings: seq<Booking>, today: Date)
    returns (seen: map<string, Stamp>, newKeys: set<string>)
    requires ClockDate(today) && AllWellFormed(bookings)
    requires store.Some? ==> StoreDates(store.value)
    ensures seen == SeenAfter(store, CurrentKeys(bookings), today)
    ensures StoreDates(seen)
    ensures newKeys == NewKeys(seen, CurrentKeys(bookings), today)
  {
    seen, newKeys := UpdateSeen(store, CurrentKeys(bookings), today);
  }

  // ---------------------------------------------------------------------
  // update_seen_and_new: what it promises
  // ---------------------------------------------------------------------

  /** The written store holds representable dates when the read one did. */
  lemma SeenAfterDates(store: Option<map<string, Stamp>>, current: set<string>, today: Date)
    requires ClockDate(today) && (store.Some? ==> StoreDates(store.value))
    ensures StoreDates(SeenAfter(store, current, today))
  {
  }

  /** Which bookings are new, from the store as read: none on a first run;
      after a migration only the keys the store did not know; otherwise the
      keys the store did not know and those whose stored value is at most 7
      days back or not a date. */
  lemma NewKeysExactly(store: Option<map<string, Stamp>>, current: set<string>, today: Date, k: string)
    requires ClockDate(today) && (store.Some? ==> StoreDates(store.value))
    ensures StoreDates(SeenAfter(store, current, today))
    ensures k in NewKeys(SeenAfter(store, current, today), current, today) <==>
      k in current &&
      match store
      case None => false
      case Some(m) =>
        if Migrates(m, today) then k !in m
        else k !in m || IsNew(m[k], today)
  {
    SeenAfterDates(store, current, today);
    var seen := SeenAfter(store, current, today);
    if k in current && store.Some? && Migrates(store.value, today) && k in store.value {
      assert seen[k] == Stamped(Backdate(today));
    }
  }

  /** A second run on the same day changes nothing, unless the first one left
      a store the migration takes for an old one. */
  lemma RerunStable(store: Option<map<string, Stamp>>, current: set<string>, today: Date)
    requires ClockDate(today) && (store.Some? ==> StoreDates(store.value))
    requires !Migrates(SeenAfter(store, current, today), today)
    ensures SeenAfter(Some(SeenAfter(store, current, today)), current, today) == SeenAfter(store, current, today)
  {
  }

  /** The exception: a store whose every date is today, as a run on an empty
      store leaves it, is backdated by the next run that day, so the bookings
      marked new by the first run are no longer new in the second. */
  lemma SameDayRerunForgetsNew(current: set<string>, today: Date)
    requires ClockDate(today) && current != {}
    ensures var first := SeenAfter(Some(map[]), current, today);
      StoreDates(first) && Migrates(first, today) && NewKeys(first, current, today) == current
      && var second := SeenAfter(Some(first), current, today);
      StoreDates(second) && NewKeys(second, current, today) == {}
  {
    var first := SeenAfter(Some(map[]), current, today);
    var k :| k in current;
    assert first[k].Dated?;
    var second := SeenAfter(Some(first), current, today);
    assert forall j :: j in current ==> second[j] == Stamped(Backdate(today));
  }

  // ---------------------------------------------------------------------
  // update_guest_history_and_repeat
  // ---------------------------------------------------------------------

  /** The guest history after the bookings, taken in order: a guest it does
      not know yet is added, with today's date, by a booking that ended
      before today. Its values are decoded like those of the seen store. */
  function HistoryAfter(history: map<string, Stamp>, bookings: seq<Booking>, today: Day): map<string, Stamp>
  {
    if bookings == [] then history
    else
      var h := HistoryAfter(history, bookings[..|bookings| - 1], today);
      var b := bookings[|bookings| - 1];
      if b.guest !in h && Before(b.end, today) then h[b.guest := Stamped(today)] else h
  }

  /** Booking i is a repeat stay: its guest is in the history as it stands
      when the booking is reached. */
  predicate IsRepeat(history: map<string, Stamp>, bookings: seq<Booking>, i: nat, today: Day)
    requires i < |bookings|
  {
    bookings[i].guest in HistoryAfter(history, bookings[..i], today)
  }

  /** The keys of the repeat stays among the first n bookings; keys[i] is
      the key of booking i. */
  function RepeatKeys(history: map<string, Stamp>, bookings: seq<Booking>, keys: seq<string>, n: nat, today: Day): set<string>
    requires |keys| == |bookings| && n <= |bookings|
  {
    if n == 0 then {}
    else
      RepeatKeys(history, bookings, keys, n - 1, today)
        + if IsRepeat(history, bookings, n - 1, today) then {keys[n - 1]} else {}
  }

  lemma HistoryStep(history: map<string, Stamp>, bookings: seq<Booking>, i: nat, today: Day)
    requires i < |bookings|
    ensures var h, b := HistoryAfter(history, bookings[..i], today), bookings[i];
      HistoryAfter(history, bookings[..i + 1], today)
        == if b.guest !in h && Before(b.end, today) then h[b.guest := Stamped(today)] else h
  {
    assert bookings[..i + 1][..i] == bookings[..i];
  }

  lemma RepeatKeysStep(history: map<string, Stamp>, bookings: seq<Booking>, keys: seq<string>, i: nat, today: Day)
    requires |keys| == |bookings| && i < |bookings|
    ensures RepeatKeys(history, bookings, keys, i + 1, today) == RepeatKeys(history, bookings, keys, i, today)
      + if bookings[i].guest in HistoryAfter(history, bookings[..i], today) then {keys[i]} else {}
  {
  }

  /** One booking of the pass: its key is flagged when its guest is known,
      and its guest is recorded when unknown and the stay is over. */
  method RecordStay(history: map<string, Stamp>, repeatKeys: set<string>, b: Booking, today: Day)
    returns (history': map<string, Stamp>, repeatKeys': set<string>)
    requires WellFormed(b)
    ensures repeatKeys' == repeatKeys + if b.guest in history then {KeyOf(b)} else {}
    ensures history' == if b.guest !in history && Before(b.end, today) then history[b.guest := Stamped(today)] else history
  {
    var key := KeyOf(b);
    repeatKeys' := repeatKeys;
    if b.guest in history {
      repeatKeys' := repeatKeys + {key};
    }
    history' := history;
    if b.guest !in history && Before(b.end, today) {
      history' := history[b.guest := Stamped(today)];
    }
  }

  /** update_guest_history_and_repeat(bookings): one pass over the bookings
      that flags the repeat stays and records past guests. */
  method UpdateGuestHistoryAndRepeat(store: Option<map<string, Stamp>>, bookings: seq<Booking>, today: Day)
    returns (history: map<string, Stamp>, repeatKeys: set<string>)
    requires AllWellFormed(bookings)
    ensures history == HistoryAfter(store.GetOr(map[]), bookings, today)
    ensures repeatKeys == RepeatKeys(store.GetOr(map[]), bookings, Keys(bookings), |bookings|, today)
  {
    history := store.GetOr(map[]);
    ghost var stored, keys := history, Keys(bookings);
    repeatKeys := {};
    var i := 0;
    while i < |bookings|
      invariant 0 <= i <= |bookings|
      invariant history == HistoryAfter(stored, bookings[..i], today)
      invariant repeatKeys == RepeatKeys(stored, bookings, keys, i, today)
    {
      history, repeatKeys := RecordStay(history, repeatKeys, bookings[i], today);
      assert history == HistoryAfter(stored, bookings[..i + 1], today) by {
        HistoryStep(stored, bookings, i, today);
      }
      assert repeatKeys == RepeatKeys(stored, bookings, keys, i + 1, today) by {
        RepeatKeysStep(stored, bookings, keys, i, today);
        ImageAt(KeyOf, bookings, i);
      }
      i := i + 1;
    }
    assert bookings[..i] == bookings;
  }

  /** The history keeps every stored guest with their stored value, and
      holds exactly the stored guests and the guests of bookings that ended
      before today; an added guest has today's date. */
  lemma {:induction false} HistoryMembers(history: map<string, Stamp>, bookings: seq<Booking>, today: Day, g: string)
    ensures g in history ==>
      g in HistoryAfter(history, bookings, today) && HistoryAfter(history, bookings, today)[g] == history[g]
    ensures g in HistoryAfter(history, bookings, today) <==>
      g in history || exists i :: 0 <= i < |bookings| && bookings[i].guest == g && Before(bookings[i].end, today)
    ensures g in HistoryAfter(history, bookings, today) && g !in history ==>
      HistoryAfter(history, bookings, today)[g] == Stamped(today)
  {
    if bookings != [] {
      var n := |bookings| - 1;
      var init := bookings[..n];
      HistoryMembers(history, init, today, g);
      if exists i :: 0 <= i < |init| && init[i].guest == g && Before(init[i].end, today) {
        var i :| 0 <= i < |init| && init[i].guest == g && Before(init[i].end, today);
        assert bookings[i] == init[i];
      }
      if exists i :: 0 <= i < |bookings| && bookings[i].guest == g && Before(bookings[i].end, today) {
        var i :| 0 <= i < |bookings| && bookings[i].guest == g && Before(bookings[i].end, today);
        if i < n {
          assert init[i] == bookings[i];
        }
      }
    }
  }

  /** A stay is flagged exactly when its guest was in the stored history or
      has an earlier booking in the list that ended before today. */
  lemma RepeatIff(history: map<string, Stamp>, bookings: seq<Booking>, today: Day, i: nat)
    requires i < |bookings|
    ensures IsRepeat(history, bookings, i, today) <==>
      bookings[i].guest in history
      || exists j :: 0 <= j < i && bookings[j].guest == bookings[i].guest && Before(bookings[j].end, today)
  {
    var g := bookings[i].guest;
    HistoryMembers(history, bookings[..i], today, g);
    if exists j :: 0 <= j < i && bookings[j].guest == g && Before(bookings[j].end, today) {
      var j :| 0 <= j < i && bookings[j].guest == g && Before(bookings[j].end, today);
      assert bookings[..i][j] == bookings[j];
    }
  }

  /** Every repeat stay among the first n bookings has its key reported ... */
  lemma {:induction false} RepeatStayReported(history: map<string, Stamp>, bookings: seq<Booking>, keys: seq<string>, n: nat, today: Day, i: nat)
    requires |keys| == |bookings| && i < n <= |bookings|
    requires IsRepeat(history, bookings, i, today)
    ensures keys[i] in RepeatKeys(history, bookings, keys, n, today)
  {
    if i < n - 1 {
      RepeatStayReported(history, bookings, keys, n - 1, today, i);
    }
  }

  /** ... and every reported key is the key of a repeat stay. */
  lemma {:induction false} ReportedKeyIsRepeat(history: map<string, Stamp>, bookings: seq<Booking>, keys: seq<string>, n: nat, today: Day, k: string)
    returns (i: nat)
    requires |keys| == |bookings| && n <= |bookings|
    requires k in RepeatKeys(history, bookings, keys, n, today)
    ensures i < n && IsRepeat(history, bookings, i, today) && keys[i] == k
  {
    if k in RepeatKeys(history, bookings, keys, n - 1, today) {
      i := ReportedKeyIsRepeat(history, bookings, keys, n - 1, today, k);
    } else {
      i := n - 1;
    }
  }
}
