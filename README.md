# Holiday-rental booking pipeline, modelled in Dafny

This project models the scripts that run a small holiday-rental business.

**The data.** A scraper reads the booking overview of every holiday home ("Fewo")
from the PDF pages of the booking system. It writes one overview file per home, one
`|`-separated line per reservation. Every other script reads those files:

- the visual booking calendar (`visual_cal.py`): the bookings and blocked-out
  ranges, the "new booking" and "repeat guest" stores, the bar layout of the
  timeline, and the password gate's hash;
- the quick overview page: each home occupied, vacant until the next arrival,
  or without bookings;
- the upcoming arrivals and departures pages, grouped into "Diese Woche",
  "Nächste Woche" and "Übernächste Woche";
- the departures-and-arrivals report for the next 36 days;
- the double-bookings alert: the same guest leaving and re-arriving on one day,
  reported once thanks to a history store;
- the repeat-guests listing;
- the daily mail of today's departures and arrivals;
- the bookings-overview mail;
- the shared helpers in `utils.py`: display names, recipients, date ordering,
  weekday prefixes, home order in a mail, and booking formatting.

**How the model is built.**

- Each script's loops are methods with loop invariants. Each method is proved
  equal to a specification function, and the properties the scripts promise are
  lemmas about those functions.
- The scraper's overview files form a class whose one field, a map from display
  name to file content, is updated in place.
- The clock, the directory listings, the file contents and the environment are
  parameters.
- Python's `str.strip`, `str.split`, `sep.join`, `int()`, `sorted()` (stable),
  `datetime.strptime` for `%d.%m.%Y` and `%d.%m.%y`, `date.toordinal` and
  `date.fromisoformat` are defined from scratch in `text.dfy`, `sorting.dfy` and
  `dates.dfy`.

**Modules.**

- `text.dfy`, `lists.dfy`, `sorting.dfy`, `dates.dfy` and `wrappers.dfy`: the
  Python built-ins above, and generic list helpers.
- `calendar_input.dfy`: parsing the overview files and the blocked-dates file.
- `annotations.dfy`: the seen store and the guest history.
- `layout.dfy`: the timeline bars.
- `password.dfy`: the password hash.
- One module per report script: `scrape.dfy`, `quick_overview.dfy`,
  `upcoming.dfy`, `turnovers.dfy`, `double_bookings.dfy`, `repeat_guests.dfy`,
  `daily_update.dfy`, `bookings_overview.dfy`, `utils.dfy`.
- `reports.dfy`: what several report scripts share.

**Behaviour of the code that is easy to misread.**

- The "Stamm:" repeat-guest flag is decided against the guest history as it is
  updated during the loop. It is not decided against the history read at the
  start.
- The one-pixel trim of a bar whose successor starts on its end day also applies
  to blocked-out ranges.
- `ellipsize` can return two characters (one and "…") when only one fits. The
  calendar's labels never reach that case, because a label needs a bar of at
  least 60 px.

**Behaviour of the code as written that the lemmas make visible.**

- `Annotations.SameDayRerunForgetsNew`: the migration of old seen stores
  misfires on a second run on the same day as a run that left every stored date
  equal to today. One such first run starts from an existing store that holds
  `{}`: it marks every booking new. The second run then backdates every booking,
  so none of them is new any more. A missing store does not lead there, because
  that first run stamps the bookings with today minus 8 days.
- `BookingsOverview.RelevantByDays`: a booking whose departure is today stops
  being relevant one microsecond after midnight, unless it also arrived
  today.
- `BookingsOverview.FormatBookingFails`: `format_booking` reads the arrival and
  departure fields as written, while `is_relevant_booking` strips them first.
  So a relevant booking whose arrival or departure field carries blanks makes
  the whole file count as failed. The one blank that strptime's `%d` accepts,
  before a one-digit day, does not. A past booking with padded fields is
  skipped before `format_booking` runs and does not fail the file.
- `Scrape.FallbackRowsExactly`: the `len(row) == 9` test of the fallback path
  always holds once `idx + 16 < len(spans)`. Every position it accepts yields a
  row of nine spans.
- `DailyUpdate.LongDateNeverMatches`: the daily mail compares the date fields
  with today written as `DD.MM.YY`. A line that writes a four-digit year never
  counts as an arrival or a departure.

## Model

| member | source | states |
|---|---|---|
| Annotations.IsoFormatShape | visual_cal.py:52-53 | an ISO date holds no "\|", so the key's three parts are separable |
| Annotations.BookingKeyInjective | visual_cal.py:52-53 | booking_key identifies the booking: equal keys (homes without "\|") mean equal home, start and end |
| Annotations.KeyIsCurrent | visual_cal.py:80 | every booking's key is in the current key set |
| Annotations.CurrentKeyOfBooking | visual_cal.py:80 | every current key is the key of some booking |
| Annotations.DecodeStamp | visual_cal.py:73 | a stored value is a date exactly when fromisoformat reads it, in any of its six ISO forms, and that date is representable |
| Annotations.Stamped | visual_cal.py:77-81 | a date the program stores is written as its isoformat text, which reads back as that date |
| Annotations.BasicFormStamp | visual_cal.py:87-92 | a value stored as "20240101" is that date, is written back unchanged, and is not new on 2024-03-01 |
| Annotations.StampRoundTrip | visual_cal.py:87-93 | decoding a stored value loses nothing: the store writes back the text it read |
| Annotations.StampDecodesBack | visual_cal.py:87-91 | every decodable stamp is read back from its own text |
| Annotations.Backdate | visual_cal.py:77 | today - 8 days is a valid date exactly 8 ordinals before today |
| Annotations.StoredDatesAllToday | visual_cal.py:69-76 | the scan of stored values says "migrate" exactly when some value is a date and every date is today |
| Annotations.MigrateStore | visual_cal.py:76-79 | the migration backdates every stored entry when it applies and leaves the store alone otherwise |
| Annotations.SeedMissing | visual_cal.py:82-84 | after seeding, the keys are the stored ones plus the current ones; stored values are kept and new keys get the seed date |
| Annotations.PruneSeeded | visual_cal.py:86 | pruning the seeded store leaves exactly the current keys, each with its stored value or the seed date |
| Annotations.UpdateSeen | visual_cal.py:58-92 | the store written back and the new keys are those of the seen-store specification, and the store keeps only valid dates |
| Annotations.UpdateSeenAndNew | visual_cal.py:55-94 | update_seen_and_new over the bookings' key set: written store and new keys as specified |
| Annotations.SeenAfterDates | visual_cal.py:55-93 | the written store holds only representable dates when the read one did |
| Annotations.NewKeysExactly | visual_cal.py:80-92 | a key is new exactly when it is current and its first-seen date (seeded or stored, after migration) is at most 7 days back |
| Annotations.RerunStable | visual_cal.py:55-94 | a second run on the same bookings and day leaves the store unchanged unless the migration fires |
| Annotations.SameDayRerunForgetsNew | visual_cal.py:58-92 | a run on an existing store holding {} marks every booking new; a second run that day backdates all and marks none new |
| Annotations.HistoryStep | visual_cal.py:106-111 | one booking adds its guest with today's date exactly when unknown and the stay has ended |
| Annotations.RepeatKeysStep | visual_cal.py:106-109 | one booking adds its key to the repeat keys exactly when its guest is already in the history |
| Annotations.RecordStay | visual_cal.py:107-111 | the loop body: repeat key added when the guest is known; guest recorded when unknown and the stay is over |
| Annotations.UpdateGuestHistoryAndRepeat | visual_cal.py:96-113 | the history written back and the repeat keys are those of the history specification |
| Annotations.HistoryMembers | visual_cal.py:106-111 | stored guests keep their values; a guest is in the history exactly when stored or some earlier stay of theirs has ended; added guests carry today |
| Annotations.RepeatIff | visual_cal.py:108-111 | a stay is a repeat exactly when its guest was stored or an earlier stay of the same guest ended before today |
| Annotations.RepeatStayReported | visual_cal.py:105-109 | every repeat stay's key is reported |
| Annotations.ReportedKeyIsRepeat | visual_cal.py:105-109 | every reported key is the key of a repeat stay |
| Password.ToSha256Hex | visual_cal.py:115-122 | a blank value gives "" (gate off) |
| Password.SurroundingSpaceIgnored | visual_cal.py:117 | surrounding blanks on the configured value do not change the hash |
| Password.StripPaddedBoth | visual_cal.py:117 | strip of a value padded with blanks on both sides is strip of the value |
| Password.TrimLeftAppendSpace | visual_cal.py:117 | a trailing blank survives the left trim only when something else does |
| Password.TrimRightAppendSpace | visual_cal.py:117 | a trailing blank disappears under the right trim |
| Password.PrehashedTakenAsIs | visual_cal.py:120-121 | "sha256:" followed by a trimmed hex is taken as the hash itself |
| Password.PlainMatchesPrehashed | visual_cal.py:117-122 | configuring "sha256:" + digest(password) gives the same hash as configuring the password |
| Password.GateOffExactly | visual_cal.py:117-121 | the gate is off exactly for a blank value or "sha256:" with nothing but blanks after it |
| CalendarInput.StripAllOfStripped | visual_cal.py:181 | stripping already stripped fields changes nothing |
| CalendarInput.BookingOfFields | visual_cal.py:182-200 | an accepted booking has the file's home, valid dates and start no later than end |
| CalendarInput.ParseBookingLine | visual_cal.py:176-200 | an accepted line's booking has the file's home, valid dates and start no later than end |
| CalendarInput.OrderIndex | visual_cal.py:203 | the rank found is the home's position in HOMES_ORDER; none for an unlisted home |
| CalendarInput.DedupeCounts | visual_cal.py:202 | set(homes) holds every stem exactly once |
| CalendarInput.DistinctOfCounts | visual_cal.py:202 | a list holding each element at most once has no repeats |
| CalendarInput.HomesOrderedCorrect | visual_cal.py:201-204 | the home order holds exactly the stems, each once, listed homes in HOMES_ORDER order before the others alphabetically |
| CalendarInput.ReadOverview | visual_cal.py:176-200 | the loop over one file's lines yields exactly the file's accepted bookings in line order |
| CalendarInput.CollectBookings | visual_cal.py:171-205 | collect_bookings: the bookings of all files in file order, and the ordered homes |
| CalendarInput.BookingOfFieldsAccepted | visual_cal.py:182-187 | fields give a booking exactly when there are at least four, both dates parse and the end is not before the start |
| CalendarInput.BookingLineAccepted | visual_cal.py:176-182 | a line gives a booking exactly when not blank, no summary line, has "\|" and its fields are accepted |
| CalendarInput.AllBookingsFromFiles | visual_cal.py:173-200 | every booking comes from one file, and every file's bookings are collected |
| CalendarInput.AllBookingsFromLines | visual_cal.py:173-200 | a booking is collected exactly when some line of some file parses to it |
| CalendarInput.ParseIntPadded | visual_cal.py:193 | int(n.strip()) of a digit run padded with blanks is its value |
| CalendarInput.SplitPeopleField | visual_cal.py:193 | "a / b / c" splits on "/" into the three padded numbers |
| CalendarInput.PeopleCountsOfField | visual_cal.py:191-197 | the people field "a / b / c" gives a + b guests and c animals |
| CalendarInput.ParseIntsPeopleField | visual_cal.py:193 | the three numbers of a people field parse to their values |
| CalendarInput.CountsOfThree | visual_cal.py:194-197 | three numbers give guests = first + second and animals = third |
| CalendarInput.BookingOfScrapedFields | visual_cal.py:182-200 | fields with DD.MM.YY dates read back as the booking they describe |
| CalendarInput.JoinedFields | visual_cal.py:176-181 | a "\|"-join of clean fields is listed and splits back into the fields |
| CalendarInput.BookingLineRoundTrip | visual_cal.py:176-200 | a line written by the scraper (fields joined with "\|") reads back as its booking |
| CalendarInput.BlockedOfFields | visual_cal.py:161-166 | an accepted blocked range has valid dates and start no later than end |
| CalendarInput.ParseBlockedLine | visual_cal.py:157-168 | an accepted blocked-dates line gives a well-formed range |
| CalendarInput.BlockedRangesWellFormed | visual_cal.py:151-169 | every blocked range loaded is well formed |
| CalendarInput.LoadBlockedDates | visual_cal.py:151-169 | load_blocked_dates: none without the file, otherwise the accepted lines in file order |
| CalendarInput.FieldsOfSplit | visual_cal.py:160 | splitting into parts that need no stripping gives those parts as fields |
| CalendarInput.FormatLongShape | visual_cal.py:141-146 | a DD.MM.YYYY date has no comma, starts and ends with a digit and needs no strip |
| CalendarInput.DottedDigitsShape | visual_cal.py:141-146 | three digit runs joined with dots have no comma, digits at both ends and need no strip |
| CalendarInput.BlockedLineRoundTrip | visual_cal.py:151-169 | the line "home,DD.MM.YYYY,DD.MM.YYYY" reads back as its blocked range |
| CalendarInput.ParseBlockedLineOfFields | visual_cal.py:157-166 | a clean line parses as its comma fields do |
| CalendarInput.BlockedOfLongDates | visual_cal.py:161-166 | a home and two long dates in order give that blocked range |
| CalendarInput.BlockedLineShape | visual_cal.py:157-160 | a written blocked-dates line is not blank, no comment, and its date fields are clean |
| CalendarInput.ReadLines | upcoming_arrivals.py:35-56 | the loop over one file's lines keeps the accepted values in line order |
| CalendarInput.GatherLines | upcoming_arrivals.py:33-56 | the loop over files then lines yields the gathered values in file and line order |
| CalendarInput.GatherFromLines | upcoming_arrivals.py:33-56 | a value is gathered exactly when some line of some file parses to it |
| CalendarInput.GatherAppend | upcoming_arrivals.py:33-56 | values are gathered in file order: earlier files' values come first |
| CalendarInput.TxtFilesStep | departures_and_arrivals.py:102-106 | one more listing entry adds a file exactly when its name ends in ".txt", with the suffix removed |
| CalendarInput.GatherTxtStep | daily_update.py:19-44 | one more listing entry adds exactly the values of its lines when it is a .txt file |
| Reports.ReportFields | quick_overview.py:44-48 | a line the reports accept yields at least six fields |
| Reports.ReportLineKept | quick_overview.py:44-48 | a report reads a line exactly when it is not blank, holds no "Belegungen", holds a "\|" and has six fields; the fields are the stripped pieces |
| Reports.GuestCountAsCalendar | quick_overview.py:56-57 | the reports count a party's guests exactly as the calendar does |
| Reports.SameGuests | upcoming_arrivals.py:52-53 | the reports' guest formula (first number plus the second when present) gives the calendar's guest count on any parse result |
| Reports.GuestCountOfField | quick_overview.py:56-57 | "a / b / c" gives a + b guests |
| Layout.EllipsizeFits | visual_cal.py:234-239 | ellipsize is empty when nothing fits, the text when it fits, otherwise a prefix and "…" of at most the characters that fit (two when one fits) |
| Layout.AppendBookings | visual_cal.py:241-245 | after the first grouping loop each home's list is its bookings in sorted order; no list is empty |
| Layout.AppendBookingStep | visual_cal.py:245 | appending one booking to its home's list extends that home's bookings by one and no other home's |
| Layout.AppendBlocked | visual_cal.py:247-248 | the second loop appends each home's blocked ranges, in file order, after its bookings |
| Layout.AppendBlockedStep | visual_cal.py:248 | appending one blocked range extends only its home's list |
| Layout.SortLists | visual_cal.py:250-251 | the third loop sorts each home's list by (start, end) and keeps the homes |
| Layout.GroupByHome | visual_cal.py:240-251 | by_home.get(home, []) is each home's bookings and blocked ranges sorted by (start, end) |
| Layout.HomeItemsOrdered | visual_cal.py:250-251 | a home's items are in (start, end) order |
| Layout.BookingItemsMembers | visual_cal.py:242-245 | a home's booking items are exactly its bookings |
| Layout.SortedBookingItemsMembers | visual_cal.py:242-245 | sorting the bookings first keeps each home's bookings |
| Layout.BlockedItemsMembers | visual_cal.py:247-248 | a home's blocked items are exactly its blocked ranges |
| Layout.HomeItemsMembers | visual_cal.py:240-251 | a home's row holds exactly its bookings and its blocked ranges |
| Layout.HomeItemsTies | visual_cal.py:242-251 | among items of the same dates, the bookings come first in sorted order, then the blocked ranges in file order |
| Layout.WindowOf | visual_cal.py:214-217 | the window runs from 90 days before today over 365 days |
| Layout.MeasureBar | visual_cal.py:365-388 | the bar computed for item j is its specified bar |
| Layout.DrawCaption | visual_cal.py:390-394 | the label drawn for a bar is its specified label |
| Layout.DrawItem | visual_cal.py:361-399 | one pass of the inner loop draws item j's marks |
| Layout.RenderRow | visual_cal.py:359-399 | the inner loop draws every item's marks in order |
| Layout.WindowSpan | visual_cal.py:214-217 | the window is valid, starts 90 days before today, ends 275 days after, and today lies inside |
| Layout.DrawnIffOverlaps | visual_cal.py:368-370 | an item is drawn exactly when it overlaps the window, and then its bar comes first |
| Layout.BarGeometry | visual_cal.py:368-380 | a bar starts at the clipped start and covers the clipped days, end day included. It is one pixel shorter exactly when its end lies in the window, the next item starts on that day and it spans more than one column. It is at least one column wide, lies inside the chart, and has the blocked kind exactly for blocked ranges |
| Layout.TurnoverAtNextBar | visual_cal.py:395-399 | a turnover line is drawn exactly for a booking whose in-window end day is the next item's start, and it sits at the next bar's left edge |
| Layout.CaptionFits | visual_cal.py:390-394 | a label is drawn exactly on bars of at least 60 px with something to show. It starts 6 px in, has at most as many characters as fit the bar less its 12 px padding at 9.75 px each, and is the text or a prefix of it followed by "…" |
| Layout.RowY | visual_cal.py:230-231 | rows start below the header and follow each other one row height apart |
| Layout.HomeItemsValid | visual_cal.py:240-251 | every item of a row has valid dates |
| Layout.DrawRows | visual_cal.py:354-399 | for distinct homes, the outer loop draws one row per home, in home order, at row_y(i), with that home's marks |
| Layout.RenderBars | visual_cal.py:214-399 | render's rows for distinct homes: one per home, each the marks of the home's grouped items in the window around today |
| Dates.DaysInMonth | visual_cal.py:146 | a month has 28 to 31 days |
| Dates.Weekday | utils.py:104 | date.weekday() is between 0 and 6 |
| Dates.DateRankOrder | visual_cal.py:242 | sorting dates by rank is date order, and equal ranks are equal dates |
| Dates.BeforeIsOrdinalLess | visual_cal.py:229 | date order is ordinal order |
| Dates.OrdinalBounds | visual_cal.py:217 | every representable date has an ordinal between 1 and that of 9999-12-31 |
| Dates.Succ | visual_cal.py:347 | the next day is valid and one ordinal later |
| Dates.Pred | bookings_overview.py:36 | the previous day is valid and one ordinal earlier |
| Dates.AddDays | visual_cal.py:215-216 | d + timedelta(days=n) is valid and n ordinals later |
| Dates.ClockDateRoom | visual_cal.py:215-216 | a clock date leaves a year of room on both sides |
| Dates.Strptime | visual_cal.py:146 | strptime's accepted dates are valid |
| Dates.ParseDate | visual_cal.py:141-149 | parse_date's accepted dates are valid |
| Dates.ParseShortDate | departures_and_arrivals.py:12-17 | strptime(s.strip(), "%d.%m.%y") gives valid dates |
| Dates.IsoParse | visual_cal.py:89 | fromisoformat reads only representable dates |
| Dates.StrptimeDotted | visual_cal.py:146 | strptime on three dot-free fields parses each field |
| Dates.StrptimeFormatLong | repeat_guests.py:78 | strptime("%d.%m.%Y") reads back what strftime("%d.%m.%Y") wrote |
| Dates.StrptimeFormatShort | departures_and_arrivals.py:12-23 | strptime("%d.%m.%y") reads back what strftime("%d.%m.%y") wrote, for years 1969 to 2068 |
| Dates.ParseDateOfShort | quick_overview.py:22-29 | parse_date (four-digit year first) still reads a DD.MM.YY date back |
| Dates.IsoRoundTrip | visual_cal.py:53 | fromisoformat reads back what isoformat wrote |
| Dates.IsoParseCanonical | visual_cal.py:73 | every string fromisoformat reads is the isoformat text of its date, the YYYYMMDD form of that date, or an ISO week date |
| Dates.IsoBasicRoundTrip | visual_cal.py:73 | fromisoformat reads the YYYYMMDD form of a date as that date |
| Dates.IsoWeekDate | visual_cal.py:73 | a week date is the day 7(week-1)+(day-1) after the Monday of week 1, for weeks 1 to 53, days 1 to 7 and years 1 to 9999 |
| Dates.IsoWeekDateWeekday | visual_cal.py:73 | day d of an ISO week falls on weekday d-1: day 1 is a Monday |
| Dates.Week1MondayIsMonday | visual_cal.py:73 | ISO week 1 starts on the Monday between 29 December and 4 January |
| Dates.WeeksInIsoYear | visual_cal.py:73 | an ISO year lasts 53 weeks exactly when fromisoformat accepts its week 53, 52 weeks otherwise |
| Dates.IsoCalendarFormsOf2024 | visual_cal.py:73 | "2024-01-01" and "20240101" both read as 1 January 2024 |
| Dates.IsoWeekFormOf2024 | visual_cal.py:73 | "2024-W01-1" reads as 1 January 2024 |
| Dates.IsoBasicWeekFormOf2024 | visual_cal.py:73 | "2024W011" reads as 1 January 2024 |
| Dates.IsoFormatInjective | visual_cal.py:53 | different dates have different ISO texts |
| Text.Strip | visual_cal.py:142 | str.strip leaves no blank at either end and never lengthens |
| Text.StripEmptyIffBlank | visual_cal.py:158 | `not line.strip()` holds exactly for blank lines |
| Text.StripIdempotent | visual_cal.py:181 | stripping twice is stripping once |
| Text.SplitJoinsBack | visual_cal.py:181 | joining the split pieces with the separator gives the line back, and no piece holds the separator |
| Text.SplitJoin | scrape_booking_overviews.py:88 | splitting a join of separator-free parts gives the parts |
| Text.JoinAppend | bookings_overview.py:74 | joining two lists of parts joins each with the separator between |
| Text.NatToStringFacts | upcoming_arrivals.py:89 | str(n) is the digits of n without leading zeros |
| Text.ZeroPadFacts | visual_cal.py:233 | zero padding keeps the value and gives at least the width, exactly the width when the number fits |
| Text.ParseIntOfIntToString | upcoming_arrivals.py:48 | int(str(n)) == n |
| Text.StrLessTotal | visual_cal.py:202 | Python's string order is total |
| Text.StrLessTransitive | visual_cal.py:202 | Python's string order is transitive |
| Sorting.SortByCorrect | visual_cal.py:242 | sorted() by a key: ordered by the key, a permutation, and elements of equal key in their input order (stable) |
| Lists.BucketsLookup | repeat_guests.py:21-45 | defaultdict(list) appends: a key is present exactly when some pair has it, and its list is the pairs' values in order |
| Lists.BucketCount | repeat_guests.py:45 | a value sits in its key's list once per pair |
| Lists.KeysOfFacts | repeat_guests.py:58 | the dict's keys are the paired keys, each once |
| QuickOverview.ParseStay | quick_overview.py:43-53 | a line's stay has valid arrival and departure |
| QuickOverview.StayLineKept | quick_overview.py:43-53 | a line gives a stay exactly when the report reads it and both dates parse; the stay holds those dates and the guest count of field 5 |
| QuickOverview.ReversedStayKept | quick_overview.py:43-53 | a line whose departure lies before its arrival is kept with both dates as written, since no check compares them |
| QuickOverview.StaysValid | quick_overview.py:43-53 | every stay read has valid dates |
| QuickOverview.NextArrivalOf | quick_overview.py:61-63 | the next arrival, when there is one, is a valid date |
| QuickOverview.NoteStay | quick_overview.py:54-63 | the loop body updates current and next_arrival as specified |
| QuickOverview.StatusStep | quick_overview.py:54-63 | one more stay updates current and next_arrival by the loop's rule |
| QuickOverview.StaysStep | quick_overview.py:43-53 | one more line adds its stay when it has one |
| QuickOverview.HomeStatus | quick_overview.py:41-69 | the loop over a file's lines gives the file's status |
| QuickOverview.GetStatus | quick_overview.py:32-70 | one status per home of HOMES: the file's status, or empty when there is no file |
| QuickOverview.CurrentIsFirstCovering | quick_overview.py:54-60 | an occupied status comes from the first stay covering today, with its count and the days left (never negative) |
| QuickOverview.NoCurrentNoCovering | quick_overview.py:54 | without an occupied status no stay covers today |
| QuickOverview.CoveringMakesCurrent | quick_overview.py:54 | a stay covering today makes the home occupied |
| QuickOverview.NextArrivalIsEarliest | quick_overview.py:61-63 | any arrival after today is no earlier than the next arrival |
| QuickOverview.NoNextArrival | quick_overview.py:61-63 | without a next arrival no stay arrives after today |
| QuickOverview.NextArrivalFromStay | quick_overview.py:61-63 | the next arrival is some stay's arrival, after today |
| QuickOverview.StatusPriority | quick_overview.py:64-69 | occupied exactly when a stay covers today; empty exactly when no stay covers or lies ahead; a vacant home's arrival is at least a day away |
| QuickOverview.StatusTextKind | quick_overview.py:85-103 | the text tells the kinds apart: "— keine Buchungen", "— arrival in …", or the people text |
| Upcoming.InWindowAsDates | upcoming_arrivals.py:31-45 | today <= d <= cutoff on dates is the ordinal window |
| Upcoming.ArrivalOf | upcoming_arrivals.py:36-56 | an accepted arrival has the file's home and a date in the window |
| Upcoming.DepartureOf | upcoming_departures.py:36-47 | an accepted departure has the file's home and a date in the window |
| Upcoming.CollectArrivals | upcoming_arrivals.py:28-57 | collect_arrivals: the accepted arrivals of all files, sorted by date |
| Upcoming.CollectDepartures | upcoming_departures.py:28-48 | collect_departures: the accepted departures of all files, sorted by date |
| Upcoming.SortedByDate | upcoming_arrivals.py:57 | sorting by date orders by date, keeps every entry, and keeps same-day entries in input order |
| Upcoming.CollectedArrivals | upcoming_arrivals.py:28-57 | the arrivals listed are exactly those of accepted lines, in the window, in date order |
| Upcoming.CollectedDepartures | upcoming_departures.py:28-48 | the departures listed are exactly those of accepted lines, in the window, in date order |
| Upcoming.ArrivalLineKept | upcoming_arrivals.py:36-46 | a line is an arrival exactly when listed, at least six fields, its arrival parses and lies in the window |
| Upcoming.DepartureLineKept | upcoming_departures.py:36-46 | a line is a departure exactly when listed, at least six fields, its departure parses and lies in the window |
| Upcoming.WeekLabelByCalendarWeek | upcoming_arrivals.py:60-69 | "Diese Woche" is today's Monday-to-Sunday week, "Nächste Woche" the next, "Übernächste Woche" anything later |
| Upcoming.WeekArithmetic | upcoming_arrivals.py:62-68 | the days-ahead comparison against the days left until Sunday is a comparison of week numbers |
| Upcoming.WeekLabelMonotone | upcoming_departures.py:51-59 | the label never goes back as the date advances |
| Upcoming.WeekTextInjective | upcoming_arrivals.py:85-88 | different weeks have different headings |
| Upcoming.GroupByWeek | upcoming_arrivals.py:83-95 | the loop writes the grouped rows, or the notice when there are none |
| Upcoming.BlockParts | upcoming_arrivals.py:85-93 | one row adds itself, and a heading when its week differs from the previous |
| Upcoming.GroupedRows | upcoming_arrivals.py:84-93 | every row appears once and in order |
| Upcoming.HeadingsStep | upcoming_arrivals.py:85-88 | one more row adds the headings of its block |
| Upcoming.GroupedHeadingsMembers | upcoming_arrivals.py:85-88 | every row's week has a heading and every heading is a row's week |
| Upcoming.GroupedLastHeading | upcoming_arrivals.py:85-88 | the last heading is the last row's week |
| Upcoming.GroupedHeadings | upcoming_arrivals.py:83-88 | rows in week order give strictly increasing headings: each heading once |
| Upcoming.ArrivalsBody | upcoming_arrivals.py:72-97 | the arrivals page body as specified |
| Upcoming.DeparturesBody | upcoming_departures.py:62-83 | the departures page body as specified |
| Upcoming.PersonsUnknown | upcoming_arrivals.py:89 | "? Personen" exactly for a missing or zero count |
| Upcoming.LengthTextKind | upcoming_arrivals.py:90 | "für ? Tage" exactly for a missing or zero length; "Tag" exactly for one day |
| Upcoming.IntToStringStartsWithNumber | upcoming_arrivals.py:89 | str(n) starts with a digit or "-" |
| Upcoming.DepartureRowParts | upcoming_departures.py:79 | a departure row is the weekday, day and month, and the home, at fixed positions |
| Upcoming.ArrivalRowParts | upcoming_arrivals.py:92 | an arrival row starts like a departure row, with the home at position 13 |
| Upcoming.PageShape | upcoming_arrivals.py:83-95 | the notice alone without rows; otherwise every row once in order, with ascending distinct headings for exactly the rows' weeks |
| Upcoming.EntriesPageShape | upcoming_arrivals.py:83-95 | for date-sorted entries: the page lists every entry's row, each heading once, headings exactly the entries' weeks |
| Upcoming.ArrivalsPageShape | upcoming_arrivals.py:72-97 | the arrivals page: the notice when empty, else every arrival, headings ascending and exactly the arrivals' weeks |
| Upcoming.DeparturesPageShape | upcoming_departures.py:62-83 | the departures page: the notice when empty, else every departure, headings ascending and exactly the departures' weeks |
| Turnovers.FormatDateRoundTrip | departures_and_arrivals.py:12-23 | a formatted date is never "keine" and parse_date reads it back |
| Turnovers.FormatDateNotKeine | departures_and_arrivals.py:19-23 | a formatted date is never "keine" |
| Turnovers.PeopleInfoUnknown | departures_and_arrivals.py:25-36 | "Unbekannt" exactly when the field is not three integers |
| Turnovers.PeopleInfoOfField | departures_and_arrivals.py:28-34 | "a / b / c" shows adults, then kids and babies only when positive |
| Turnovers.LineParts | departures_and_arrivals.py:54-59 | a used line has at least the required number of fields |
| Turnovers.LinePartsKept | departures_and_arrivals.py:54-59 | a line is used exactly when its stripped form is not empty, holds no "Belegungen" and has the required number of fields; those are its fields |
| Turnovers.CandidateLineKept | departures_and_arrivals.py:54-71 | a line is an arrival candidate exactly when it has six fields and its arrival parses as DD.MM.YY; the candidate holds that date and the stripped people field |
| Turnovers.CandidatesStep | departures_and_arrivals.py:53-83 | one more line adds its arrival candidate when it has one |
| Turnovers.NextStep | departures_and_arrivals.py:76-79 | one more candidate replaces the next arrival exactly when on or after the departure and strictly earlier |
| Turnovers.NextArrivalInfo | departures_and_arrivals.py:38-92 | get_next_arrival_info: "keine" without a file or an arrival, else the earliest arrival's date and people info |
| Turnovers.NextIsEarliest | departures_and_arrivals.py:76-79 | any arrival on or after the departure is no earlier than the one found |
| Turnovers.NextIsFirstOfItsDate | departures_and_arrivals.py:76-79 | the arrival found is a candidate on or after the departure, the first of its date |
| Turnovers.NoNextArrival | departures_and_arrivals.py:87-92 | "keine" only when no arrival is on or after the departure |
| Turnovers.ArrivalInfoShape | departures_and_arrivals.py:87-92 | people info exactly for a found arrival, never empty; "keine" exactly without one |
| Turnovers.LeavingOf | departures_and_arrivals.py:112-128 | a departure read lies in the period and belongs to the file's home |
| Turnovers.LeavingLineKept | departures_and_arrivals.py:112-128 | a line is counted as a departure exactly when it has four fields, its departure parses as DD.MM.YY and lies in the period |
| Turnovers.AddFile | departures_and_arrivals.py:110-130 | one file's departures are appended to their days |
| Turnovers.DeparturesForPeriod | departures_and_arrivals.py:94-134 | get_departures_for_period: the homes leaving on each day of the period, in listing order |
| Turnovers.HomeLines | departures_and_arrivals.py:152-160 | one line per departing home with its next arrival |
| Turnovers.DayLines | departures_and_arrivals.py:145-164 | one day's block as specified |
| Turnovers.GenerateReport | departures_and_arrivals.py:136-166 | generate_report: the day blocks' lines joined with newlines |
| Turnovers.HomeLineStarts | departures_and_arrivals.py:157-160 | a departing home's line starts with the home and its next arrival date |
| Turnovers.BlockShape | departures_and_arrivals.py:149-164 | a day's block: heading first, "-" alone without departures, an empty line last |
| Turnovers.BlockLines | departures_and_arrivals.py:152-160 | line i + 1 of a block is departing home i with its next arrival |
| Turnovers.ReportDays36 | departures_and_arrivals.py:136-151 | 36 blocks, day k being today + k, each listing exactly the homes leaving that day, once per leaving line |
| DoubleBookings.ParseBooking | double_bookings.py:12-23 | a parsed booking comes from a line without "Belegungen" |
| DoubleBookings.ParseBookingAccepted | double_bookings.py:12-23 | a line is read exactly when its stripped form has nine fields and it holds no "Belegungen"; the id is kept as written, the guest and both dates are stripped |
| DoubleBookings.RecordAllSnoc | double_bookings.py:62-95 | one more candidate pair is recorded after the others |
| DoubleBookings.RecordAllAppend | double_bookings.py:47-95 | recording two runs of pairs is recording one after the other |
| DoubleBookings.AdjacentStep | double_bookings.py:62-68 | one more neighbour adds a pair exactly when same guest and departure equals arrival |
| DoubleBookings.ScanFile | double_bookings.py:62-95 | the scan of a file's sorted bookings records their adjacent pairs |
| DoubleBookings.AllPairsSnoc | double_bookings.py:47-95 | one more file adds its pairs after the others |
| DoubleBookings.ScanOverview | double_bookings.py:48-98 | the loop body over a file records the file's pairs |
| DoubleBookings.FindConsecutiveBookings | double_bookings.py:43-103 | find_consecutive_bookings: the pairs found and the history as specified |
| DoubleBookings.RecordKeepsEntries | double_bookings.py:74-95 | recording a pair keeps every history entry and stores each reported pair with today's date |
| DoubleBookings.RecordDistinct | double_bookings.py:74 | recording keeps the reported ids distinct |
| DoubleBookings.RecordNewIds | double_bookings.py:74-95 | the new history ids are exactly the reported pairs' ids |
| DoubleBookings.RecordAllConsistent | double_bookings.py:62-95 | after any run of pairs the history keeps old entries and reported ids are new and distinct |
| DoubleBookings.RecordAllFrom | double_bookings.py:62-95 | only candidate pairs are reported, and every candidate's id ends up in the history |
| DoubleBookings.ReportedOnce | double_bookings.py:43-103 | old entries are kept; every reported pair is an adjacent pair not in the old history, reported once; the history is the old ids plus the reported ones |
| DoubleBookings.RecordAllKnown | double_bookings.py:74 | pairs whose ids are known report nothing and change nothing |
| DoubleBookings.RerunReportsNothing | double_bookings.py:43-103 | running again with the saved history reports nothing and changes nothing |
| DoubleBookings.AdjacentMembers | double_bookings.py:62-71 | a pair is found exactly when two neighbouring bookings have the same guest and the first leaves on the second's arrival |
| DoubleBookings.SortedBookingsPermutes | double_bookings.py:52-59 | the scanned bookings are the parsed ones, each once, same-day ones in file order |
| DoubleBookings.SortedBookingsOrdered | double_bookings.py:59 | the scanned bookings are in arrival order |
| DoubleBookings.UnparsableFileSkipped | double_bookings.py:59 | a file with an arrival strptime rejects yields no pairs |
| DoubleBookings.GenerateEmailContent | double_bookings.py:105-123 | None exactly without pairs; otherwise the alert's lines joined with newlines |
| DoubleBookings.PairLinesAt | double_bookings.py:111-121 | five lines per pair, in order |
| DoubleBookings.EmailShape | double_bookings.py:109-121 | the header and a blank line, then each pair's five lines in order |
| RepeatGuests.GuestVisitOf | repeat_guests.py:28-49 | a visit read belongs to the file's home and does not end before it starts |
| RepeatGuests.VisitAccepted | repeat_guests.py:25-49 | a line is a visit exactly when listed, four fields, both dates parse in order; the visit is the guest with home and dates |
| RepeatGuests.KeysOfSnoc | repeat_guests.py:45 | a new guest is added to the key order at the end |
| RepeatGuests.AddVisit | repeat_guests.py:45-49 | one visit is appended to its guest's list |
| RepeatGuests.ReadVisits | repeat_guests.py:28-49 | the inner loop appends the file's visits |
| RepeatGuests.CollectGuestVisits | repeat_guests.py:19-51 | collect_guest_visits: each guest's visits in file and line order, guests in order of first visit |
| RepeatGuests.GuestVisitsLookup | repeat_guests.py:19-51 | a guest has a list exactly when they have a visit, holding each visit once per line |
| RepeatGuests.GuestKeys | repeat_guests.py:45 | a guest's list is non-empty exactly when they have a visit |
| RepeatGuests.GuestLines | repeat_guests.py:75-79 | one guest's lines as specified |
| RepeatGuests.BlocksStep | repeat_guests.py:74-79 | one more guest adds their block |
| RepeatGuests.RepeatListing | repeat_guests.py:58-81 | the text main writes: the notice, or the count line and the guests' blocks |
| RepeatGuests.RepeatMembers | repeat_guests.py:58-59 | the guests listed are exactly those with more than one visit |
| RepeatGuests.GuestOrderStrict | repeat_guests.py:68-69 | guests listed by visit count, most first, then by name, each once |
| RepeatGuests.DistinctFilter | repeat_guests.py:58-59 | the repeat guests are distinct |
| RepeatGuests.DistinctAfterSort | repeat_guests.py:68-69 | sorting distinct guests keeps them distinct |
| RepeatGuests.DistinctCount | repeat_guests.py:58 | a distinct list holds each guest at most once |
| RepeatGuests.GuestKeysDistinct | repeat_guests.py:21-51 | the key order names each guest with a visit exactly once |
| RepeatGuests.VisitsByStart | repeat_guests.py:77 | each guest's visits are listed by start date, every one |
| RepeatGuests.ListingNotice | repeat_guests.py:61-65 | the notice alone exactly when there is no repeat guest |
| RepeatGuests.ListingHeader | repeat_guests.py:71-72 | with repeat guests the text starts with the count line |
| DailyUpdate.ReadEvents | daily_update.py:28-44 | the inner loop appends the file's arrivals and departures |
| DailyUpdate.ReadEntry | daily_update.py:20-44 | one listing entry adds the lines of a .txt file and nothing otherwise |
| DailyUpdate.GatherEvents | daily_update.py:19-46 | the listing loop gathers every .txt file's arrivals and departures in listing order |
| DailyUpdate.GetTodaysEvents | daily_update.py:11-48 | get_todays_events: both lists gathered and sorted |
| DailyUpdate.EventsExactly | daily_update.py:29-44 | a line arrives (departs) today exactly when listed, four fields, and its stripped field 2 (3) is today as DD.MM.YY |
| DailyUpdate.LongDateNeverMatches | daily_update.py:40-43 | a date written with four year digits never equals today's DD.MM.YY |
| DailyUpdate.TodaysEventsSorted | daily_update.py:48 | both lists sorted by name, one entry per matching line |
| DailyUpdate.ArrivingHomes | daily_update.py:19-48 | a home is arriving exactly when one of its lines arrives today |
| DailyUpdate.DepartingHomes | daily_update.py:19-48 | a home is departing exactly when one of its lines departs today |
| DailyUpdate.SectionLines | daily_update.py:60-64 | a section: "- home" per home or "-" alone |
| DailyUpdate.GenerateEmail | daily_update.py:50-75 | subject "Daily"; the text is the departures then arrivals sections |
| DailyUpdate.EmailShape | daily_update.py:57-75 | "Departures", one line per home or "-", a blank line, "Arrivals", one line per home or "-" |
| BookingsOverview.RelevantByDays | bookings_overview.py:28-36 | is_relevant_booking in whole days: at midnight a booking is relevant when it arrives yesterday or later or leaves today or later; at any later moment when it arrives today or later or leaves after today |
| BookingsOverview.FormatBookingFails | bookings_overview.py:14-20 | format_booking raises exactly when a date field as written is not DD.MM.YY or the party is not three integers |
| BookingsOverview.FormatBookingOf | bookings_overview.py:14-26 | the formatted booking: both dates with weekday, the guest, adults, kids and babies only when positive |
| BookingsOverview.FormattedStartDate | utils.py:92-97 | order_by_date reads the arrival back from a formatted booking |
| BookingsOverview.FileBookingsExactly | bookings_overview.py:50-66 | a file fails exactly when one of its lines raises; otherwise its bookings are its listed lines' texts in order |
| BookingsOverview.RaisesStays | bookings_overview.py:49-69 | a line that raises makes the whole file fail |
| BookingsOverview.ReadBookings | bookings_overview.py:50-63 | the loop over one file, stopping at the first line that raises |
| BookingsOverview.ReadHome | bookings_overview.py:43-69 | one home's block and failure as specified |
| BookingsOverview.GenerateEmail | bookings_overview.py:38-74 | generate_email: the blocks in home order joined by blank lines, and the failed homes |
| BookingsOverview.HomeOutcome | bookings_overview.py:46-69 | a home has a block exactly when its file exists, reads and has a relevant booking; it fails exactly when a line raises; never both |
| BookingsOverview.EmptyMail | bookings_overview.py:74 | the mail is empty exactly when no home has a block |
| BookingsOverview.LineNotRelevant | bookings_overview.py:57-63 | a booking line that is not relevant is skipped |
| BookingsOverview.LineRelevant | bookings_overview.py:57-63 | a relevant line is shown formatted; with an unreadable party it raises |
| Utils.AddAddresses | utils.py:30-42 | the name table holds the homes and the pairs' names, each with its address appended when it has one |
| Utils.GetFewoName | utils.py:27-45 | get_fewo_name as specified (None where the lookup raises KeyError) |
| Utils.AddressOfListed | utils.py:40-42 | an address comes from one of the pairs |
| Utils.DisplayNameListed | utils.py:27-45 | exactly the listed homes have a display name |
| Utils.DisplayNames | utils.py:27-45 | the eight Jebensweg homes show as the calendar's home names, the others as themselves |
| Utils.JebenswegHomes | utils.py:32-42 | name + " " + house number is the calendar's name for seven of them ("Wolke 7" is the special case) |
| Utils.AddressOfAt | utils.py:40-42 | with distinct names each pair gives its name its own address |
| Utils.NotOnJebensweg | utils.py:30-42 | the other homes get no address |
| Utils.RecipientsTrimmed | utils.py:61 | recipients are non-empty and stripped |
| Utils.TrimmedKeeps | utils.py:61 | clean addresses pass through unchanged |
| Utils.MainRecipients | utils.py:51-52 | a comma-separated list of clean addresses in EMAIL_RECIPIENTS_MAIN gives exactly those addresses |
| Utils.RecipientMembers | utils.py:49-61 | an address is a recipient exactly when it is some entry stripped and non-empty |
| Utils.UnknownCategory | utils.py:59-60 | other categories have no recipients |
| Utils.OrderByDateCorrect | utils.py:92-97 | order_by_date: same bookings, none starting before the previous one, same-day bookings in input order |
| Utils.PrependWeekdayOfDate | utils.py:100-106 | the prefix is the date's German weekday abbreviation and a space |
| Utils.StartDateOfPrepended | utils.py:94-96 | order_by_date reads back the date prepend_weekday wrote in front of a line |
| Utils.SecondToken | utils.py:95 | the second space-separated token of "w f…" is f |
| Utils.FormatShortNoSpace | utils.py:95 | a DD.MM.YY date holds no blank |
| Utils.AppendNamed | utils.py:119-122 | the inner loop appends the blocks of one home, in order |
| Utils.ArrangeBlocks | utils.py:118-122 | the outer loop arranges the blocks home by home in the preferred order |
| Utils.OrderEmail | utils.py:109-125 | order_email: the arranged blocks joined with blank lines |
| Utils.PreferredDistinct | utils.py:111-112 | the preferred order names each home once |
| Utils.ArrangedMembers | utils.py:118-122 | a block is kept exactly when its first line is a preferred home |
| Utils.NamedTwice | utils.py:120-121 | picking one home's blocks again by the same home changes nothing; by another home leaves nothing |
| Utils.ArrangedKeepsOrder | utils.py:118-122 | each preferred home's blocks are kept in input order; others are dropped |
| Utils.ArrangedNamedStep | utils.py:118-122 | one more preferred home keeps every home's blocks in order |
| Utils.ArrangedGrouped | utils.py:118-122 | the output's homes come in the preferred order |
| Utils.GroupedAppend | utils.py:118-122 | a later home's blocks after the earlier ones stay grouped |
| Utils.FormatBookingOf | utils.py:128-134 | ten fields with a clean party give the eight labelled fields, which split back on "\|" |
| Utils.SplitPersons | utils.py:132 | "a / b / c" splits on " / " into a, b and c |
| Utils.LabelledClean | utils.py:133 | the labelled fields hold no "\|" |
| Scrape.IsFutureByDays | scrape_booking_overviews.py:20-22 | is_future raises exactly when strptime does; otherwise the date is from yesterday on at midnight, from today on later |
| Scrape.IsFutureOfFormatted | scrape_booking_overviews.py:20-22 | a DD.MM.YY date is future by the same day rule |
| Scrape.IndexOf | scrape_booking_overviews.py:26 | list.index: the first position, None exactly when absent |
| Scrape.PositionsStep | scrape_booking_overviews.py:32-34 | one more span adds its position exactly when it is a reservation number |
| Scrape.PickRow | scrape_booking_overviews.py:39-42 | the inner loop picks the nine spans at idx, idx + 2, …, idx + 16 |
| Scrape.ResNumberPositions | scrape_booking_overviews.py:31-34 | the first fallback loop finds the reservation-number positions in order |
| Scrape.RowsAt | scrape_booking_overviews.py:36-44 | the second loop keeps a row for each position with room for it |
| Scrape.ParseBookingRows | scrape_booking_overviews.py:24-46 | parse_booking_rows: the main path when "Einnahmen" occurs, otherwise the fallback |
| Scrape.ChunksAt | scrape_booking_overviews.py:28 | chunk i is spans[9i:9i+9], and there are ceil(n/9) of them |
| Scrape.ChunksConcat | scrape_booking_overviews.py:28 | the chunks in order give the spans back |
| Scrape.MainRowsCover | scrape_booking_overviews.py:25-28 | the rows in order are the kept middle spans; every row has 1 to 9 spans and all but the last exactly 9 |
| Scrape.MainRowsKeep | scrape_booking_overviews.py:27 | a span is in a row exactly when it is in the middle stretch, not blank and without "Storno" |
| Scrape.PositionsExactly | scrape_booking_overviews.py:32-34 | the positions are exactly those satisfying the test, increasing |
| Scrape.FromPositions | scrape_booking_overviews.py:37-44 | the rows come from the positions that pass |
| Scrape.FallbackRowsExactly | scrape_booking_overviews.py:30-46 | a fallback row has nine spans and is exactly the spans at idx, idx + 2, … for a reservation number with idx + 16 in range |
| Scrape.MarkerFrom | scrape_booking_overviews.py:58-61 | the marker found is in the window and is a marker; none means no marker there |
| Scrape.HeaderEnd | scrape_booking_overviews.py:56-61 | a header skips at least itself and stays in range |
| Scrape.HeaderStep | scrape_booking_overviews.py:53-61 | at a header the filter resumes after the first marker of its window, or at the next span |
| Scrape.PlainStep | scrape_booking_overviews.py:62-63 | a span that is not a header is kept |
| Scrape.FindPageMarker | scrape_booking_overviews.py:58-61 | the inner loop finds the first marker in the ten-span window |
| Scrape.FilterPageHeaders | scrape_booking_overviews.py:48-65 | filter_page_headers as specified |
| Scrape.PlainRun | scrape_booking_overviews.py:52-63 | a stretch without headers is kept as it is |
| Scrape.NoHeaders | scrape_booking_overviews.py:48-65 | spans without any header come through unchanged |
| Scrape.HeadersGone | scrape_booking_overviews.py:48-65 | no kept span starts a header; the kept spans are some of the spans |
| Scrape.MarkerShift | scrape_booking_overviews.py:58-61 | the marker search does not depend on earlier spans |
| Scrape.HeaderEndShift | scrape_booking_overviews.py:56-61 | nor does where a header's skip ends |
| Scrape.HeadersShift | scrape_booking_overviews.py:48-65 | nor does the filter |
| Scrape.MarkerFirst | scrape_booking_overviews.py:58-61 | the first marker in the window is the one found |
| Scrape.PageDropped | scrape_booking_overviews.py:48-65 | a page header ending at its first marker is dropped and nothing else |
| Scrape.SavedAllAbsent | scrape_booking_overviews.py:86-100 | saving leaves the home without a file only when it had none before |
| Scrape.SavedAllLines | scrape_booking_overviews.py:86-121 | after a home's pages the file holds one line per row of all pages, after a blank line when the first page had none |
| Scrape.SavedFirstLines | scrape_booking_overviews.py:87-100 | the first page overwrites the file with its rows' lines |
| Scrape.SavedNextLines | scrape_booking_overviews.py:87-92 | a later page appends its rows' lines |
| Scrape.FileReadsBack | scrape_booking_overviews.py:86-100 | the saved file splits into the rows' lines, and each line splits back into its row |
| Scrape.AfterHomeStep | scrape_booking_overviews.py:118-121 | one more URL of a home is scraped with append mode after the first |
| Scrape.OverviewFiles.ScrapeFewo | scrape_booking_overviews.py:67-101 | scrape_fewo on one page's spans: the files after writing its rows |
| Scrape.OverviewFiles.ScrapeHome | scrape_booking_overviews.py:112-121 | main's loop over one home's non-blank URLs: the first overwrites, the rest append |
| Scrape.UnknownHomeUntouched | scrape_booking_overviews.py:82-105 | a home without a display name changes no file |
| Scrape.HomeFile | scrape_booking_overviews.py:82-100 | a home with a display name changes only its file, to the saved content of its pages |
| Scrape.StoreTwice | scrape_booking_overviews.py:89-95 | saving over a stored file is storing once |
| Scrape.HomeFileLines | scrape_booking_overviews.py:67-121 | after scraping a home its file holds one line per row of all pages, each line splitting back into its row |

## Left out

- The browser and Selenium: the spans of each page are parameters. Sleeps, prints,
  `print(rows)` and the `"Res.-Nr."` test in the exception handler (it does
  nothing) are left out.
- `urls_config` and the outer loop of the scraper over `FEWOS`: one home's URLs
  are a parameter (`Scrape.OverviewFiles.ScrapeHome`). A URL given as a single
  string is taken as a one-element list.
- An exception inside `scrape_fewo` other than a failing name lookup (browser
  errors, file errors) is not modelled. A name lookup that raises leaves the
  files unchanged.
- The files, the directory listings, JSON, the environment and the clock are
  parameters. `sorted(SRC.glob("*.txt"))` is a given list of files, and
  `os.listdir` a given listing in its own order.
- A file that cannot be read or decoded is not modelled, except the missing
  file. The per-file `except Exception` of the report scripts therefore only
  matters where a parse raises.
- SMTP, `send_email`, `error_email` and `main`'s sending loops are left out, as
  are the text of `str(e)` in error messages and `add_vpartner_links` (it
  appends fixed administration URLs from `urls_config`).
- The HTML, CSS and JavaScript of the pages and of the password gate are left
  out: the page bodies are modelled as lists of lines or marks, not as HTML
  strings. `html.escape` is not modelled.
- The month grid, the day grid, the today marker, the auto refresh and the
  scroll script of `render` are fixed decoration and are left out. The label
  width `label_w` (floating point) is left out. The home-name label uses the
  same `Layout.Ellipsize`.
- `hashlib.sha256` is a parameter `digest` of `Password.ToSha256Hex`.
  `load_password_hash_hex` (environment and file lookup) is left out.
- `strftime("%A")` is taken in the C locale; `strftime("%b %Y")` is not used by
  any modelled part.
- `str.isdigit`, and the digits of strptime's `%d`, `%m`, `%y` and `%Y`, are
  modelled for ASCII digits only (`Dates.DayField`, `Dates.MonthField`,
  `Dates.YearField`). Other Unicode digits count as non-digits. `str.strip()` removes Python's whole whitespace set
  (`Text.IsSpace`).
- `Text.ParseInt`: `int()` also accepts underscores between digits
  (`int("1_0") == 10`) and non-ASCII decimal digits. The model reads such text
  as no number. This reaches `CalendarInput.PeopleCounts`,
  `BookingsOverview.ThreePeople`, `Reports.GuestCount` and the stay length in
  `Upcoming.ArrivalOf`.
- `Dates.IsoParse`: a date is read only from a string that is wholly one of the
  six forms YYYY-MM-DD, YYYYMMDD, YYYY-Www, YYYY-Www-D, YYYYWww and YYYYWwwD.
  The model does not follow CPython's parser on a string of ten UTF-8 bytes that
  starts with a dashless form and has two more characters after it. The model
  reads such a string as no date. The program never writes one.
- `date` arithmetic that would leave years 1 to 9999 raises `OverflowError` in
  Python. The model requires the clock date to lie in years 2 to 9998, where no
  computation leaves the range.
- `Dates.ParseShortDate`: `%y` maps 69 to 99 onto 1969 to 1999 and 00 to 68
  onto 2000 to 2068, as Python does. The DD.MM.YY round-trip lemmas therefore
  require years 1969 to 2068.
- `BookingsOverview.Block`: `'\n'.join(bookings)` inside an f-string is modelled
  as the same text. The f-string syntax itself needs Python 3.12, which is not a
  property of the model.
- `Sorting.SortByCorrect`: `sorted` is modelled by one stable insertion sort over
  a composite key. Only its results are modelled, not Python's algorithm.
