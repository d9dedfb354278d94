/** The helpers shared by the e-mail scripts: display names of the homes,
    recipient lists, the weekday prefix of a date, sorting formatted bookings
    by their start date, putting the home blocks of an e-mail in the preferred
    order, and reformatting an overview line. */
module Utils {
  import opened Wrappers
  import opened Text
  import opened Dates
  import opened Lists
  import opened Sorting
  import opened CalendarInput
  import opened Reports

  // ---------------------------------------------------------------------
  // get_fewo_name
  // ---------------------------------------------------------------------

  /** The technical names of the homes. */
  const Fewos: seq<string> := [
    "Sonnenwende", "Dämmerlicht", "Regenbogen", "Wolke 7", "Küstenzauber", "Strandliebe",
    "Wellengang", "Lüdde Wattwurm", "Kl. Austernfischer", "Austernfischer", "Dat Lütte Huus1",
    "Dat Lütte Huus2", "Lütte Stuuv", "Groote Stuuv", "Fischers Huus", "Michels Koje",
    "Fietes Kajüte", "Fietes Lütte Huus", "Bös Lütte Stuuv"]

  /** The homes on the Jebensweg with their house numbers. */
  const Jebensweg: seq<(string, string)> := [
    ("Sonnenwende", "2a"), ("Dämmerlicht", "2b"), ("Regenbogen", "2c"), ("Wolke 7", "2d"),
    ("Küstenzauber", "4a"), ("Strandliebe", "4b"), ("Wellengang", "4c"), ("Lüdde Wattwurm", "4d")]

  /** The address the pairs give a name; a later pair overrides an earlier
      one, as repeated dictionary assignments do. */
  function AddressOf(name: string, pairs: seq<(string, string)>): Option<string> {
    if pairs == [] then None
    else if pairs[|pairs| - 1].0 == name then Some(pairs[|pairs| - 1].1)
    else AddressOf(name, pairs[..|pairs| - 1])
  }

  function WithAddress(name: string, pairs: seq<(string, string)>): string {
    match AddressOf(name, pairs)
    case Some(a) => name + " " + a
    case None => name
  }

  /** The display name of a home; None where the lookup raises KeyError. */
  function DisplayName(fewo: string): Option<string> {
    if fewo == "Wolke 7" then Some("Wolke7 2d")
    else if fewo in Fewos || AddressOf(fewo, Jebensweg).Some? then Some(WithAddress(fewo, Jebensweg))
    else None
  }

  /** The loop of get_fewo_name that gives the homes in the pairs their
      address, starting from every home mapped to itself. */
  method AddAddresses(names: map<string, string>, homes: seq<string>, pairs: seq<(string, string)>)
    returns (names': map<string, string>)
    requires forall f :: f in names <==> f in homes
    requires forall f :: f in names ==> names[f] == f
    ensures forall f :: f in names' <==> f in homes || AddressOf(f, pairs).Some?
    ensures forall f :: f in names' ==> names'[f] == WithAddress(f, pairs)
  {
    names' := names;
    var i := 0;
    while i < |pairs|
      invariant 0 <= i <= |pairs|
      invariant forall f :: f in names' <==> f in homes || AddressOf(f, pairs[..i]).Some?
      invariant forall f :: f in names' ==> names'[f] == WithAddress(f, pairs[..i])
    {
      var (n, address) := pairs[i];
      assert pairs[..i + 1][..i] == pairs[..i];
      names' := names'[n := n + " " + address];
      i := i + 1;
    }
    assert pairs[..i] == pairs;
  }

  /** get_fewo_name: builds the name table (every home to itself, the
      Jebensweg homes with their address, the Wolke 7 special case) and looks
      the home up. */
  method GetFewoName(fewo: string) returns (name: Option<string>)
    ensures name == DisplayName(fewo)
  {
    var names: map<string, string> := map f | f in Fewos :: f;
    names := AddAddresses(names, Fewos, Jebensweg);
    names := names["Wolke 7" := "Wolke7 2d"];
    if fewo in names {
      name := Some(names[fewo]);
    } else {
      name := None;
    }
  }

  /** A name found in the pairs is one of the pairs' names. */
  lemma {:induction false} AddressOfListed(name: string, pairs: seq<(string, string)>)
    requires AddressOf(name, pairs).Some?
    ensures exists i :: 0 <= i < |pairs| && pairs[i].0 == name
  {
    if pairs[|pairs| - 1].0 != name {
      AddressOfListed(name, pairs[..|pairs| - 1]);
      var i :| 0 <= i < |pairs| - 1 && pairs[..|pairs| - 1][i].0 == name;
      assert pairs[i].0 == name;
    }
  }

  /** Exactly the listed homes have a display name. */
  lemma DisplayNameListed(fewo: string)
    ensures DisplayName(fewo).Some? <==> fewo in Fewos
  {
    if AddressOf(fewo, Jebensweg).Some? {
      AddressOfListed(fewo, Jebensweg);
      var i :| 0 <= i < |Jebensweg| && Jebensweg[i].0 == fewo;
      assert Jebensweg[i].0 == Fewos[i];
    }
  }

  /** The eight Jebensweg homes show as the overview names with their house
      numbers ("Wolke7 2d" for Wolke 7); every other home keeps its name. */
  lemma DisplayNames()
    ensures forall i :: 0 <= i < 8 ==> DisplayName(Fewos[i]) == Some(HomesOrder[i])
    ensures forall i :: 8 <= i < |Fewos| ==> DisplayName(Fewos[i]) == Some(Fewos[i])
  {
    forall i | 0 <= i < 8 ensures DisplayName(Fewos[i]) == Some(HomesOrder[i]) {
      assert Jebensweg[i].0 == Fewos[i];
      AddressOfAt(Jebensweg, i);
      JebenswegHomes();
    }
    forall i | 8 <= i < |Fewos| ensures AddressOf(Fewos[i], Jebensweg) == None {
      NotOnJebensweg(i);
    }
  }

  lemma JebenswegHomes()
    ensures forall i :: 0 <= i < 8 && i != 3 ==> Fewos[i] + " " + Jebensweg[i].1 == HomesOrder[i]
  {
    assert Fewos[0] + " " + Jebensweg[0].1 == HomesOrder[0];
    assert Fewos[1] + " " + Jebensweg[1].1 == HomesOrder[1];
    assert Fewos[2] + " " + Jebensweg[2].1 == HomesOrder[2];
    assert Fewos[4] + " " + Jebensweg[4].1 == HomesOrder[4];
    assert Fewos[5] + " " + Jebensweg[5].1 == HomesOrder[5];
    assert Fewos[6] + " " + Jebensweg[6].1 == HomesOrder[6];
    assert Fewos[7] + " " + Jebensweg[7].1 == HomesOrder[7];
  }

  /** With distinct names, each pair gives its own name its address. */
  lemma {:induction false} AddressOfAt(pairs: seq<(string, string)>, i: nat)
    requires i < |pairs|
    requires forall j, k :: 0 <= j < k < |pairs| ==> pairs[j].0 != pairs[k].0
    ensures AddressOf(pairs[i].0, pairs) == Some(pairs[i].1)
  {
    if i < |pairs| - 1 {
      AddressOfAt(pairs[..|pairs| - 1], i);
    }
  }

  lemma NotOnJebensweg(k: nat)
    requires 8 <= k < |Fewos|
    ensures AddressOf(Fewos[k], Jebensweg) == None
  {
    if AddressOf(Fewos[k], Jebensweg).Some? {
      AddressOfListed(Fewos[k], Jebensweg);
      var j :| 0 <= j < |Jebensweg| && Jebensweg[j].0 == Fewos[k];
      if k < 13 {
        assert Fewos[k] == Fewos[8..13][k - 8];
        OthersFirst(j);
      } else {
        assert Fewos[k] == Fewos[13..][k - 13];
        OthersLast(j);
      }
    }
  }

  lemma OthersFirst(j: nat)
    requires j < |Jebensweg|
    ensures Jebensweg[j].0 !in Fewos[8..13]
  {
  }

  lemma OthersLast(j: nat)
    requires j < |Jebensweg|
    ensures Jebensweg[j].0 !in Fewos[13..]
  {
  }

  // ---------------------------------------------------------------------
  // get_email_recipients
  // ---------------------------------------------------------------------

  /** os.environ.get(key, ""). */
  function Env(env: map<string, string>, key: string): string {
    if key in env then env[key] else ""
  }

  /** r.strip() when it is not empty. */
  function Trimmed(r: string): Option<string> {
    if Strip(r) != "" then Some(Strip(r)) else None
  }

  /** The raw recipient entries of a category: the comma pieces of the
      variable for "main" and "cleaning", the variable itself for "test" and
      "errors", nothing for any other category. */
  function Entries(category: string, env: map<string, string>): seq<string> {
    if category == "main" then Split(Env(env, "EMAIL_RECIPIENTS_MAIN"), ",")
    else if category == "cleaning" then Split(Env(env, "EMAIL_RECIPIENT_CLEANING"), ",")
    else if category == "test" then [Env(env, "EMAIL_RECIPIENT_TEST")]
    else if category == "errors" then [Env(env, "EMAIL_RECIPIENT_ERRORS")]
    else []
  }

  /** get_email_recipients: the entries trimmed, empty ones dropped. */
  function EmailRecipients(category: string, env: map<string, string>): seq<string> {
    FilterMap(Trimmed, Entries(category, env))
  }

  /** Every recipient is non-empty and has no surrounding whitespace. */
  lemma RecipientsTrimmed(category: string, env: map<string, string>)
    ensures forall i :: 0 <= i < |EmailRecipients(category, env)| ==>
      EmailRecipients(category, env)[i] != "" && Strip(EmailRecipients(category, env)[i]) == EmailRecipients(category, env)[i]
  {
    forall r ensures Trimmed(r).Some? ==> Trimmed(r).value != "" && Strip(Trimmed(r).value) == Trimmed(r).value {
      StripIdempotent(r);
    }
    FilterMapAll(Trimmed, Entries(category, env), (x: string) => x != "" && Strip(x) == x);
  }

  /** Clean addresses pass through unchanged. */
  lemma {:induction false} TrimmedKeeps(names: seq<string>)
    requires forall i :: 0 <= i < |names| ==> names[i] != "" && Strip(names[i]) == names[i]
    ensures FilterMap(Trimmed, names) == names
  {
    if names != [] {
      TrimmedKeeps(names[..|names| - 1]);
      Snoc(names);
    }
  }

  /** A comma-separated list of clean addresses in EMAIL_RECIPIENTS_MAIN
      gives back exactly those addresses, in order. */
  lemma MainRecipients(names: seq<string>, env: map<string, string>)
    requires |names| >= 1
    requires forall i :: 0 <= i < |names| ==> names[i] != "" && Strip(names[i]) == names[i] && ',' !in names[i]
    ensures EmailRecipients("main", env["EMAIL_RECIPIENTS_MAIN" := Join(names, ",")]) == names
  {
    SplitJoin(names, ",");
    TrimmedKeeps(names);
  }

  /** An address is a recipient exactly when it is a non-empty entry once
      trimmed. */
  lemma RecipientMembers(category: string, env: map<string, string>, r: string)
    ensures r in EmailRecipients(category, env) <==>
      r != "" && exists p :: p in Entries(category, env) && Strip(p) == r
  {
    FilterMapMembers(Trimmed, Entries(category, env), r);
  }

  /** Categories other than the four have no recipients. */
  lemma UnknownCategory(category: string, env: map<string, string>)
    requires category !in {"main", "cleaning", "test", "errors"}
    ensures EmailRecipients(category, env) == []
  {
  }

  // ---------------------------------------------------------------------
  // prepend_weekday and order_by_date
  // ---------------------------------------------------------------------

  /** prepend_weekday: the German weekday abbreviation, a space and the date
      string unchanged; None where strptime(date, "%d.%m.%y") raises (no
      whitespace is skipped). */
  function PrependWeekday(date: string): Option<string> {
    match Strptime(date, false)
    case Some(d) => Some(WeekdayAbbrev(d) + " " + date)
    case None => None
  }

  /** The start date of a formatted booking: the second space-separated token
      of its first element, stripped and read as DD.MM.YY; None where
      order_by_start_date raises. */
  function StartDate(booking: seq<string>): Option<Day> {
    if booking == [] then None
    else
      var tokens := Split(booking[0], " ");
      if |tokens| < 2 then None else ParseShortDate(tokens[1])
  }

  function DateKey(): seq<string> -> Key {
    b => Key(match StartDate(b) case Some(d) => DateRank(d) case None => 0, "", 0, 0)
  }

  predicate AllDated(bookings: seq<seq<string>>) {
    forall i :: 0 <= i < |bookings| ==> StartDate(bookings[i]).Some?
  }

  /** order_by_date: sorted() by start date; None when a start date cannot be
      read (sorted raises and the list is lost). */
  function OrderByDate(bookings: seq<seq<string>>): Option<seq<seq<string>>> {
    if AllDated(bookings) then Some(SortBy(bookings, DateKey())) else None
  }

  /** The sorted list holds the same bookings, no booking starts before one
      ahead of it, and bookings starting the same day keep their order. */
  lemma OrderByDateCorrect(bookings: seq<seq<string>>)
    requires AllDated(bookings)
    ensures var r := OrderByDate(bookings).value;
      && multiset(r) == multiset(bookings)
      && AllDated(r)
      && (forall i, j :: 0 <= i < j < |r| ==> !Before(StartDate(r[j]).value, StartDate(r[i]).value))
      && (forall k :: Ties(r, DateKey(), k) == Ties(bookings, DateKey(), k))
  {
    var r := SortBy(bookings, DateKey());
    SortByCorrect(bookings, DateKey());
    forall i | 0 <= i < |r| ensures StartDate(r[i]).Some? {
      assert r[i] in multiset(bookings);
    }
    forall i, j | 0 <= i < j < |r| ensures !Before(StartDate(r[j]).value, StartDate(r[i]).value) {
      assert KeyLe(DateKey()(r[i]), DateKey()(r[j]));
      DateRankOrder(StartDate(r[j]).value, StartDate(r[i]).value);
    }
  }

  /** The prefix written for a date is its three-letter weekday and a space,
      followed by the date as given. */
  lemma PrependWeekdayOfDate(d: Day)
    requires 1969 <= d.year <= 2068
    ensures PrependWeekday(FormatShort(d)) == Some(WeekdayAbbrev(d) + " " + FormatShort(d))
  {
    StrptimeFormatShort(d);
  }

  /** order_by_date reads back the date prepend_weekday wrote in front of a
      booking line, whatever follows it after a space. */
  lemma StartDateOfPrepended(d: Day, line: string, more: seq<string>)
    requires 1969 <= d.year <= 2068
    requires var head := WeekdayAbbrev(d) + " " + FormatShort(d);
      head <= line && (|line| == |head| || line[|head|] == ' ')
    ensures StartDate([line] + more) == Some(d)
  {
    var head := WeekdayAbbrev(d) + " " + FormatShort(d);
    var rest := line[|head|..];
    assert line == head + rest;
    assert ' ' !in WeekdayAbbrev(d);
    FormatShortNoSpace(d);
    SecondToken(WeekdayAbbrev(d), FormatShort(d), rest);
    StrptimeFormatShort(d);
    StripNoSpaceEnds(FormatShort(d));
  }

  /** The second space-separated token of "w f..." is f. */
  lemma SecondToken(w: string, f: string, rest: string)
    requires ' ' !in w && ' ' !in f
    requires rest == [] || rest[0] == ' '
    ensures |Split(w + " " + f + rest, " ")| >= 2 && Split(w + " " + f + rest, " ")[1] == f
  {
    assert w + " " + f + rest == w + " " + (f + rest);
    SplitFront(w, f + rest, " ");
    if rest == [] {
      IndexFromAbsent(f, " ", 0);
      assert f + rest == f;
    } else {
      assert f + rest == f + " " + rest[1..];
      SplitFront(f, rest[1..], " ");
    }
  }

  lemma FormatShortNoSpace(d: Day)
    ensures ' ' !in FormatShort(d)
    ensures |FormatShort(d)| > 0 && !IsSpace(FormatShort(d)[0]) && !IsSpace(FormatShort(d)[|FormatShort(d)| - 1])
  {
    ZeroPadNoChar(d.day, 2, ' ');
    ZeroPadNoChar(d.month, 2, ' ');
    ZeroPadNoChar(d.year % 100, 2, ' ');
    TwoDigitField(d.day);
    TwoDigitField(d.year % 100);
    assert FormatShort(d)[0] == ZeroPad(d.day, 2)[0];
    assert FormatShort(d)[|FormatShort(d)| - 1] == ZeroPad(d.year % 100, 2)[1];
  }

  // ---------------------------------------------------------------------
  // order_email
  // ---------------------------------------------------------------------

  /** The homes in the order the e-mails list them. */
  const PreferredOrder: seq<string> := [
    "Sonnenwende", "Dämmerlicht", "Regenbogen", "Wolke 7", "Küstenzauber", "Strandliebe",
    "Wellengang", "Lüdde Wattwurm", "Kl. Austernfischer", "Austernfischer", "Doras & Hannes Hus",
    "Dat Lütte Huus1", "Dat Lütte Huus2", "Lütte Stuuv", "Groote Stuuv"]

  /** The home a block is about: its first line. */
  function FirstLine(block: string): string {
    Split(block, "\n")[0]
  }

  function NameIs(name: string): string -> Option<string> {
    b => if FirstLine(b) == name then Some(b) else None
  }

  /** The blocks about one home, in their order. */
  function Named(blocks: seq<string>, name: string): seq<string> {
    FilterMap(NameIs(name), blocks)
  }

  /** The blocks of each preferred home in turn. */
  function Arranged(preferred: seq<string>, blocks: seq<string>): seq<string> {
    if preferred == [] then []
    else Arranged(preferred[..|preferred| - 1], blocks) + Named(blocks, preferred[|preferred| - 1])
  }

  /** The blocks about one home, appended one by one. */
  method AppendNamed(ghost done: seq<string>, ordered: seq<string>, blocks: seq<string>, name: string)
    returns (ordered': seq<string>)
    requires ordered == done
    ensures ordered' == done + Named(blocks, name)
  {
    ordered' := ordered;
    var j := 0;
    while j < |blocks|
      invariant 0 <= j <= |blocks|
      invariant ordered' == done + Named(blocks[..j], name)
    {
      FilterMapStep(NameIs(name), blocks, j);
      AppendAssoc(done, Named(blocks[..j], name), NameIs(name)(blocks[j]).ToSeq());
      if name == FirstLine(blocks[j]) {
        ordered' := ordered' + [blocks[j]];
      }
      j := j + 1;
    }
    assert blocks[..j] == blocks;
  }

  /** order_email's loop over the preferred homes. */
  method ArrangeBlocks(preferred: seq<string>, blocks: seq<string>) returns (out: seq<string>)
    ensures out == Arranged(preferred, blocks)
  {
    out := [];
    var i := 0;
    while i < |preferred|
      invariant 0 <= i <= |preferred|
      invariant out == Arranged(preferred[..i], blocks)
    {
      assert preferred[..i + 1][..i] == preferred[..i];
      out := AppendNamed(out, out, blocks, preferred[i]);
      i := i + 1;
    }
    assert preferred[..i] == preferred;
  }

  /** order_email: the blocks of the e-mail, separated by blank lines, home
      by home in the preferred order. */
  method OrderEmail(email: string) returns (ordered: string)
    ensures ordered == Join(Arranged(PreferredOrder, Split(email, "\n\n")), "\n\n")
  {
    var blocks := Split(email, "\n\n");
    var out := ArrangeBlocks(PreferredOrder, blocks);
    ordered := Join(out, "\n\n");
  }

  predicate Distinct(s: seq<string>) {
    forall i, j :: 0 <= i < j < |s| ==> s[i] != s[j]
  }

  lemma PreferredDistinct()
    ensures Distinct(PreferredOrder)
  {
  }

  /** A block is kept exactly when its first line is a preferred home. */
  lemma {:induction false} ArrangedMembers(preferred: seq<string>, blocks: seq<string>, b: string)
    ensures b in Arranged(preferred, blocks) <==> b in blocks && FirstLine(b) in preferred
  {
    if preferred != [] {
      var init, last := preferred[..|preferred| - 1], preferred[|preferred| - 1];
      ArrangedMembers(init, blocks, b);
      FilterMapMembers(NameIs(last), blocks, b);
      assert preferred == init + [last];
    }
  }

  /** Taking the blocks of one home twice, or of another home, from the
      blocks of a home. */
  lemma {:induction false} NamedTwice(blocks: seq<string>, p: string, q: string)
    ensures Named(Named(blocks, q), p) == if p == q then Named(blocks, p) else []
  {
    if blocks != [] {
      var init, last := blocks[..|blocks| - 1], blocks[|blocks| - 1];
      NamedTwice(init, p, q);
      FilterMapAppend(NameIs(p), Named(init, q), NameIs(q)(last).ToSeq());
      if FirstLine(last) == q {
        FilterMapSingle(NameIs(p), last);
      }
    }
  }

  /** Within each home the output keeps the input order: the output's
      blocks about a preferred home are that home's blocks of the input, and
      there are none about any other home. */
  lemma {:induction false} ArrangedKeepsOrder(preferred: seq<string>, blocks: seq<string>, p: string)
    requires Distinct(preferred)
    ensures Named(Arranged(preferred, blocks), p) == if p in preferred then Named(blocks, p) else []
  {
    if preferred != [] {
      var init, last := preferred[..|preferred| - 1], preferred[|preferred| - 1];
      DistinctInit(preferred);
      ArrangedKeepsOrder(init, blocks, p);
      assert preferred == init + [last];
      ArrangedNamedStep(init, last, blocks, p);
    }
  }

  /** One more home, not among the earlier ones. */
  lemma ArrangedNamedStep(init: seq<string>, last: string, blocks: seq<string>, p: string)
    requires last !in init
    requires Named(Arranged(init, blocks), p) == if p in init then Named(blocks, p) else []
    ensures Named(Arranged(init + [last], blocks), p) == if p in init + [last] then Named(blocks, p) else []
  {
    assert (init + [last])[..|init|] == init;
    FilterMapAppend(NameIs(p), Arranged(init, blocks), Named(blocks, last));
    NamedTwice(blocks, p, last);
    assert p in init + [last] <==> p in init || p == last;
  }

  /** The position of a name in a list of distinct names. */
  function IndexIn(s: seq<string>, x: string): (k: nat)
    requires x in s
    ensures k < |s| && s[k] == x
  {
    if s[|s| - 1] == x then |s| - 1 else IndexIn(s[..|s| - 1], x)
  }

  /** Every block's home is preferred, and the homes come in the preferred
      order: no block follows one of a later home. */
  predicate Grouped(preferred: seq<string>, r: seq<string>) {
    && (forall i :: 0 <= i < |r| ==> FirstLine(r[i]) in preferred)
    && (forall i, j :: 0 <= i < j < |r| ==>
          IndexIn(preferred, FirstLine(r[i])) <= IndexIn(preferred, FirstLine(r[j])))
  }

  /** The output is grouped by home in the preferred order. */
  lemma {:induction false} ArrangedGrouped(preferred: seq<string>, blocks: seq<string>)
    requires Distinct(preferred)
    ensures Grouped(preferred, Arranged(preferred, blocks))
  {
    if preferred != [] {
      var init, last := preferred[..|preferred| - 1], preferred[|preferred| - 1];
      DistinctInit(preferred);
      ArrangedGrouped(init, blocks);
      FilterMapAll(NameIs(last), blocks, (b: string) => FirstLine(b) == last);
      GroupedAppend(preferred, Arranged(init, blocks), Named(blocks, last));
    }
  }

  /** Blocks grouped over all but the last home, followed by blocks of the
      last home, are grouped. */
  lemma GroupedAppend(preferred: seq<string>, a: seq<string>, n: seq<string>)
    requires preferred != [] && Distinct(preferred)
    requires Grouped(preferred[..|preferred| - 1], a)
    requires forall k :: 0 <= k < |n| ==> FirstLine(n[k]) == preferred[|preferred| - 1]
    ensures Grouped(preferred, a + n)
  {
    var init, last := preferred[..|preferred| - 1], preferred[|preferred| - 1];
    var r := a + n;
    forall i | 0 <= i < |a| ensures FirstLine(a[i]) in preferred && IndexIn(preferred, FirstLine(a[i])) == IndexIn(init, FirstLine(a[i])) {
      IndexInInit(preferred, FirstLine(a[i]));
    }
    assert IndexIn(preferred, last) == |init|;
    forall i, j | 0 <= i < j < |r|
      ensures IndexIn(preferred, FirstLine(r[i])) <= IndexIn(preferred, FirstLine(r[j]))
    {
      if j < |a| {
        assert r[i] == a[i] && r[j] == a[j];
      } else if i < |a| {
        assert r[i] == a[i] && r[j] == n[j - |a|];
      } else {
        assert r[i] == n[i - |a|] && r[j] == n[j - |a|];
      }
    }
  }

  lemma DistinctInit(s: seq<string>)
    requires s != [] && Distinct(s)
    ensures Distinct(s[..|s| - 1]) && s[|s| - 1] !in s[..|s| - 1]
  {
  }

  /** Before the last name, positions are those of the shorter list. */
  lemma IndexInInit(s: seq<string>, x: string)
    requires s != [] && Distinct(s) && x in s[..|s| - 1]
    ensures x in s && IndexIn(s, x) == IndexIn(s[..|s| - 1], x) < |s| - 1
  {
    DistinctInit(s);
  }

  // ---------------------------------------------------------------------
  // format_booking
  // ---------------------------------------------------------------------

  /** format_booking: an overview line of exactly ten "|"-fields whose
      persons field is three parts around " / " becomes name, arrival,
      departure, home and the four labelled counts; None where the unpacking
      raises ValueError. */
  function FormatBooking(booking: string): Option<string> {
    var f := Split(booking, "|");
    if |f| != 10 then None
    else
      var p := Split(f[5], " / ");
      if |p| != 3 then None
      else Some(Join([f[1], f[2], f[3], f[9], p[0] + " Erwachsene", p[1] + " Kinder",
                      p[2] + " Babies", f[6] + " Haustiere"], "|"))
  }

  function Labelled(fields: seq<string>, a: string, b: string, c: string): seq<string>
    requires |fields| == 10
  {
    [fields[1], fields[2], fields[3], fields[9], a + " Erwachsene", b + " Kinder", c + " Babies",
     fields[6] + " Haustiere"]
  }

  /** A line of ten "|"-free fields whose persons field is "a / b / c" (with
      a, b and c free of spaces) is rewritten to the eight labelled fields,
      which split back apart on "|". */
  lemma FormatBookingOf(fields: seq<string>, a: string, b: string, c: string)
    requires |fields| == 10
    requires forall i :: 0 <= i < 10 ==> '|' !in fields[i]
    requires ' ' !in a && ' ' !in b && ' ' !in c && '|' !in a && '|' !in b && '|' !in c
    requires fields[5] == a + " / " + b + " / " + c
    ensures FormatBooking(Join(fields, "|")) == Some(Join(Labelled(fields, a, b, c), "|"))
    ensures Split(FormatBooking(Join(fields, "|")).value, "|") == Labelled(fields, a, b, c)
  {
    SplitJoin(fields, "|");
    SplitPersons(a, b, c);
    LabelledClean(fields, a, b, c);
    SplitJoin(Labelled(fields, a, b, c), "|");
  }

  lemma SplitPersons(a: string, b: string, c: string)
    requires ' ' !in a && ' ' !in b && ' ' !in c
    ensures Split(a + " / " + b + " / " + c, " / ") == [a, b, c]
  {
    var parts := [a, b, c];
    assert Join(parts[2..], " / ") == c;
    assert Join(parts[1..], " / ") == b + " / " + c;
    assert Join(parts, " / ") == a + " / " + b + " / " + c;
    SplitJoin(parts, " / ");
  }

  lemma LabelledClean(fields: seq<string>, a: string, b: string, c: string)
    requires |fields| == 10
    requires forall i :: 0 <= i < 10 ==> '|' !in fields[i]
    requires '|' !in a && '|' !in b && '|' !in c
    ensures forall i :: 0 <= i < 8 ==> '|' !in Labelled(fields, a, b, c)[i]
  {
  }
}
