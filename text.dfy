/** String operations of Python's str type that the booking scripts rely on:
    strip(), split(sep), join, the `in` test, int() and str() on integers,
    and the code-point order used by sorted(). */
module Text {
  import opened Wrappers

  // ---------------------------------------------------------------------
  // Whitespace and strip()
  // ---------------------------------------------------------------------

  /** The characters for which Python's str.isspace() holds. */
  predicate IsSpace(c: char) {
    var n := c as int;
    (9 <= n <= 13) || (28 <= n <= 32) || n == 0x85 || n == 0xA0 || n == 0x1680
    || (0x2000 <= n <= 0x200A) || n == 0x2028 || n == 0x2029 || n == 0x202F
    || n == 0x205F || n == 0x3000
  }

  /** A string made of whitespace only (Python: `not s.strip()`). */
  predicate IsBlank(s: string) {
    forall i :: 0 <= i < |s| ==> IsSpace(s[i])
  }

  function TrimLeft(s: string): (r: string)
    ensures |r| <= |s| && r == s[|s| - |r|..]
    ensures r == [] || !IsSpace(r[0])
    ensures forall i :: 0 <= i < |s| - |r| ==> IsSpace(s[i])
  {
    if |s| > 0 && IsSpace(s[0]) then TrimLeft(s[1..]) else s
  }

  function TrimRight(s: string): (r: string)
    ensures |r| <= |s| && r == s[..|r|]
    ensures r == [] || !IsSpace(r[|r| - 1])
    ensures forall i :: |r| <= i < |s| ==> IsSpace(s[i])
  {
    if |s| > 0 && IsSpace(s[|s| - 1]) then TrimRight(s[..|s| - 1]) else s
  }

  /** Python's str.strip(): the input without leading and trailing whitespace. */
  function Strip(s: string): (r: string)
    ensures r == [] || (!IsSpace(r[0]) && !IsSpace(r[|r| - 1]))
    ensures |r| <= |s|
  {
    TrimRight(TrimLeft(s))
  }

  /** strip() yields the empty string exactly for blank input. */
  lemma StripEmptyIffBlank(s: string)
    ensures Strip(s) == [] <==> IsBlank(s)
  {
    var l := TrimLeft(s);
    if IsBlank(s) {
      TrimLeftOfBlank(s);
    }
    assert Strip(s) == [] ==> forall i :: 0 <= i < |l| ==> IsSpace(l[i]);
  }

  lemma {:induction false} TrimLeftOfBlank(s: string)
    requires IsBlank(s)
    ensures TrimLeft(s) == []
  {
    if |s| > 0 { TrimLeftOfBlank(s[1..]); }
  }

  /** strip() is idempotent. */
  lemma StripIdempotent(s: string)
    ensures Strip(Strip(s)) == Strip(s)
  {
    var r := Strip(s);
    assert TrimLeft(r) == r;
    assert TrimRight(r) == r;
  }

  /** A string with no whitespace at either end is its own strip(). */
  lemma StripNoSpaceEnds(s: string)
    requires s == [] || (!IsSpace(s[0]) && !IsSpace(s[|s| - 1]))
    ensures Strip(s) == s
  {
    assert TrimLeft(s) == s;
    assert TrimRight(s) == s;
  }

  /** A word padded with blanks strips back to the word. */
  lemma StripDigit(c: char)
    requires IsDigit(c)
    ensures Strip([c]) == [c]
  {
    StripNoSpaceEnds([c]);
  }

  lemma StripPadded(x: string)
    requires |x| > 0 && !IsSpace(x[0]) && !IsSpace(x[|x| - 1])
    ensures Strip(x + " ") == x && Strip(" " + x) == x && Strip(" " + x + " ") == x
  {
    assert (" " + x)[1..] == x;
    assert (" " + x + " ")[1..] == x + " ";
    assert TrimLeft(x) == x;
    assert TrimLeft(x + " ") == x + " ";
    assert (x + " ")[..|x|] == x;
    assert TrimRight(x) == x;
    assert TrimRight(x + " ") == x;
  }

  // ---------------------------------------------------------------------
  // Substrings: `sub in s`, startswith, endswith, find
  // ---------------------------------------------------------------------

  predicate OccursAt(s: string, sub: string, k: nat) {
    k + |sub| <= |s| && s[k..k + |sub|] == sub
  }

  /** Python's s.startswith(p). */
  predicate StartsWith(s: string, p: string) {
    p <= s
  }

  /** Python's s.endswith(p). */
  predicate EndsWith(s: string, p: string) {
    |p| <= |s| && s[|s| - |p|..] == p
  }

  /** The first occurrence of `sub` in `s` at or after position k (Python's s.find(sub, k)). */
  function IndexFrom(s: string, sub: string, k: nat): (r: Option<nat>)
    requires k <= |s|
    ensures r.Some? ==> k <= r.value && r.value + |sub| <= |s|
    decreases |s| - k
  {
    if k + |sub| > |s| then None
    else if OccursAt(s, sub, k) then Some(k)
    else IndexFrom(s, sub, k + 1)
  }

  /** IndexFrom finds an occurrence, and none before it; None means there is none at or after k. */
  lemma {:induction false} IndexFromFirst(s: string, sub: string, k: nat)
    requires k <= |s|
    ensures IndexFrom(s, sub, k).Some? ==> OccursAt(s, sub, IndexFrom(s, sub, k).value)
    ensures IndexFrom(s, sub, k).Some? ==>
      forall j :: k <= j < IndexFrom(s, sub, k).value ==> !OccursAt(s, sub, j)
    ensures IndexFrom(s, sub, k).None? ==> forall j :: k <= j ==> !OccursAt(s, sub, j)
    decreases |s| - k
  {
    if k + |sub| <= |s| && !OccursAt(s, sub, k) {
      IndexFromFirst(s, sub, k + 1);
    }
  }

  /** Python's `sub in s` for strings. */
  predicate Contains(s: string, sub: string) {
    IndexFrom(s, sub, 0).Some?
  }

  /** `sub in s` holds exactly when sub occurs at some position of s. */
  lemma ContainsIff(s: string, sub: string)
    ensures Contains(s, sub) <==> exists k: nat :: OccursAt(s, sub, k)
  {
    IndexFromFirst(s, sub, 0);
  }

  lemma OccursInPrefix(s: string, sub: string, i: nat, j: nat)
    requires i <= |s| && OccursAt(s[..i], sub, j)
    ensures OccursAt(s, sub, j)
  {
    assert s[..i][j..j + |sub|] == s[j..j + |sub|];
  }

  // ---------------------------------------------------------------------
  // split and join
  // ---------------------------------------------------------------------

  /** Python's sep.join(parts). */
  function Join(parts: seq<string>, sep: string): string
  {
    if |parts| == 0 then ""
    else if |parts| == 1 then parts[0]
    else parts[0] + sep + Join(parts[1..], sep)
  }

  /** A join of non-empty parts is empty exactly when there are no parts. */
  lemma JoinEmpty(parts: seq<string>, sep: string)
    requires forall i :: 0 <= i < |parts| ==> parts[i] != ""
    ensures Join(parts, sep) == "" <==> parts == []
  {
    if |parts| > 1 {
      assert Join(parts, sep) == parts[0] + sep + Join(parts[1..], sep);
    }
  }

  /** Joining two non-empty lists of parts joins each and puts the
      separator between them. */
  lemma {:induction false} JoinAppend(x: seq<string>, y: seq<string>, sep: string)
    requires |x| >= 1 && |y| >= 1
    ensures Join(x + y, sep) == Join(x, sep) + sep + Join(y, sep)
    decreases |x|
  {
    if |x| == 1 {
      assert (x + y)[1..] == y;
    } else {
      assert (x + y)[1..] == x[1..] + y;
      JoinAppend(x[1..], y, sep);
    }
  }

  /** A character in neither the parts nor the separator is not in the join. */
  lemma {:induction false} JoinWithout(parts: seq<string>, sep: string, c: char)
    requires c !in sep && forall i :: 0 <= i < |parts| ==> c !in parts[i]
    ensures c !in Join(parts, sep)
    decreases |parts|
  {
    if |parts| > 1 {
      JoinWithout(parts[1..], sep, c);
    }
  }

  /** Python's s.split(sep) for a non-empty separator: the pieces between the
      non-overlapping occurrences of sep, found from left to right. */
  function Split(s: string, sep: string): (r: seq<string>)
    requires |sep| > 0
    ensures |r| >= 1
    decreases |s|
  {
    match IndexFrom(s, sep, 0)
    case None => [s]
    case Some(i) => [s[..i]] + Split(s[i + |sep|..], sep)
  }

  /** Joining the pieces with the separator gives the string back, and no
      piece contains the separator. */
  lemma {:induction false} SplitJoinsBack(s: string, sep: string)
    requires |sep| > 0
    ensures Join(Split(s, sep), sep) == s
    ensures forall i :: 0 <= i < |Split(s, sep)| ==> !Contains(Split(s, sep)[i], sep)
    decreases |s|
  {
    match IndexFrom(s, sep, 0)
    case None =>
    case Some(i) =>
      var head := s[..i];
      IndexFromFirst(s, sep, 0);
      assert !Contains(head, sep) by {
        ContainsIff(head, sep);
        forall j: nat | OccursAt(head, sep, j) ensures false {
          OccursInPrefix(s, sep, i, j);
        }
      }
      SplitJoinsBack(s[i + |sep|..], sep);
      assert s == head + sep + s[i + |sep|..];
  }

  /** Splitting a join on a separator whose first character no part
      contains gives the parts back. */
  lemma {:induction false} SplitJoin(parts: seq<string>, sep: string)
    requires |parts| >= 1 && |sep| > 0
    requires forall i :: 0 <= i < |parts| ==> sep[0] !in parts[i]
    ensures Split(Join(parts, sep), sep) == parts
  {
    if |parts| > 1 {
      SplitFront(parts[0], Join(parts[1..], sep), sep);
      SplitJoin(parts[1..], sep);
      assert parts == [parts[0]] + parts[1..];
    } else {
      IndexFromAbsent(parts[0], sep, 0);
    }
  }

  /** The first piece is everything before the first separator, when that
      stretch does not hold the separator's first character. */
  lemma SplitFront(x: string, y: string, sep: string)
    requires |sep| > 0 && sep[0] !in x
    ensures Split(x + sep + y, sep) == [x] + Split(y, sep)
  {
    var s := x + sep + y;
    IndexFromFirst(s, sep, 0);
    assert s[|x|..|x| + |sep|] == sep;
    assert OccursAt(s, sep, |x|);
    forall j | 0 <= j < |x| ensures !OccursAt(s, sep, j) {
      assert s[j] == x[j];
      NotAtOtherChar(s, sep, j);
    }
    assert IndexFrom(s, sep, 0) == Some(|x|);
    assert s[..|x|] == x;
    assert s[|x| + |sep|..] == y;
  }

  lemma NotAtOtherChar(s: string, sep: string, j: nat)
    requires |sep| > 0 && j < |s| && s[j] != sep[0]
    ensures !OccursAt(s, sep, j)
  {
    if j + |sep| <= |s| {
      assert s[j..j + |sep|][0] == s[j];
    }
  }

  /** A separator whose first character does not occur in s is not found. */
  lemma {:induction false} IndexFromAbsent(s: string, sep: string, k: nat)
    requires |sep| > 0 && sep[0] !in s && k <= |s|
    ensures IndexFrom(s, sep, k) == None
    decreases |s| - k
  {
    if k + |sep| <= |s| {
      assert s[k..k + |sep|][0] == s[k];
      IndexFromAbsent(s, sep, k + 1);
    }
  }

  // ---------------------------------------------------------------------
  // Decimal digits, int() and str()
  // ---------------------------------------------------------------------

  predicate IsDigit(c: char) { '0' <= c <= '9' }

  /** A non-empty run of ASCII digits (Python: s.isdigit() on ASCII text). */
  predicate IsDigits(s: string) {
    |s| > 0 && forall i :: 0 <= i < |s| ==> IsDigit(s[i])
  }

  function DigitValue(c: char): (r: nat)
    requires IsDigit(c)
    ensures r < 10
  {
    (c as int) - ('0' as int)
  }

  function DigitChar(n: nat): (c: char)
    requires n < 10
    ensures IsDigit(c) && DigitValue(c) == n
  {
    (('0' as int) + n) as char
  }

  /** The value of a string of decimal digits. */
  function DigitsValue(s: string): (r: nat)
    requires forall i :: 0 <= i < |s| ==> IsDigit(s[i])
  {
    if |s| == 0 then 0 else DigitsValue(s[..|s| - 1]) * 10 + DigitValue(s[|s| - 1])
  }

  /** The shortest decimal form of a natural number (Python's str() on int). */
  function NatToString(n: nat): string
    decreases n
  {
    if n < 10 then [DigitChar(n)] else NatToString(n / 10) + [DigitChar(n % 10)]
  }

  /** The decimal form is a digit string of the number's value, with no
      leading zero. */
  lemma {:induction false} NatToStringFacts(n: nat)
    ensures IsDigits(NatToString(n))
    ensures DigitsValue(NatToString(n)) == n
    ensures NatToString(n)[0] == '0' ==> n == 0
    ensures n < 10 ==> |NatToString(n)| == 1
    ensures n >= 10 ==> |NatToString(n)| >= 2
    decreases n
  {
    if n >= 10 {
      NatToStringFacts(n / 10);
      var s := NatToString(n);
      assert s[..|s| - 1] == NatToString(n / 10);
    }
  }

  /** Python's str() on an int. */
  function IntToString(n: int): string {
    if n < 0 then "-" + NatToString(-n) else NatToString(n)
  }

  /** Leading zeros do not change the value of a digit string. */
  lemma {:induction false} DigitsValueLeadingZero(s: string)
    requires forall i :: 0 <= i < |s| ==> IsDigit(s[i])
    ensures DigitsValue("0" + s) == DigitsValue(s)
  {
    if |s| > 0 {
      var t := "0" + s;
      assert t[..|t| - 1] == "0" + s[..|s| - 1];
      DigitsValueLeadingZero(s[..|s| - 1]);
    }
  }

  /** n in decimal, left-padded with zeros to at least `width` characters
      (printf's %0<width>d). */
  function ZeroPad(n: nat, width: nat): string
    decreases width
  {
    var d := NatToString(n);
    if |d| >= width then d else "0" + ZeroPad(n, width - 1)
  }

  /** Zero padding keeps the value and gives at least `width` digits, exactly
      `width` when the number fits. */
  lemma {:induction false} ZeroPadFacts(n: nat, width: nat)
    ensures forall i :: 0 <= i < |ZeroPad(n, width)| ==> IsDigit(ZeroPad(n, width)[i])
    ensures DigitsValue(ZeroPad(n, width)) == n
    ensures |ZeroPad(n, width)| >= width && |ZeroPad(n, width)| >= 1
    ensures |NatToString(n)| <= width ==> |ZeroPad(n, width)| == width
    decreases width
  {
    NatToStringFacts(n);
    if |NatToString(n)| < width {
      ZeroPadFacts(n, width - 1);
      DigitsValueLeadingZero(ZeroPad(n, width - 1));
    }
  }

  /** A digit string starting with a non-zero digit has a positive value. */
  lemma {:induction false} DigitsValuePositive(s: string)
    requires IsDigits(s) && s[0] != '0'
    ensures DigitsValue(s) >= 1
  {
    if |s| > 1 {
      var init := s[..|s| - 1];
      assert init[0] == s[0];
      DigitsValuePositive(init);
    }
  }

  /** A digit string without a leading zero is the decimal form of its value. */
  lemma {:induction false} NatToStringOfDigits(s: string)
    requires IsDigits(s) && (s[0] == '0' ==> |s| == 1)
    ensures NatToString(DigitsValue(s)) == s
  {
    var n := DigitsValue(s);
    var last := s[|s| - 1];
    if |s| == 1 {
      assert s[..|s| - 1] == [];
      assert DigitsValue(s[..|s| - 1]) == 0;
      assert n == DigitValue(last) < 10;
      assert DigitChar(n) == last;
      assert s == [last];
    } else {
      var init := s[..|s| - 1];
      assert init[0] == s[0];
      NatToStringOfDigits(init);
      DigitsValuePositive(init);
      assert n / 10 == DigitsValue(init) && n % 10 == DigitValue(last);
      assert DigitChar(n % 10) == last;
      assert s == init + [last];
    }
  }

  /** A digit string of length w is n zero-padded to width w, for its value n. */
  lemma {:induction false} ZeroPadOfDigits(s: string)
    requires IsDigits(s)
    ensures ZeroPad(DigitsValue(s), |s|) == s
  {
    var n := DigitsValue(s);
    if s[0] != '0' || |s| == 1 {
      NatToStringOfDigits(s);
    } else {
      var t := s[1..];
      assert s == "0" + t;
      DigitsValueLeadingZero(t);
      ZeroPadOfDigits(t);
      assert |NatToString(n)| < |s|;
    }
  }

  /** Python's int(s) on a string: surrounding whitespace, an optional sign
      and one or more ASCII digits. */
  function ParseInt(s: string): (r: Option<int>)
    ensures r.Some? ==> |Strip(s)| > 0
  {
    var t := Strip(s);
    if |t| > 0 && (t[0] == '+' || t[0] == '-') then
      if IsDigits(t[1..]) then
        var v: int := if t[0] == '-' then -(DigitsValue(t[1..]) as int) else DigitsValue(t[1..]);
        Some(v)
      else None
    else if IsDigits(t) then Some(DigitsValue(t))
    else None
  }

  /** int(str(n)) == n. */
  lemma ParseIntOfIntToString(n: int)
    ensures ParseInt(IntToString(n)) == Some(n)
  {
    var s := IntToString(n);
    NatToStringFacts(if n < 0 then -n else n);
    StripNoSpaceEnds(s);
    if n < 0 {
      assert s[1..] == NatToString(-n);
    }
  }

  // ---------------------------------------------------------------------
  // Python's string order
  // ---------------------------------------------------------------------

  /** Python's `a < b` on str: lexicographic by code point, a proper prefix first. */
  predicate StrLess(a: string, b: string)
    decreases |a|
  {
    if |a| == 0 then |b| > 0
    else if |b| == 0 then false
    else if a[0] != b[0] then a[0] < b[0]
    else StrLess(a[1..], b[1..])
  }

  lemma {:induction false} StrLessIrreflexive(a: string)
    ensures !StrLess(a, a)
  {
    if |a| > 0 { StrLessIrreflexive(a[1..]); }
  }

  lemma {:induction false} StrLessTransitive(a: string, b: string, c: string)
    requires StrLess(a, b) && StrLess(b, c)
    ensures StrLess(a, c)
    decreases |a|
  {
    if |a| > 0 && a[0] == b[0] && b[0] == c[0] {
      StrLessTransitive(a[1..], b[1..], c[1..]);
    }
  }

  lemma {:induction false} StrLessTotal(a: string, b: string)
    ensures a == b || StrLess(a, b) || StrLess(b, a)
    decreases |a|
  {
    if |a| > 0 && |b| > 0 && a[0] == b[0] {
      StrLessTotal(a[1..], b[1..]);
      if a[1..] == b[1..] {
        assert a == [a[0]] + a[1..] && b == [b[0]] + b[1..];
      }
    }
  }

  lemma {:induction false} StrLessAsymmetric(a: string, b: string)
    requires StrLess(a, b)
    ensures !StrLess(b, a)
    decreases |a|
  {
    if |a| > 0 && |b| > 0 && a[0] == b[0] {
      StrLessAsymmetric(a[1..], b[1..]);
    }
  }
}
