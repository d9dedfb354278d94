/** The hash handling of the calendar page's password gate: a configured
    password becomes the SHA-256 hex digest the page compares against, a
    value written "sha256:<hex>" is taken as already hashed, and a blank
    value turns the gate off. SHA-256 itself is the parameter `digest`
    (hashlib.sha256 of the UTF-8 text, as hex). */
module Password {
  import opened Text

  const Prefix: string := "sha256:"

  /** _to_sha256_hex: the value stripped; "" when nothing is left, the
      stripped rest after the prefix when pre-hashed, the digest otherwise. */
  function ToSha256Hex(value: string, digest: string -> string): (r: string)
    ensures IsBlank(value) ==> r == ""
  {
    StripEmptyIffBlank(value);
    var s := Strip(value);
    if s == "" then ""
    else if StartsWith(s, Prefix) then Strip(s[|Prefix|..])
    else digest(s)
  }

  /** Whitespace around the configured value makes no difference. */
  lemma SurroundingSpaceIgnored(value: string, digest: string -> string)
    ensures ToSha256Hex(" " + value + " ", digest) == ToSha256Hex(value, digest)
  {
    var padded := " " + value + " ";
    var s := Strip(value);
    if s == "" {
      StripEmptyIffBlank(value);
      assert forall i :: 0 <= i < |padded| ==> IsSpace(padded[i]) by {
        forall i | 0 <= i < |padded| ensures IsSpace(padded[i]) {
          if 0 < i < |padded| - 1 { assert padded[i] == value[i - 1]; }
        }
      }
      StripEmptyIffBlank(padded);
    } else {
      StripPaddedBoth(value);
    }
  }

  lemma StripPaddedBoth(value: string)
    ensures Strip(" " + value + " ") == Strip(value)
  {
    var padded := " " + value + " ";
    assert |padded| > 0 && padded[0] == ' ' && IsSpace(padded[0]);
    assert padded[1..] == value + " ";
    var l := TrimLeft(value);
    assert TrimLeft(padded) == TrimLeft(padded[1..]);
    TrimLeftAppendSpace(value);
    TrimRightAppendSpace(l);
  }

  lemma {:induction false} TrimLeftAppendSpace(s: string)
    ensures TrimLeft(s + " ") == (if TrimLeft(s) == "" then "" else TrimLeft(s) + " ")
  {
    if |s| > 0 && IsSpace(s[0]) {
      assert (s + " ")[1..] == s[1..] + " ";
      TrimLeftAppendSpace(s[1..]);
    } else if |s| == 0 {
      assert TrimLeft(" ") == TrimLeft("");
    }
  }

  lemma TrimRightAppendSpace(s: string)
    ensures TrimRight(s + " ") == TrimRight(s)
  {
    assert (s + " ")[..|s|] == s;
  }

  /** A value "sha256:<hex>", hex without surrounding whitespace, yields hex
      unchanged: the digest is not applied again. */
  lemma PrehashedTakenAsIs(hex: string, digest: string -> string)
    requires hex == [] || (!IsSpace(hex[0]) && !IsSpace(hex[|hex| - 1]))
    ensures ToSha256Hex(Prefix + hex, digest) == hex
  {
    var v := Prefix + hex;
    assert v[0] == 's' && (hex == [] ==> v[|v| - 1] == ':');
    assert hex != [] ==> v[|v| - 1] == hex[|hex| - 1];
    StripNoSpaceEnds(v);
    StripNoSpaceEnds(hex);
    assert v[|Prefix|..] == hex;
  }

  /** Configuring "sha256:" followed by the digest of a password opens the
      gate for the same hash as configuring the password itself, provided
      the password has no surrounding whitespace and does not itself start
      with the prefix, and the digest has no surrounding whitespace (hex
      digits never do). */
  lemma PlainMatchesPrehashed(password: string, digest: string -> string)
    requires password != [] && !IsSpace(password[0]) && !IsSpace(password[|password| - 1])
    requires !StartsWith(password, Prefix)
    requires var h := digest(password); h == [] || (!IsSpace(h[0]) && !IsSpace(h[|h| - 1]))
    ensures ToSha256Hex(Prefix + digest(password), digest) == ToSha256Hex(password, digest)
  {
    PrehashedTakenAsIs(digest(password), digest);
    StripNoSpaceEnds(password);
  }

  /** With a digest that never yields the empty string, the gate is off
      exactly for a blank value and for "sha256:" followed by blanks. */
  lemma GateOffExactly(value: string, digest: string -> string)
    requires forall t :: digest(t) != ""
    ensures ToSha256Hex(value, digest) == "" <==>
      IsBlank(value) || (StartsWith(Strip(value), Prefix) && IsBlank(Strip(value)[|Prefix|..]))
  {
    var s := Strip(value);
    StripEmptyIffBlank(value);
    if s != "" && StartsWith(s, Prefix) {
      StripEmptyIffBlank(s[|Prefix|..]);
    }
  }
}
