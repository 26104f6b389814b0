/**
 * Python's `int(text)` on ASCII decimal text and `str(n)` on integers,
 * with the round trip between them.
 */
module PyInt {
  import opened Wrappers
  import opened PyStr

  predicate IsDigit(c: char) {
    '0' <= c <= '9'
  }

  function DigitValue(c: char): nat
    requires IsDigit(c)
  {
    (c as int) - ('0' as int)
  }

  function DigitChar(d: nat): (c: char)
    requires d < 10
    ensures IsDigit(c) && DigitValue(c) == d
  {
    ('0' as int + d) as char
  }

  /** Decimal digits as `int()` accepts them: at least one digit, ending in a
      digit, with single underscores allowed between two digits. */
  predicate Underscored(s: string)
    decreases |s|
  {
    && |s| >= 1
    && IsDigit(s[|s| - 1])
    && (|s| == 1
        || (s[|s| - 2] == '_' && |s| >= 3 && Underscored(s[..|s| - 2]))
        || (s[|s| - 2] != '_' && Underscored(s[..|s| - 1])))
  }

  /** The number an `Underscored` string denotes; underscores carry no value. */
  function DigitsValue(s: string): nat
    requires Underscored(s)
    decreases |s|
  {
    var d := DigitValue(s[|s| - 1]);
    if |s| == 1 then d
    else if s[|s| - 2] == '_' then 10 * DigitsValue(s[..|s| - 2]) + d
    else 10 * DigitsValue(s[..|s| - 1]) + d
  }

  /** The whitespace `int()` skips around the number: tab to carriage
      return, space, and the non-ASCII whitespace, which CPython turns into
      spaces before it parses. Unlike `strip()`, `int()` does not skip the
      separators U+001C-U+001F. */
  predicate IsIntSpace(c: char) {
    ('\t' <= c <= '\r') || c == ' ' || IsWideSpace(c)
  }

  /** The text `int()` parses: `IsIntSpace` characters cut from both ends. */
  function IntStrip(s: string): (r: string)
    ensures |r| <= |s|
    decreases |s|
  {
    if s != [] && IsIntSpace(s[0]) then IntStrip(s[1..])
    else if s != [] && IsIntSpace(s[|s| - 1]) then IntStrip(s[..|s| - 1])
    else s
  }

  /** `int(s)`: surrounding whitespace is ignored, then an optional sign and
      the digits; anything else is a `ValueError` (`None`). */
  function ParseInt(s: string): Option<int>
  {
    ParseSigned(IntStrip(s))
  }

  /** An optional sign followed by `Underscored` digits. */
  function ParseSigned(t: string): Option<int>
  {
    if |t| >= 1 && (t[0] == '-' || t[0] == '+') then
      if Underscored(t[1..]) then
        var v: int := DigitsValue(t[1..]);
        Some(if t[0] == '-' then -v else v)
      else None
    else if Underscored(t) then Some(DigitsValue(t))
    else None
  }

  /** `str(k)` for a natural number: its decimal digits, most significant first. */
  function NatString(k: nat): (s: string)
    ensures |s| >= 1
    ensures forall i :: 0 <= i < |s| ==> IsDigit(s[i])
  {
    if k < 10 then [DigitChar(k)] else NatString(k / 10) + [DigitChar(k % 10)]
  }

  /** `str(n)` */
  function Show(n: int): string
  {
    if n < 0 then "-" + NatString(-n) else NatString(n)
  }

  lemma {:induction false} NatStringValue(k: nat)
    ensures Underscored(NatString(k)) && DigitsValue(NatString(k)) == k
  {
    if k >= 10 {
      var s := NatString(k);
      NatStringValue(k / 10);
      assert s[..|s| - 1] == NatString(k / 10);
      assert s[|s| - 2] != '_';
    }
  }

  /** `int(str(n)) == n` */
  lemma ParseShow(n: int)
    ensures ParseInt(Show(n)) == Some(n)
  {
    if n < 0 {
      ParseShowNegative(n);
    } else {
      ParseShowNatural(n);
    }
  }

  lemma ParseShowNegative(n: int)
    requires n < 0
    ensures ParseInt("-" + NatString(-n)) == Some(n)
  {
    NatStringValue(-n);
    ParseMinusDigits(NatString(-n), -n);
  }

  lemma ParseShowNatural(n: nat)
    ensures ParseInt(NatString(n)) == Some(n)
  {
    NatStringValue(n);
    ParseDigits(NatString(n));
  }

  lemma ParseDigits(t: string)
    requires Underscored(t) && IsDigit(t[0])
    ensures ParseInt(t) == Some(DigitsValue(t))
  {
  }

  lemma ParseMinusDigits(t: string, v: nat)
    requires Underscored(t) && DigitsValue(t) == v
    ensures ParseInt("-" + t) == Some(-(v as int))
  {
    assert ("-" + t)[|t|] == t[|t| - 1];
    assert IntStrip("-" + t) == "-" + t;
    ParseSignedMinus(t);
  }

  lemma ParseSignedMinus(t: string)
    requires Underscored(t)
    ensures ParseSigned("-" + t) == Some(-(DigitsValue(t) as int))
  {
    assert ("-" + t)[1..] == t;
  }

  /** `int()` only cuts its whitespace, from both ends: what it parses is
      the slice of the input starting at the returned index. */
  lemma {:induction false} IntStripCutsSpace(s: string) returns (i: nat)
    ensures i + |IntStrip(s)| <= |s| && s[i..i + |IntStrip(s)|] == IntStrip(s)
    ensures forall k :: 0 <= k < i ==> IsIntSpace(s[k])
    ensures forall k :: i + |IntStrip(s)| <= k < |s| ==> IsIntSpace(s[k])
    decreases |s|
  {
    var r := IntStrip(s);
    if s != [] && IsIntSpace(s[0]) {
      var j := IntStripCutsSpace(s[1..]);
      i := j + 1;
      assert s[1..][j..j + |r|] == s[i..i + |r|];
      assert forall k :: 1 <= k < |s| ==> s[k] == s[1..][k - 1];
    } else if s != [] && IsIntSpace(s[|s| - 1]) {
      i := IntStripCutsSpace(s[..|s| - 1]);
      assert s[..|s| - 1][i..i + |r|] == s[i..i + |r|];
      assert forall k :: 0 <= k < |s| - 1 ==> s[k] == s[..|s| - 1][k];
    } else {
      i := 0;
      assert s[0..|s|] == s;
    }
  }

  /** What `int()` parses has no `IsIntSpace` character at either end. */
  lemma {:induction false} IntStripEnds(s: string)
    ensures var r := IntStrip(s);
            r != [] ==> !IsIntSpace(r[0]) && !IsIntSpace(r[|r| - 1])
    decreases |s|
  {
    if s != [] && IsIntSpace(s[0]) {
      IntStripEnds(s[1..]);
    } else if s != [] && IsIntSpace(s[|s| - 1]) {
      IntStripEnds(s[..|s| - 1]);
    }
  }

  /** `int()` skips the whitespace it knows and no other: a digit padded
      with a separator U+001C-U+001F, which `strip()` would remove, is
      rejected, while one padded with an ideographic space is read. */
  lemma IntSpacePadding()
    ensures Strip("5\U{1C}") == "5" && ParseInt("5\U{1C}") == None
    ensures ParseInt("5\U{3000}") == Some(5)
    ensures ParseInt(" \t5\n") == Some(5)
  {
  }

  /** Text with no decimal digit at all is not a number for `int()`. */
  lemma NoDigitNoInt(s: string)
    requires forall k :: 0 <= k < |s| ==> !IsDigit(s[k])
    ensures ParseInt(s) == None
  {
    var t := IntStrip(s);
    var i := IntStripCutsSpace(s);
    if |t| >= 1 {
      assert t[|t| - 1] == s[i + |t| - 1];
    }
  }
}
