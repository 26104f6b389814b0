/**
 * The Python `str` operations the scripts rely on, over `seq<char>`:
 * `strip`, `startswith`, `split(sep)`, `sep.join`, `replace` and the
 * argument-less `split()`. Separators are literal and matched from left to
 * right without overlap, as CPython does.
 */
module PyStr {

  /** The characters CPython's `str.isspace` accepts, which `strip()` and
      `split()` remove: tab, line feed, vertical tab, form feed, carriage
      return, the four separators U+001C-U+001F, space, and the non-ASCII
      whitespace of `IsWideSpace`. */
  predicate IsSpace(c: char) {
    ('\t' <= c <= '\r') || ('\U{1C}' <= c <= ' ') || IsWideSpace(c)
  }

  /** The whitespace above U+007F in CPython's Unicode database: the next
      line U+0085, the no-break spaces U+00A0, U+202F, the Ogham space mark
      U+1680, the spaces U+2000-U+200A, the line and paragraph separators
      U+2028, U+2029, the medium mathematical space U+205F and the
      ideographic space U+3000. */
  predicate IsWideSpace(c: char) {
    || c == '\U{85}' || c == '\U{A0}' || c == '\U{1680}'
    || ('\U{2000}' <= c <= '\U{200A}')
    || c == '\U{2028}' || c == '\U{2029}' || c == '\U{202F}'
    || c == '\U{205F}' || c == '\U{3000}'
  }

  predicate AllSpace(s: string) {
    forall k :: 0 <= k < |s| ==> IsSpace(s[k])
  }

  predicate NoSpace(s: string) {
    forall k :: 0 <= k < |s| ==> !IsSpace(s[k])
  }

  /** `s.startswith(p)` */
  predicate StartsWith(s: string, p: string) {
    |p| <= |s| && s[..|p|] == p
  }

  /** `p` occurs in `s` at index `i`. */
  predicate OccursAt(s: string, p: string, i: nat) {
    i + |p| <= |s| && s[i..i + |p|] == p
  }

  /** `p in s` */
  ghost predicate Contains(s: string, p: string) {
    exists i: nat :: OccursAt(s, p, i)
  }

  /** No whitespace at either end: the strings `strip()` returns. */
  predicate IsStripped(s: string) {
    s != [] ==> !IsSpace(s[0]) && !IsSpace(s[|s| - 1])
  }

  /** `s.strip()`: leading and then trailing whitespace removed. */
  function Strip(s: string): (r: string)
    ensures |r| <= |s|
    decreases |s|
  {
    if s != [] && IsSpace(s[0]) then Strip(s[1..])
    else if s != [] && IsSpace(s[|s| - 1]) then Strip(s[..|s| - 1])
    else s
  }

  /** A whitespace character in front of an all-whitespace string. */
  lemma AllSpaceCons(c: char, t: string)
    requires IsSpace(c) && AllSpace(t)
    ensures AllSpace([c] + t)
  {
    assert forall k :: 0 < k <= |t| ==> ([c] + t)[k] == t[k - 1];
  }

  /** An all-whitespace string followed by a whitespace character. */
  lemma AllSpaceSnoc(t: string, c: char)
    requires AllSpace(t) && IsSpace(c)
    ensures AllSpace(t + [c])
  {
    assert forall k :: 0 <= k < |t| ==> (t + [c])[k] == t[k];
  }

  /** `strip` only cuts whitespace, from both ends: its result is the slice
      of the input starting at the returned index, with whitespace on
      either side of it. */
  lemma {:induction false} StripCutsSpace(s: string) returns (i: nat)
    ensures i + |Strip(s)| <= |s| && s[i..i + |Strip(s)|] == Strip(s)
    ensures AllSpace(s[..i]) && AllSpace(s[i + |Strip(s)|..])
    decreases |s|
  {
    if s != [] && IsSpace(s[0]) {
      assert Strip(s) == Strip(s[1..]);
      var j := StripCutsSpace(s[1..]);
      CutFront(s, Strip(s), j);
      i := j + 1;
    } else if s != [] && IsSpace(s[|s| - 1]) {
      assert Strip(s) == Strip(s[..|s| - 1]);
      i := StripCutsSpace(s[..|s| - 1]);
      CutBack(s, Strip(s), i);
    } else {
      i := 0;
      assert Strip(s) == s;
      assert s[..0] == [] && s[|s|..] == [];
    }
  }

  /** Putting whitespace in front of a cut keeps it a cut. */
  lemma CutFront(s: string, r: string, j: nat)
    requires s != [] && IsSpace(s[0])
    requires j + |r| <= |s[1..]| && s[1..][j..j + |r|] == r
    requires AllSpace(s[1..][..j]) && AllSpace(s[1..][j + |r|..])
    ensures s[j + 1..j + 1 + |r|] == r
    ensures AllSpace(s[..j + 1]) && AllSpace(s[j + 1 + |r|..])
  {
    var t := s[1..];
    assert t[j..j + |r|] == s[j + 1..j + 1 + |r|];
    assert s[..j + 1] == [s[0]] + t[..j];
    AllSpaceCons(s[0], t[..j]);
    assert s[j + 1 + |r|..] == t[j + |r|..];
  }

  /** Putting whitespace behind a cut keeps it a cut. */
  lemma CutBack(s: string, r: string, j: nat)
    requires s != [] && IsSpace(s[|s| - 1])
    requires j + |r| <= |s| - 1 && s[..|s| - 1][j..j + |r|] == r
    requires AllSpace(s[..|s| - 1][..j]) && AllSpace(s[..|s| - 1][j + |r|..])
    ensures s[j..j + |r|] == r
    ensures AllSpace(s[..j]) && AllSpace(s[j + |r|..])
  {
    var t := s[..|s| - 1];
    assert t[j..j + |r|] == s[j..j + |r|];
    assert s[..j] == t[..j];
    assert s[j + |r|..] == t[j + |r|..] + [s[|s| - 1]];
    AllSpaceSnoc(t[j + |r|..], s[|s| - 1]);
  }

  /** `strip` leaves no whitespace at either end. */
  lemma {:induction false} StripIsStripped(s: string)
    ensures IsStripped(Strip(s))
    decreases |s|
  {
    if s != [] && IsSpace(s[0]) {
      StripIsStripped(s[1..]);
    } else if s != [] && IsSpace(s[|s| - 1]) {
      StripIsStripped(s[..|s| - 1]);
    }
  }

  /** `strip` yields the empty string exactly for an all-whitespace input. */
  lemma StripEmpty(s: string)
    ensures Strip(s) == [] <==> AllSpace(s)
  {
    var r := Strip(s);
    var i := StripCutsSpace(s);
    if r == [] {
      forall k | 0 <= k < |s| ensures IsSpace(s[k]) {
        if k < i {
          assert s[k] == s[..i][k];
        } else {
          assert s[k] == s[i..][k - i];
        }
      }
    } else {
      StripIsStripped(s);
      assert s[i] == r[0];
    }
  }

  /** `s.split(sep)` for a non-empty separator: the pieces between the
      left-to-right, non-overlapping occurrences of `sep`. */
  function Split(s: string, sep: string): (parts: seq<string>)
    requires sep != []
    ensures |parts| >= 1
    ensures StartsWith(s, parts[0])
    decreases |s|
  {
    if |s| < |sep| then [s]
    else if s[..|sep|] == sep then [[]] + Split(s[|sep|..], sep)
    else
      var rest := Split(s[1..], sep);
      [[s[0]] + rest[0]] + rest[1..]
  }

  /** `sep.join(parts)` */
  function Join(sep: string, parts: seq<string>): string
  {
    if |parts| == 0 then []
    else if |parts| == 1 then parts[0]
    else parts[0] + sep + Join(sep, parts[1..])
  }

  /** Gluing a prefix onto the first part glues it onto the joined string. */
  lemma JoinGlueFirst(sep: string, x: string, parts: seq<string>)
    requires |parts| >= 1
    ensures Join(sep, [x + parts[0]] + parts[1..]) == x + Join(sep, parts)
  {
    var q := [x + parts[0]] + parts[1..];
    assert q[1..] == parts[1..];
  }

  /** Splitting loses nothing: joining the pieces with the separator gives the input back. */
  lemma {:induction false} SplitJoin(s: string, sep: string)
    requires sep != []
    ensures Join(sep, Split(s, sep)) == s
    decreases |s|
  {
    if |s| < |sep| {
    } else if s[..|sep|] == sep {
      var rest := Split(s[|sep|..], sep);
      var parts := [[]] + rest;
      assert Split(s, sep) == parts;
      assert parts[0] == [] && parts[1..] == rest && |parts| > 1;
      calc {
        Join(sep, parts);
        [] + sep + Join(sep, rest);
        { SplitJoin(s[|sep|..], sep); }
        sep + s[|sep|..];
        s;
      }
    } else {
      var rest := Split(s[1..], sep);
      assert Split(s, sep) == [[s[0]] + rest[0]] + rest[1..];
      calc {
        Join(sep, [[s[0]] + rest[0]] + rest[1..]);
        { JoinGlueFirst(sep, [s[0]], rest); }
        [s[0]] + Join(sep, rest);
        { SplitJoin(s[1..], sep); }
        [s[0]] + s[1..];
        s;
      }
    }
  }

  /** No piece of a split contains the separator, and when there is more than
      one piece the separator follows the first one. */
  lemma {:induction false} SplitPiecesFree(s: string, sep: string)
    requires sep != []
    ensures forall k :: 0 <= k < |Split(s, sep)| ==> !Contains(Split(s, sep)[k], sep)
    ensures |Split(s, sep)| > 1 ==> OccursAt(s, sep, |Split(s, sep)[0]|)
    decreases |s|
  {
    var parts := Split(s, sep);
    if |s| < |sep| {
      forall i: nat ensures !OccursAt(s, sep, i) {
      }
    } else if s[..|sep|] == sep {
      var rest := Split(s[|sep|..], sep);
      SplitPiecesFree(s[|sep|..], sep);
      assert parts == [[]] + rest;
      forall k | 0 <= k < |parts| ensures !Contains(parts[k], sep) {
        if k == 0 {
          forall i: nat ensures !OccursAt(parts[0], sep, i) {
          }
        } else {
          assert parts[k] == rest[k - 1];
        }
      }
    } else {
      var rest := Split(s[1..], sep);
      SplitPiecesFree(s[1..], sep);
      var p0 := [s[0]] + rest[0];
      assert parts == [p0] + rest[1..];
      forall i: nat ensures !OccursAt(p0, sep, i) {
        if i == 0 {
          if |sep| <= |p0| {
            assert p0[..|sep|] == s[..|sep|];
          }
        } else {
          assert !OccursAt(rest[0], sep, i - 1);
          if i + |sep| <= |p0| {
            assert p0[i..i + |sep|] == rest[0][i - 1..i - 1 + |sep|];
          }
        }
      }
      forall k | 0 <= k < |parts| ensures !Contains(parts[k], sep) {
        if k > 0 {
          assert parts[k] == rest[k];
        }
      }
      if |parts| > 1 {
        assert OccursAt(s[1..], sep, |rest[0]|);
        assert s[1..][|rest[0]|..|rest[0]| + |sep|] == s[|p0|..|p0| + |sep|];
      }
    }
  }

  /** `c` does not occur in `s`. */
  predicate Lacks(s: string, c: char) {
    forall k :: 0 <= k < |s| ==> s[k] != c
  }

  /** A string without the one-character separator is its only piece. */
  lemma {:induction false} SplitWithout(a: string, c: char)
    requires Lacks(a, c)
    ensures Split(a, [c]) == [a]
    decreases |a|
  {
    if |a| >= 1 {
      assert a[..1][0] == a[0] != c;
      SplitWithout(a[1..], c);
      assert [a[0]] + a[1..] == a;
    }
  }

  /** Text free of the separator, then the separator: the first piece. */
  lemma {:induction false} SplitAfter(a: string, c: char, b: string)
    requires Lacks(a, c)
    ensures Split(a + [c] + b, [c]) == [a] + Split(b, [c])
    decreases |a|
  {
    var s := a + [c] + b;
    if a == [] {
      assert s[..1] == [c] && s[1..] == b;
    } else {
      assert s[..1][0] == a[0] != c;
      assert s[1..] == a[1..] + [c] + b;
      SplitAfter(a[1..], c, b);
      assert [s[0]] + a[1..] == a;
    }
  }

  /** A string that opens with the separator splits into an empty first
      piece and the pieces of the rest. */
  lemma SplitLeadingSep(sep: string, t: string)
    requires sep != []
    ensures Split(sep + t, sep) == [[]] + Split(t, sep)
  {
    assert (sep + t)[..|sep|] == sep;
    assert (sep + t)[|sep|..] == t;
  }

  /** A first character that does not open a separator joins the first
      piece of the rest. */
  lemma SplitOneChar(c: char, t: string, sep: string)
    requires sep != [] && !StartsWith([c] + t, sep)
    ensures Split([c] + t, sep) == [[c] + Split(t, sep)[0]] + Split(t, sep)[1..]
  {
    assert ([c] + t)[1..] == t;
  }

  /** A prefix holding no first character of the separator is glued onto
      the first piece; the other pieces are those of the rest. */
  lemma {:induction false} SplitPrefix(p: string, t: string, sep: string)
    requires sep != [] && Lacks(p, sep[0])
    ensures Split(p + t, sep) == [p + Split(t, sep)[0]] + Split(t, sep)[1..]
    decreases |p|
  {
    if p == [] {
      var r := Split(t, sep);
      assert p + t == t && p + r[0] == r[0];
      assert r == [r[0]] + r[1..];
    } else {
      var q := p[1..];
      assert Lacks(q, sep[0]);
      SplitPrefix(q, t, sep);
      var s := [p[0]] + (q + t);
      assert p + t == s;
      assert !StartsWith(s, sep) by {
        if |sep| <= |s| {
          assert s[..|sep|][0] == p[0] != sep[0];
        }
      }
      SplitOneChar(p[0], q + t, sep);
      var r := Split(t, sep);
      assert Split(q + t, sep)[0] == q + r[0];
      assert Split(q + t, sep)[1..] == r[1..];
      assert [p[0]] + (q + r[0]) == p + r[0];
    }
  }

  /** Leading whitespace is stripped away. */
  lemma StripSpaceCons(c: char, t: string)
    requires IsSpace(c)
    ensures Strip([c] + t) == Strip(t)
  {
    assert ([c] + t)[1..] == t;
  }

  /** Splitting undoes joining on a one-character separator that no part
      contains. */
  lemma {:induction false} JoinSplit(parts: seq<string>, c: char)
    requires |parts| >= 1
    requires forall i :: 0 <= i < |parts| ==> Lacks(parts[i], c)
    ensures Split(Join([c], parts), [c]) == parts
  {
    if |parts| == 1 {
      SplitWithout(parts[0], c);
    } else {
      JoinSplit(parts[1..], c);
      assert Join([c], parts) == parts[0] + [c] + Join([c], parts[1..]);
      SplitAfter(parts[0], c, Join([c], parts[1..]));
      assert [parts[0]] + parts[1..] == parts;
    }
  }

  /** When no occurrence of the separator can begin before index `n`, the
      first piece is at least `n` long (so it keeps `s[..n]`). */
  lemma {:induction false} SplitFirstAtLeast(s: string, sep: string, n: nat)
    requires sep != [] && n <= |s|
    requires forall k :: 0 <= k < n ==> s[k] != sep[0]
    ensures |Split(s, sep)[0]| >= n
    decreases |s|
  {
    if |s| < |sep| {
    } else if s[..|sep|] == sep {
      assert s[0] == sep[0];
    } else if n > 0 {
      SplitFirstAtLeast(s[1..], sep, n - 1);
    }
  }

  /** `s.replace(pat, rep)`: every left-to-right, non-overlapping occurrence of
      `pat` replaced. */
  function Replace(s: string, pat: string, rep: string): string
    requires pat != []
    decreases |s|
  {
    if |s| < |pat| then s
    else if s[..|pat|] == pat then rep + Replace(s[|pat|..], pat, rep)
    else [s[0]] + Replace(s[1..], pat, rep)
  }

  /** `s.replace(pat, rep) == rep.join(s.split(pat))` */
  lemma {:induction false} ReplaceIsJoinOfSplit(s: string, pat: string, rep: string)
    requires pat != []
    ensures Replace(s, pat, rep) == Join(rep, Split(s, pat))
    decreases |s|
  {
    if |s| < |pat| {
    } else if s[..|pat|] == pat {
      var rest := Split(s[|pat|..], pat);
      ReplaceIsJoinOfSplit(s[|pat|..], pat, rep);
      assert ([[]] + rest)[1..] == rest;
    } else {
      var rest := Split(s[1..], pat);
      ReplaceIsJoinOfSplit(s[1..], pat, rep);
      JoinGlueFirst(rep, [s[0]], rest);
    }
  }

  /** Length of the run of non-whitespace characters that begins `s`. */
  function WordLength(s: string): (n: nat)
    ensures n <= |s|
    ensures s != [] && !IsSpace(s[0]) ==> n > 0
  {
    if s == [] || IsSpace(s[0]) then 0 else 1 + WordLength(s[1..])
  }

  /** `s.split()`: the maximal runs of non-whitespace characters, in order. */
  function Words(s: string): seq<string>
    decreases |s|
  {
    if s == [] then []
    else if IsSpace(s[0]) then Words(s[1..])
    else
      var n := WordLength(s);
      [s[..n]] + Words(s[n..])
  }

  /** The run `WordLength` measures is whitespace-free and maximal. */
  lemma {:induction false} WordLengthRun(s: string)
    ensures NoSpace(s[..WordLength(s)])
    ensures WordLength(s) < |s| ==> IsSpace(s[WordLength(s)])
  {
    if s != [] && !IsSpace(s[0]) {
      WordLengthRun(s[1..]);
      assert s[..WordLength(s)] == [s[0]] + s[1..][..WordLength(s[1..])];
    }
  }

  /** Every token of `split()` is non-empty and free of whitespace. */
  lemma {:induction false} WordsAreTokens(s: string)
    ensures forall k :: 0 <= k < |Words(s)| ==> Words(s)[k] != [] && NoSpace(Words(s)[k])
    decreases |s|
  {
    if s == [] {
    } else if IsSpace(s[0]) {
      WordsAreTokens(s[1..]);
    } else {
      var n := WordLength(s);
      WordLengthRun(s);
      WordsAreTokens(s[n..]);
      assert Words(s) == [s[..n]] + Words(s[n..]);
    }
  }

  /** `split()` undoes `' '.join` on non-empty, whitespace-free words. */
  lemma {:induction false} WordsOfJoin(ws: seq<string>)
    requires forall k :: 0 <= k < |ws| ==> ws[k] != [] && NoSpace(ws[k])
    ensures Words(Join(" ", ws)) == ws
  {
    if |ws| == 1 {
      WordsCons(ws[0], []);
      assert ws[0] + [] == ws[0];
    } else if |ws| > 1 {
      var tail := Join(" ", ws[1..]);
      JoinCons(" ", ws);
      WordsOfJoin(ws[1..]);
      WordsCons(ws[0], " " + tail);
      WordsSkipSpace(tail);
    }
  }

  lemma JoinCons(sep: string, parts: seq<string>)
    requires |parts| > 1
    ensures Join(sep, parts) == parts[0] + (sep + Join(sep, parts[1..]))
  {
  }

  /** A leading word followed by whitespace (or nothing) is the first token. */
  lemma WordsCons(w: string, rest: string)
    requires w != [] && NoSpace(w)
    requires rest != [] ==> IsSpace(rest[0])
    ensures Words(w + rest) == [w] + Words(rest)
  {
    var t := w + rest;
    WordLengthOf(w, rest);
    assert t[..|w|] == w && t[|w|..] == rest;
  }

  lemma WordLengthOf(w: string, rest: string)
    requires NoSpace(w)
    requires rest != [] ==> IsSpace(rest[0])
    ensures WordLength(w + rest) == |w|
    decreases |w|
  {
    if w != [] {
      assert (w + rest)[1..] == w[1..] + rest;
      WordLengthOf(w[1..], rest);
    }
  }

  lemma WordsSkipSpace(t: string)
    ensures Words(" " + t) == Words(t)
  {
    assert (" " + t)[1..] == t;
  }
}
