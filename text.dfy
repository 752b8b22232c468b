/**
 * The string operations of the Java and Python library that the modelled
 * code relies on: splitting on a separator, trimming, ASCII lower case,
 * prefixes, and the decimal rendering of integers.
 */
module Text {

  /** The characters of the regular expression class `\s` and of Python's str.isspace. */
  predicate IsSpace(c: char)
  {
    c == ' ' || c == '\t' || c == '\n' || c == '\U{B}' || c == '\U{C}' || c == '\r'
  }

  /** The characters Java's String.trim removes: every code point up to U+0020. */
  predicate IsTrimmedByJava(c: char)
  {
    c <= ' '
  }

  /** All pieces of `s` between separator characters, empty pieces included (Python's str.split(sep)). */
  function SplitWhere(s: string, sep: char -> bool): (r: seq<string>)
    ensures |r| >= 1
    ensures forall i, j :: 0 <= i < |r| && 0 <= j < |r[i]| ==> !sep(r[i][j])
  {
    if s == [] then [""]
    else
      var rest := SplitWhere(s[1..], sep);
      if sep(s[0]) then [""] + rest
      else
        assert forall j :: 1 <= j < |[s[0]] + rest[0]| ==> ([s[0]] + rest[0])[j] == rest[0][j - 1];
        [[s[0]] + rest[0]] + rest[1..]
  }

  /** Joins the pieces with the character `c` between them. */
  function Join(pieces: seq<string>, c: char): string
  {
    if |pieces| == 0 then ""
    else if |pieces| == 1 then pieces[0]
    else pieces[0] + [c] + Join(pieces[1..], c)
  }

  predicate IsChar(c: char, d: char) { c == d }

  /** Python's s.split(c) for a one-character separator. */
  function PySplit(s: string, c: char): (r: seq<string>)
    ensures |r| >= 1
    ensures forall i :: 0 <= i < |r| ==> c !in r[i]
  {
    var r := SplitWhere(s, d => IsChar(c, d));
    assert forall i, j :: 0 <= i < |r| && 0 <= j < |r[i]| ==> r[i][j] != c;
    r
  }

  /** Joining the pieces of a split with the separator gives back the string. */
  lemma {:induction false} PySplitJoin(s: string, c: char)
    ensures Join(PySplit(s, c), c) == s
  {
    if s != [] {
      PySplitJoin(s[1..], c);
      var rest := PySplit(s[1..], c);
      if s[0] == c {
        assert PySplit(s, c) == [""] + rest;
        assert ([""] + rest)[1..] == rest;
        assert s == [c] + s[1..];
      } else {
        var r := PySplit(s, c);
        assert r == [[s[0]] + rest[0]] + rest[1..];
        if |rest| == 1 {
          assert s == [s[0]] + rest[0];
        } else {
          assert r[1..] == rest[1..];
          assert Join(rest, c) == rest[0] + [c] + Join(rest[1..], c);
          assert s == [s[0]] + s[1..];
        }
      }
    }
  }

  lemma {:induction false} SplitWhereNone(a: string, sep: char -> bool)
    requires forall j :: 0 <= j < |a| ==> !sep(a[j])
    ensures SplitWhere(a, sep) == [a]
  {
    if a != [] {
      SplitWhereNone(a[1..], sep);
      assert a == [a[0]] + a[1..];
    }
  }

  lemma {:induction false} SplitWhereFirst(a: string, ch: char, b: string, sep: char -> bool)
    requires forall j :: 0 <= j < |a| ==> !sep(a[j])
    requires sep(ch)
    ensures SplitWhere(a + [ch] + b, sep) == [a] + SplitWhere(b, sep)
  {
    if a == [] {
      assert a + [ch] + b == [ch] + b;
      assert ([ch] + b)[1..] == b;
    } else {
      SplitWhereFirst(a[1..], ch, b, sep);
      var s := a + [ch] + b;
      assert s[1..] == a[1..] + [ch] + b;
      assert [a[0]] + a[1..] == a;
    }
  }

  /** Splitting pieces joined on `c`, none of which holds `c`, gives the pieces back. */
  lemma {:induction false} PySplitOfJoin(pieces: seq<string>, c: char)
    requires |pieces| >= 1
    requires forall i :: 0 <= i < |pieces| ==> c !in pieces[i]
    ensures PySplit(Join(pieces, c), c) == pieces
  {
    var sep := d => IsChar(c, d);
    if |pieces| == 1 {
      SplitWhereNone(pieces[0], sep);
    } else {
      PySplitOfJoin(pieces[1..], c);
      SplitWhereFirst(pieces[0], c, Join(pieces[1..], c), sep);
      assert [pieces[0]] + pieces[1..] == pieces;
    }
  }

  function DropTrailingEmpty(pieces: seq<string>): (r: seq<string>)
    ensures |r| <= |pieces|
    ensures r == pieces[..|r|]
    ensures forall i :: |r| <= i < |pieces| ==> pieces[i] == ""
    ensures |r| > 0 ==> r[|r| - 1] != ""
  {
    if pieces == [] then []
    else if pieces[|pieces| - 1] == "" then DropTrailingEmpty(pieces[..|pieces| - 1])
    else pieces
  }

  /**
   * Java's s.split(" ") (a one-character regular expression, limit 0): the
   * pieces between separators with trailing empty pieces removed; a string
   * without the separator gives the one-element array [s].
   */
  function JavaSplit(s: string, c: char): (r: seq<string>)
    ensures c !in s ==> r == [s]
    ensures forall i :: 0 <= i < |r| ==> c !in r[i]
  {
    if c !in s then [s] else DropTrailingEmpty(PySplit(s, c))
  }

  function TrimStartWhere(s: string, strip: char -> bool): (r: string)
    ensures |r| <= |s| && r == s[|s| - |r|..]
    ensures r == [] || !strip(r[0])
    ensures forall i :: 0 <= i < |s| - |r| ==> strip(s[i])
  {
    if s == [] || !strip(s[0]) then s else TrimStartWhere(s[1..], strip)
  }

  function TrimEndWhere(s: string, strip: char -> bool): (r: string)
    ensures |r| <= |s| && r == s[..|r|]
    ensures r == [] || !strip(r[|r| - 1])
    ensures forall i :: |r| <= i < |s| ==> strip(s[i])
  {
    if s == [] || !strip(s[|s| - 1]) then s else TrimEndWhere(s[..|s| - 1], strip)
  }

  /** Java's String.trim. */
  function JavaTrim(s: string): (r: string)
    ensures r == [] || (r[0] > ' ' && r[|r| - 1] > ' ')
  {
    var a := TrimStartWhere(s, IsTrimmedByJava);
    var b := TrimEndWhere(a, IsTrimmedByJava);
    assert b == [] || b[0] == a[0];
    b
  }

  /** Python's str.strip() without arguments. */
  function PyStrip(s: string): (r: string)
    ensures r == [] || (!IsSpace(r[0]) && !IsSpace(r[|r| - 1]))
  {
    var a := TrimStartWhere(s, IsSpace);
    var b := TrimEndWhere(a, IsSpace);
    assert b == [] || b[0] == a[0];
    b
  }

  function NonEmpty(pieces: seq<string>): (r: seq<string>)
    ensures forall i :: 0 <= i < |r| ==> r[i] != ""
    ensures forall i :: 0 <= i < |r| ==> r[i] in pieces
    ensures pieces != [] && pieces[0] != "" ==> r != []
  {
    if pieces == [] then []
    else if pieces[0] == "" then NonEmpty(pieces[1..])
    else [pieces[0]] + NonEmpty(pieces[1..])
  }

  /** Keeping the non-empty pieces keeps a property of every character. */
  lemma {:induction false} NonEmptyChars(pieces: seq<string>, bad: char -> bool)
    requires forall i, j :: 0 <= i < |pieces| && 0 <= j < |pieces[i]| ==> !bad(pieces[i][j])
    ensures var r := NonEmpty(pieces);
            forall i, j :: 0 <= i < |r| && 0 <= j < |r[i]| ==> !bad(r[i][j])
  {
    if pieces != [] {
      NonEmptyChars(pieces[1..], bad);
    }
  }

  /**
   * Java's s.trim().split("\\s+"). After trim the string neither starts nor
   * ends with a `\s` character, so the pieces are exactly its maximal runs
   * of other characters; an empty string gives [""].
   */
  function JavaTrimSplitSpaces(s: string): (r: seq<string>)
    ensures |r| >= 1
    ensures forall i, j :: 0 <= i < |r| && 0 <= j < |r[i]| ==> !IsSpace(r[i][j])
  {
    SplitTrimmed(JavaTrim(s))
  }

  /** The `\s+` split of a Java-trimmed string. */
  function SplitTrimmed(t: string): (r: seq<string>)
    requires t == [] || t[0] > ' '
    ensures |r| >= 1
    ensures forall i, j :: 0 <= i < |r| && 0 <= j < |r[i]| ==> !IsSpace(r[i][j])
  {
    if t == [] then [""] else SpaceWords(t)
  }

  /** The maximal runs of non-space characters of a string that starts with one. */
  function SpaceWords(t: string): (r: seq<string>)
    requires t != [] && !IsSpace(t[0])
    ensures |r| >= 1
    ensures forall i, j :: 0 <= i < |r| && 0 <= j < |r[i]| ==> !IsSpace(r[i][j])
  {
    var pieces := SplitWhere(t, IsSpace);
    FirstPieceNonEmpty(t, IsSpace);
    NonEmptyChars(pieces, IsSpace);
    NonEmpty(pieces)
  }

  lemma FirstPieceNonEmpty(s: string, sep: char -> bool)
    requires s != [] && !sep(s[0])
    ensures SplitWhere(s, sep)[0] != ""
  {
  }

  /** A word of characters above U+0020 followed by a space or by nothing is the first token of the trimmed split. */
  lemma FirstWord(w: string, t: string)
    requires w != [] && forall j :: 0 <= j < |w| ==> w[j] > ' '
    requires t == [] || IsSpace(t[0])
    ensures JavaTrimSplitSpaces(w + t)[0] == w
  {
    var u := JavaTrim(w + t);
    TrimmedStart(w, t);
    FirstWordOfTrimmed(w, u);
  }

  /** Trimming a string that starts with the word `w` keeps `w` and the character after it. */
  lemma TrimmedStart(w: string, t: string)
    requires w != [] && forall j :: 0 <= j < |w| ==> w[j] > ' '
    requires t == [] || IsSpace(t[0])
    ensures var u := JavaTrim(w + t);
            |u| >= |w| && u[..|w|] == w && (|u| > |w| ==> IsSpace(u[|w|]))
  {
    var s := w + t;
    assert s[0] == w[0] && s[|w| - 1] == w[|w| - 1];
    TrimStartKeeps(s);
    TrimEndKeepsPrefix(s, |w|);
    var u := TrimEndWhere(s, IsTrimmedByJava);
    assert JavaTrim(s) == u;
    assert u[..|w|] == s[..|w|] == w;
    if |u| > |w| {
      assert u[|w|] == s[|w|] == t[0];
    }
  }

  /** A string that starts above U+0020 loses nothing at its start. */
  lemma TrimStartKeeps(s: string)
    requires s != [] && s[0] > ' '
    ensures TrimStartWhere(s, IsTrimmedByJava) == s
  {
  }

  /** Trimming the end stops at the last character above U+0020, so it keeps every prefix ending in one. */
  lemma TrimEndKeepsPrefix(s: string, n: nat)
    requires 0 < n <= |s| && s[n - 1] > ' '
    ensures var u := TrimEndWhere(s, IsTrimmedByJava);
            n <= |u| && u == s[..|u|]
  {
    assert !IsTrimmedByJava(s[n - 1]);
  }

  /** The trimmed split of a string made of the word `w` and then a space or nothing starts with `w`. */
  lemma FirstWordOfTrimmed(w: string, u: string)
    requires w != [] && forall j :: 0 <= j < |w| ==> w[j] > ' '
    requires |u| >= |w| && u[..|w|] == w && (|u| > |w| ==> IsSpace(u[|w|]))
    ensures u[0] > ' ' && SplitTrimmed(u)[0] == w
  {
    assert u[0] == w[0];
    assert forall j :: 0 <= j < |w| ==> !IsSpace(w[j]);
    if |u| == |w| {
      assert u == w;
      SplitWhereNone(w, IsSpace);
    } else {
      assert u == w + [u[|w|]] + u[|w| + 1..];
      SplitWhereFirst(w, u[|w|], u[|w| + 1..], IsSpace);
    }
  }


  function ToLowerChar(c: char): (d: char)
    ensures 'A' <= c <= 'Z' ==> 'a' <= d <= 'z'
    ensures !('A' <= c <= 'Z') ==> d == c
  {
    if 'A' <= c <= 'Z' then (c as int - 'A' as int + 'a' as int) as char else c
  }

  /** Python 2's str.lower() on ASCII text. */
  function ToLower(s: string): (r: string)
    ensures |r| == |s| && forall i :: 0 <= i < |s| ==> r[i] == ToLowerChar(s[i])
  {
    if s == [] then [] else [ToLowerChar(s[0])] + ToLower(s[1..])
  }

  /** Each line after a space: what appending " " + line for every line builds. */
  function SpaceJoined(lines: seq<string>): string
  {
    if lines == [] then "" else " " + lines[0] + SpaceJoined(lines[1..])
  }

  predicate StartsWith(s: string, prefix: string)
  {
    |prefix| <= |s| && s[..|prefix|] == prefix
  }

  /** The index of the first `c` in `s`, or -1 (Python's str.find). */
  function Find(s: string, c: char): (r: int)
    ensures -1 <= r < |s|
    ensures r == -1 <==> c !in s
    ensures r >= 0 ==> s[r] == c && c !in s[..r]
  {
    if s == [] then -1
    else if s[0] == c then 0
    else
      var r := Find(s[1..], c);
      assert s[1..] == s[1..];
      if r == -1 then -1 else 1 + r
  }

  predicate IsDigit(c: char) { '0' <= c <= '9' }

  function DigitChar(d: nat): char
    requires d < 10
  {
    ('0' as int + d) as char
  }

  /** The decimal digits of `n`, most significant first (Long.toString of a non-negative value). */
  function NatToString(n: nat): (r: string)
    ensures |r| >= 1
    ensures forall i :: 0 <= i < |r| ==> IsDigit(r[i])
    decreases n
  {
    if n < 10 then [DigitChar(n)] else NatToString(n / 10) + [DigitChar(n % 10)]
  }

  /** Long.toString: a minus sign before the digits of a negative value. */
  function IntToString(n: int): (r: string)
    ensures |r| >= 1 && ' ' !in r
  {
    if n >= 0 then NatToString(n) else "-" + NatToString(-n)
  }

  /** The value of a string of decimal digits. */
  function DigitsValue(s: string): nat
    requires forall i :: 0 <= i < |s| ==> IsDigit(s[i])
  {
    if s == [] then 0
    else
      assert IsDigit(s[|s| - 1]);
      10 * DigitsValue(s[..|s| - 1]) + (s[|s| - 1] as int - '0' as int)
  }

  lemma {:induction false} NatToStringValue(n: nat)
    ensures DigitsValue(NatToString(n)) == n
    decreases n
  {
    if n >= 10 {
      NatToStringValue(n / 10);
      var s := NatToString(n);
      assert s[..|s| - 1] == NatToString(n / 10);
    }
  }
}
