/**
 * The JavaScript string operations the visualizer relies on:
 * `String.prototype.split` with a one-character separator, `trim`, and
 * `toUpperCase` (on ASCII letters).
 */
module Text {

  /** No character of s is c. */
  predicate Free(s: string, c: char) { forall k :: 0 <= k < |s| ==> s[k] != c }

  /**
   * `s.split(sep)`: the pieces between occurrences of sep, in order. The
   * empty string splits into one empty piece; a trailing separator leaves
   * an empty last piece.
   */
  function Split(s: string, sep: char): (r: seq<string>)
    ensures |r| >= 1
    ensures forall k :: 0 <= k < |r| ==> Free(r[k], sep)
  {
    if s == [] then [""]
    else
      var rest := Split(s[1..], sep);
      if s[0] == sep then [""] + rest else [[s[0]] + rest[0]] + rest[1..]
  }

  /** `pieces.join(sep)`, the inverse of Split. */
  function Join(pieces: seq<string>, sep: char): string
    requires |pieces| >= 1
  {
    if |pieces| == 1 then pieces[0] else pieces[0] + [sep] + Join(pieces[1..], sep)
  }

  /** A piece free of the separator, followed by the separator, splits off as one piece. */
  lemma {:induction false} SplitTerminated(line: string, sep: char, rest: string)
    requires Free(line, sep)
    ensures Split(line + [sep] + rest, sep) == [line] + Split(rest, sep)
  {
    if line != [] {
      assert (line + [sep] + rest)[1..] == line[1..] + [sep] + rest;
      SplitTerminated(line[1..], sep, rest);
      assert [line[0]] + line[1..] == line;
    }
  }

  /** Splitting and joining again gives back the original text. */
  lemma {:induction false} JoinSplit(s: string, sep: char)
    ensures Join(Split(s, sep), sep) == s
  {
    if s != [] {
      JoinSplit(s[1..], sep);
      var rest := Split(s[1..], sep);
      if s[0] != sep && |rest| > 1 {
        assert ([[s[0]] + rest[0]] + rest[1..])[1..] == rest[1..];
      }
    }
  }

  /** White space and line terminators as `String.prototype.trim` removes them. */
  predicate IsJsWhitespace(c: char)
  {
    c == ' ' || c == '\t' || c == '\n' || c == '\r' || c == '\U{B}' || c == '\U{C}'
    || c == '\U{A0}' || c == '\U{1680}' || ('\U{2000}' <= c <= '\U{200A}')
    || c == '\U{2028}' || c == '\U{2029}' || c == '\U{202F}' || c == '\U{205F}'
    || c == '\U{3000}' || c == '\U{FEFF}'
  }

  function TrimStart(s: string): (r: string)
    ensures |r| <= |s|
    ensures r != [] ==> !IsJsWhitespace(r[0])
    ensures forall k :: 0 <= k < |s| - |r| ==> IsJsWhitespace(s[k])
  {
    if s != [] && IsJsWhitespace(s[0]) then TrimStart(s[1..]) else s
  }

  /** What `TrimStart` keeps is a suffix of its input. */
  lemma {:induction false} TrimStartSuffix(s: string)
    ensures TrimStart(s) == s[|s| - |TrimStart(s)|..]
  {
    if s != [] && IsJsWhitespace(s[0]) {
      TrimStartSuffix(s[1..]);
    }
  }

  function TrimEnd(s: string): (r: string)
    ensures |r| <= |s| && r == s[..|r|]
    ensures r != [] ==> !IsJsWhitespace(r[|r| - 1])
    ensures forall k :: |r| <= k < |s| ==> IsJsWhitespace(s[k])
  {
    if s != [] && IsJsWhitespace(s[|s| - 1]) then TrimEnd(s[..|s| - 1]) else s
  }

  /** `s.trim()`: s without leading and trailing white space. */
  function Trim(s: string): (r: string)
    ensures r == [] <==> forall k :: 0 <= k < |s| ==> IsJsWhitespace(s[k])
    ensures r != [] ==> !IsJsWhitespace(r[0]) && !IsJsWhitespace(r[|r| - 1])
  {
    TrimStartSuffix(s);
    TrimEnd(TrimStart(s))
  }

  /** Every character of s outside s[a..b] is white space. */
  predicate WhiteOutside(s: string, a: int, b: int)
  {
    forall k :: 0 <= k < |s| && !(a <= k < b) ==> IsJsWhitespace(s[k])
  }

  /** The first n characters after the first a are the slice from a to a + n. */
  lemma TakeOfDrop(s: string, a: nat, n: nat)
    requires a + n <= |s|
    ensures s[a..][..n] == s[a..a + n]
  {
  }

  /** `trim` keeps one slice of the text, with only white space around it. */
  lemma {:induction false} TrimSlice(s: string)
    ensures exists a, b :: 0 <= a <= b <= |s| && Trim(s) == s[a..b] && WhiteOutside(s, a, b)
  {
    TrimStartSuffix(s);
    var t := TrimStart(s);
    var a := |s| - |t|;
    var kept := TrimEnd(t);
    var b := a + |kept|;
    assert kept == s[a..b] by {
      assert kept == t[..|kept|];
      assert t == s[a..];
      TakeOfDrop(s, a, |kept|);
    }
    assert WhiteOutside(s, a, b) by {
      forall k | 0 <= k < |s| && !(a <= k < b) ensures IsJsWhitespace(s[k]) {
        if k >= b {
          assert s[k] == t[k - a];
        }
      }
    }
  }

  predicate IsAsciiLetter(c: char) { 'a' <= c <= 'z' || 'A' <= c <= 'Z' }

  /** `/^[ a-z]+$/i.test(s)`: s is non-empty and made of letters and spaces. */
  predicate IsLettersAndSpaces(s: string)
  {
    |s| > 0 && forall k :: 0 <= k < |s| ==> IsAsciiLetter(s[k]) || s[k] == ' '
  }

  /** `s.toUpperCase()` on ASCII letters; other characters are kept. */
  function Upper(s: string): (r: string)
    ensures |r| == |s|
    ensures forall k :: 0 <= k < |s| ==>
      r[k] == if 'a' <= s[k] <= 'z' then (s[k] as int - 32) as char else s[k]
  {
    if s == [] then []
    else [if 'a' <= s[0] <= 'z' then (s[0] as int - 32) as char else s[0]] + Upper(s[1..])
  }
}
