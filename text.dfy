/**
 * The string operations the analyzer relies on: Python's `str.strip()`,
 * `str.splitlines()` and `str.replace()`, and splitting and joining at a
 * separator character.
 */
module Text {

  /** The characters for which Python's `str.isspace()` holds; `str.strip()` removes these. */
  predicate IsSpace(c: char) {
    || ('\t' <= c <= '\r')                 // tab, line feed, vertical tab, form feed, carriage return
    || ('\U{1C}' <= c <= '\U{1F}')         // file, group, record and unit separators
    || c == ' '
    || c == '\U{85}' || c == '\U{A0}' || c == '\U{1680}'
    || ('\U{2000}' <= c <= '\U{200A}')
    || c == '\U{2028}' || c == '\U{2029}' || c == '\U{202F}' || c == '\U{205F}' || c == '\U{3000}'
  }

  /** The characters at which Python's `str.splitlines()` ends a line. */
  predicate IsLineBreak(c: char) {
    || ('\n' <= c <= '\r')                 // line feed, vertical tab, form feed, carriage return
    || ('\U{1C}' <= c <= '\U{1E}')
    || c == '\U{85}' || c == '\U{2028}' || c == '\U{2029}'
  }

  /** The index of the first non-white-space character of `s` at or after `i`, or `|s|`. */
  function SkipSpace(s: string, i: nat): (j: nat)
    requires i <= |s|
    ensures i <= j <= |s|
    ensures forall k :: i <= k < j ==> IsSpace(s[k])
    ensures j < |s| ==> !IsSpace(s[j])
    decreases |s| - i
  {
    if i < |s| && IsSpace(s[i]) then SkipSpace(s, i + 1) else i
  }

  /** The end of `s[lo..hi]` once its trailing white space is dropped. */
  function SkipSpaceBack(s: string, lo: nat, hi: nat): (j: nat)
    requires lo <= hi <= |s|
    ensures lo <= j <= hi
    ensures forall k :: j <= k < hi ==> IsSpace(s[k])
    ensures j > lo ==> !IsSpace(s[j - 1])
  {
    if hi > lo && IsSpace(s[hi - 1]) then SkipSpaceBack(s, lo, hi - 1) else hi
  }

  /** `r` is the slice of `s` starting at `lo` with only white space around it. */
  predicate StripsTo(s: string, lo: nat, r: string) {
    && lo + |r| <= |s|
    && r == s[lo..lo + |r|]
    && (forall k :: 0 <= k < lo ==> IsSpace(s[k]))
    && (forall k :: lo + |r| <= k < |s| ==> IsSpace(s[k]))
  }

  /**
   * Python's `s.strip()`: the slice of `s` that remains once white space is
   * removed from both ends. Everything removed is white space, and the
   * result neither starts nor ends with white space.
   */
  function Strip(s: string): (r: string)
    ensures exists lo :: StripsTo(s, lo, r)
    ensures r != [] ==> !IsSpace(r[0]) && !IsSpace(r[|r| - 1])
  {
    var lo := SkipSpace(s, 0);
    var hi := SkipSpaceBack(s, lo, |s|);
    var r := s[lo..hi];
    assert lo + |r| == hi;
    assert StripsTo(s, lo, r);
    assert r != [] ==> r[0] == s[lo] && r[|r| - 1] == s[hi - 1];
    r
  }

  /**
   * The pieces of `s` between line breaks. This differs from Python's
   * `s.splitlines()` only in empty pieces: a "\r\n" pair and a final line
   * break each give one more empty piece here, and the empty string gives
   * one empty piece where Python gives none. The non-empty pieces, the
   * only ones the analyzer uses, are the same.
   */
  function Lines(s: string): (lines: seq<string>)
    ensures |lines| >= 1
    ensures forall i, j :: 0 <= i < |lines| && 0 <= j < |lines[i]| ==> !IsLineBreak(lines[i][j])
  {
    if s == [] then [""]
    else if IsLineBreak(s[0]) then [""] + Lines(s[1..])
    else var rest := Lines(s[1..]); [[s[0]] + rest[0]] + rest[1..]
  }

  /** Splits `s` at every occurrence of `sep`; there is always at least one piece. */
  function Split(s: string, sep: char): (parts: seq<string>)
    ensures |parts| >= 1
    ensures forall i :: 0 <= i < |parts| ==> sep !in parts[i]
  {
    if s == [] then [""]
    else if s[0] == sep then [""] + Split(s[1..], sep)
    else var rest := Split(s[1..], sep); [[s[0]] + rest[0]] + rest[1..]
  }

  /** The pieces of `parts` with `sep` between each two of them. */
  function Join(parts: seq<string>, sep: char): string {
    if parts == [] then ""
    else if |parts| == 1 then parts[0]
    else parts[0] + [sep] + Join(parts[1..], sep)
  }

  /** Joining the pieces of a split at the same separator gives back the string. */
  lemma {:induction false} JoinSplit(s: string, sep: char)
    ensures Join(Split(s, sep), sep) == s
  {
    if s == [] {
    } else if s[0] == sep {
      var rest := Split(s[1..], sep);
      JoinSplit(s[1..], sep);
      assert Split(s, sep) == [""] + rest;
      assert ([""] + rest)[1..] == rest;
      assert s == [sep] + s[1..];
    } else {
      var rest := Split(s[1..], sep);
      JoinSplit(s[1..], sep);
      var parts := [[s[0]] + rest[0]] + rest[1..];
      assert Split(s, sep) == parts;
      if |rest| > 1 {
        assert parts[1..] == rest[1..];
      }
      assert s == [s[0]] + s[1..];
    }
  }

  /** Splitting a string that starts with a separator-free piece `a`. */
  lemma {:induction false} SplitAfterPiece(a: string, t: string, sep: char)
    requires sep !in a
    ensures Split(a + t, sep) == [a + Split(t, sep)[0]] + Split(t, sep)[1..]
  {
    if a == [] {
      assert a + t == t;
      var r := Split(t, sep);
      assert a + r[0] == r[0];
      assert [r[0]] + r[1..] == r;
    } else {
      SplitAfterPiece(a[1..], t, sep);
      assert (a + t)[0] == a[0];
      assert (a + t)[1..] == a[1..] + t;
      assert [a[0]] + (a[1..] + Split(t, sep)[0]) == a + Split(t, sep)[0];
    }
  }

  /** Splitting a join of separator-free pieces gives back the pieces. */
  lemma {:induction false} SplitJoin(parts: seq<string>, sep: char)
    requires |parts| >= 1
    requires forall i :: 0 <= i < |parts| ==> sep !in parts[i]
    ensures Split(Join(parts, sep), sep) == parts
  {
    if |parts| == 1 {
      SplitAfterPiece(parts[0], "", sep);
      assert parts[0] + "" == parts[0];
    } else {
      var tail := Join(parts[1..], sep);
      SplitJoin(parts[1..], sep);
      var t := [sep] + tail;
      assert t[1..] == tail;
      assert Split(t, sep) == [""] + parts[1..];
      SplitAfterPiece(parts[0], t, sep);
      assert Join(parts, sep) == parts[0] + t;
      assert parts[0] + "" == parts[0];
      assert parts == [parts[0]] + parts[1..];
    }
  }

  /** Lines that are free of line breaks, joined with "\n", split back into the same lines. */
  lemma {:induction false} LinesJoin(lines: seq<string>)
    requires |lines| >= 1
    requires forall i, j :: 0 <= i < |lines| && 0 <= j < |lines[i]| ==> !IsLineBreak(lines[i][j])
    ensures Lines(Join(lines, '\n')) == lines
  {
    if |lines| == 1 {
      LinesAfterPiece(lines[0], "");
      assert lines[0] + "" == lines[0];
    } else {
      var tail := Join(lines[1..], '\n');
      LinesJoin(lines[1..]);
      var t := ['\n'] + tail;
      assert t[1..] == tail;
      assert Lines(t) == [""] + lines[1..];
      LinesAfterPiece(lines[0], t);
      assert Join(lines, '\n') == lines[0] + t;
      assert lines[0] + "" == lines[0];
      assert lines == [lines[0]] + lines[1..];
    }
  }

  /** Splitting into lines a string that starts with a line-break-free piece `a`. */
  lemma {:induction false} LinesAfterPiece(a: string, t: string)
    requires forall j :: 0 <= j < |a| ==> !IsLineBreak(a[j])
    ensures Lines(a + t) == [a + Lines(t)[0]] + Lines(t)[1..]
  {
    if a == [] {
      assert a + t == t;
      var r := Lines(t);
      assert a + r[0] == r[0];
      assert [r[0]] + r[1..] == r;
    } else {
      LinesAfterPiece(a[1..], t);
      assert (a + t)[0] == a[0];
      assert (a + t)[1..] == a[1..] + t;
      assert [a[0]] + (a[1..] + Lines(t)[0]) == a + Lines(t)[0];
    }
  }

  /** `s` with every line-break character replaced by "\n". */
  function MapBreaks(s: string): (r: string)
    ensures |r| == |s|
    ensures forall i :: 0 <= i < |s| ==> r[i] == if IsLineBreak(s[i]) then '\n' else s[i]
  {
    if s == [] then [] else [if IsLineBreak(s[0]) then '\n' else s[0]] + MapBreaks(s[1..])
  }

  /**
   * What the pieces are: every line-break character separates two pieces,
   * whichever of Python's line breaks it is.
   */
  lemma {:induction false} LinesSplit(s: string)
    ensures Lines(s) == Split(MapBreaks(s), '\n')
  {
    if s != [] {
      LinesSplit(s[1..]);
      var m := MapBreaks(s);
      assert m[0] == (if IsLineBreak(s[0]) then '\n' else s[0]);
      assert m[1..] == MapBreaks(s[1..]);
    }
  }

  /** `s` with every `from` character replaced by `to`, as Python's `s.replace(from, to)`. */
  function Replace(s: string, from: char, to: char): (r: string)
    ensures |r| == |s|
    ensures forall i :: 0 <= i < |s| ==> r[i] == if s[i] == from then to else s[i]
  {
    if s == [] then [] else [if s[0] == from then to else s[0]] + Replace(s[1..], from, to)
  }
}
