/**
 * ECMAScript `String.prototype.split` and `Array.prototype.join` with a
 * one-character separator, on strings modelled as sequences of characters.
 * Splitting the empty string gives one empty line, as in JavaScript
 * (`"".split("\n")` is `[""]`), so a split never returns an empty sequence.
 */
module TextLines {

  /** The pieces of `s` between occurrences of `sep`, in order. */
  function Split(s: string, sep: char): (lines: seq<string>)
    ensures |lines| >= 1
    ensures forall i :: 0 <= i < |lines| ==> sep !in lines[i]
    decreases |s|
  {
    if s == [] then [[]]
    else
      var rest := Split(s[1..], sep);
      if s[0] == sep then [[]] + rest
      else [[s[0]] + rest[0]] + rest[1..]
  }

  /** The lines glued together with one `sep` between neighbours. */
  function Join(lines: seq<string>, sep: char): string
  {
    if |lines| == 0 then []
    else if |lines| == 1 then lines[0]
    else lines[0] + [sep] + Join(lines[1..], sep)
  }

  /** No line holds the separator. */
  ghost predicate SeparatorFree(lines: seq<string>, sep: char)
  {
    forall i :: 0 <= i < |lines| ==> sep !in lines[i]
  }

  /** Joining the pieces of a split gives back the original text. */
  lemma {:induction false} JoinSplit(s: string, sep: char)
    ensures Join(Split(s, sep), sep) == s
    decreases |s|
  {
    if s != [] {
      var rest := Split(s[1..], sep);
      JoinSplit(s[1..], sep);
      if s[0] == sep {
        assert Split(s, sep) == [[]] + rest;
        assert Join([[]] + rest, sep) == [] + [sep] + Join(rest, sep);
      } else if |rest| == 1 {
        assert Split(s, sep) == [[s[0]] + rest[0]];
        assert Join(rest, sep) == rest[0];
      } else {
        assert Split(s, sep) == [[s[0]] + rest[0]] + rest[1..];
        assert Join(rest, sep) == rest[0] + [sep] + Join(rest[1..], sep);
        assert ([[s[0]] + rest[0]] + rest[1..])[1..] == rest[1..];
      }
    }
  }

  /** Splitting a text whose first piece `line` holds no separator. */
  lemma {:induction false} SplitPrefix(line: string, tail: string, sep: char)
    requires sep !in line
    ensures Split(line + tail, sep) == [line + Split(tail, sep)[0]] + Split(tail, sep)[1..]
    decreases |line|
  {
    if line != [] {
      assert (line + tail)[1..] == line[1..] + tail;
      assert (line + tail)[0] == line[0] != sep;
      SplitPrefix(line[1..], tail, sep);
      assert [line[0]] + (line[1..] + Split(tail, sep)[0]) == line + Split(tail, sep)[0];
    } else {
      var pieces := Split(tail, sep);
      assert line + tail == tail && line + pieces[0] == pieces[0];
      assert [pieces[0]] + pieces[1..] == pieces;
    }
  }

  /** A line without the separator splits to itself. */
  lemma SplitLine(line: string, sep: char)
    requires sep !in line
    ensures Split(line, sep) == [line]
  {
    SplitPrefix(line, [], sep);
    assert line + [] == line;
  }

  /** Splitting undoes joining, for at least one line and no line holding the separator. */
  lemma {:induction false} SplitJoin(lines: seq<string>, sep: char)
    requires |lines| >= 1
    requires SeparatorFree(lines, sep)
    ensures Split(Join(lines, sep), sep) == lines
    decreases |lines|
  {
    if |lines| == 1 {
      SplitLine(lines[0], sep);
    } else {
      var tail := Join(lines[1..], sep);
      SplitJoin(lines[1..], sep);
      assert sep !in lines[0];
      SplitPrefix(lines[0], [sep] + tail, sep);
      assert lines[0] + [sep] + tail == lines[0] + ([sep] + tail);
      assert ([sep] + tail)[1..] == tail;
      assert Split([sep] + tail, sep) == [[]] + lines[1..];
      assert lines[0] + [] == lines[0];
    }
  }
}

/**
 * ECMAScript `String.prototype.trim`: strip white space and line terminators
 * from both ends of a string.
 */
module Trimming {

  /** The characters of the ECMAScript WhiteSpace and LineTerminator productions. */
  predicate IsSpace(c: char)
  {
    c == '\t' || c == '\n' || c == '\U{000B}' || c == '\U{000C}' || c == '\r' || c == ' '
    || c == '\U{00A0}' || c == '\U{1680}' || ('\U{2000}' <= c <= '\U{200A}')
    || c == '\U{2028}' || c == '\U{2029}' || c == '\U{202F}' || c == '\U{205F}'
    || c == '\U{3000}' || c == '\U{FEFF}'
  }

  /** `s` without its leading white space. */
  function TrimStart(s: string): (r: string)
    ensures |r| <= |s| && r == s[|s| - |r|..]
    ensures forall i :: 0 <= i < |s| - |r| ==> IsSpace(s[i])
    ensures r == [] || !IsSpace(r[0])
    decreases |s|
  {
    if s != [] && IsSpace(s[0]) then TrimStart(s[1..]) else s
  }

  /** `s` without its trailing white space. */
  function TrimEnd(s: string): (r: string)
    ensures |r| <= |s| && r == s[..|r|]
    ensures forall i :: |r| <= i < |s| ==> IsSpace(s[i])
    ensures r == [] || !IsSpace(r[|r| - 1])
    decreases |s|
  {
    if s != [] && IsSpace(s[|s| - 1]) then TrimEnd(s[..|s| - 1]) else s
  }

  function Trim(s: string): string
  {
    TrimEnd(TrimStart(s))
  }

  /** Some character of `s` is not white space. */
  ghost predicate HasVisibleChar(s: string)
  {
    exists i :: 0 <= i < |s| && !IsSpace(s[i])
  }

  /** The trimmed text is non-empty exactly when the text has a visible character. */
  lemma TrimNonEmpty(s: string)
    ensures |Trim(s)| > 0 <==> HasVisibleChar(s)
  {
    var t := TrimStart(s);
    var r := TrimEnd(t);
    var k := |s| - |t|;
    if |r| > 0 {
      assert r[|r| - 1] == t[|r| - 1] == s[k + |r| - 1];
    }
    if HasVisibleChar(s) {
      var i :| 0 <= i < |s| && !IsSpace(s[i]);
      assert k <= i;
      assert t[i - k] == s[i];
      assert i - k < |r|;
    }
  }
}
