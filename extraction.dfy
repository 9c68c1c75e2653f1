/**
 * Turning the raw completion text into a diagram definition
 * (pages/index.tsx, lines 106-109): split the text into lines, drop every
 * line that starts with the fence marker "```", join the rest with newlines,
 * and accept the result only when it is non-empty and is not the error
 * sentinel that the proxy and the model use for "no diagram".
 */
module Extraction {
  import opened TextLines

  const Newline: char := '\n'

  /** The fence marker that opens and closes a code block. */
  const Fence: string := "```"

  /** The sentinel the model is told to emit for input it cannot use; the proxy also
      falls back to it when the completion has no message content. */
  const UnknownError: string := "UNKNOWN_ERROR"

  /** ECMAScript `String.prototype.startsWith`. */
  predicate StartsWith(s: string, prefix: string)
  {
    prefix <= s
  }

  /** A line dropped by the filter. */
  predicate Fenced(line: string)
  {
    StartsWith(line, Fence)
  }

  /** The lines that survive the filter, in their original order. */
  function KeptLines(lines: seq<string>): (kept: seq<string>)
    ensures |kept| <= |lines|
    ensures forall i :: 0 <= i < |kept| ==> !Fenced(kept[i])
  {
    if lines == [] then []
    else (if Fenced(lines[0]) then [] else [lines[0]]) + KeptLines(lines[1..])
  }

  /** The extraction expression at line 106. */
  function Extract(raw: string): string
  {
    Join(KeptLines(Split(raw, Newline)), Newline)
  }

  /** The acceptance test at lines 107-109. */
  predicate Accepted(text: string)
  {
    |text| > 0 && text != UnknownError
  }

  /** The proxy's reply text: the first choice's message content, or the sentinel
      when the upstream answer has none. */
  function ProxyResult(content: Option<string>): string
  {
    match content
    case Some(text) => text
    case None => UnknownError
  }

  datatype Option<T> = None | Some(value: T)

  /** `xs` can be obtained from `ys` by deleting elements. */
  predicate IsSubsequence<T(==)>(xs: seq<T>, ys: seq<T>)
    decreases |ys|
  {
    if xs == [] then true
    else if ys == [] then false
    else if xs[0] == ys[0] then IsSubsequence(xs[1..], ys[1..])
    else IsSubsequence(xs, ys[1..])
  }

  /** No line of `text` starts with the fence marker. */
  ghost predicate FenceFree(text: string)
  {
    forall i :: 0 <= i < |Split(text, Newline)| ==> !Fenced(Split(text, Newline)[i])
  }

  // ---------------------------------------------------------------------
  // The filter

  /** Filtering distributes over concatenation: the filter keeps relative order. */
  lemma {:induction false} KeptLinesAppend(a: seq<string>, b: seq<string>)
    ensures KeptLines(a + b) == KeptLines(a) + KeptLines(b)
    decreases |a|
  {
    if a != [] {
      assert (a + b)[0] == a[0];
      assert (a + b)[1..] == a[1..] + b;
      KeptLinesAppend(a[1..], b);
    } else {
      assert a + b == b;
    }
  }

  /** A line is kept exactly when it is an input line without a fence. */
  lemma {:induction false} KeptLinesMembers(lines: seq<string>)
    ensures forall x :: x in KeptLines(lines) <==> x in lines && !Fenced(x)
    decreases |lines|
  {
    if lines != [] {
      KeptLinesMembers(lines[1..]);
      assert lines == [lines[0]] + lines[1..];
    }
  }

  /** The kept lines are a subsequence of the input lines. */
  lemma {:induction false} KeptLinesSubsequence(lines: seq<string>)
    ensures IsSubsequence(KeptLines(lines), lines)
    decreases |lines|
  {
    if lines != [] {
      KeptLinesSubsequence(lines[1..]);
      if !Fenced(lines[0]) {
        assert KeptLines(lines) == [lines[0]] + KeptLines(lines[1..]);
        assert KeptLines(lines)[1..] == KeptLines(lines[1..]);
      } else {
        assert KeptLines(lines) == KeptLines(lines[1..]);
        SubsequenceSkip(KeptLines(lines[1..]), lines);
      }
    }
  }

  /** A subsequence of a tail is a subsequence of the whole sequence. */
  lemma {:induction false} SubsequenceSkip<T>(xs: seq<T>, ys: seq<T>)
    requires ys != []
    requires IsSubsequence(xs, ys[1..])
    ensures IsSubsequence(xs, ys)
    decreases |ys|, 0
  {
    if xs != [] && xs[0] == ys[0] {
      SubsequenceTail(xs, ys[1..]);
    }
  }

  /** Dropping the head of a subsequence keeps it a subsequence. */
  lemma {:induction false} SubsequenceTail<T>(xs: seq<T>, ys: seq<T>)
    requires xs != []
    requires IsSubsequence(xs, ys)
    ensures IsSubsequence(xs[1..], ys)
    decreases |ys|, 1
  {
    assert ys != [];
    if xs[0] != ys[0] {
      SubsequenceTail(xs, ys[1..]);
    }
    SubsequenceSkip(xs[1..], ys);
  }

  /** Lines without a fence all survive, in place. */
  lemma {:induction false} KeptLinesAllKept(lines: seq<string>)
    requires forall i :: 0 <= i < |lines| ==> !Fenced(lines[i])
    ensures KeptLines(lines) == lines
    decreases |lines|
  {
    if lines != [] {
      KeptLinesAllKept(lines[1..]);
      assert [lines[0]] + lines[1..] == lines;
    }
  }

  /** Fenced lines are all dropped. */
  lemma {:induction false} KeptLinesAllFenced(lines: seq<string>)
    requires forall i :: 0 <= i < |lines| ==> Fenced(lines[i])
    ensures KeptLines(lines) == []
    decreases |lines|
  {
    if lines != [] {
      KeptLinesAllFenced(lines[1..]);
    }
  }

  // ---------------------------------------------------------------------
  // The extracted text

  /** Read back as lines, the extracted text is exactly the kept lines of the raw text
      (or the single empty line when none is kept). */
  lemma ExtractLines(raw: string)
    ensures Split(Extract(raw), Newline) ==
      (if KeptLines(Split(raw, Newline)) == [] then [[]] else KeptLines(Split(raw, Newline)))
  {
    var lines := Split(raw, Newline);
    var kept := KeptLines(lines);
    if kept != [] {
      KeptLinesMembers(lines);
      forall i | 0 <= i < |kept| ensures Newline !in kept[i] {
        assert kept[i] in lines;
      }
      SplitJoin(kept, Newline);
    }
  }

  /** No line of the extracted text starts with the fence marker. */
  lemma ExtractFenceFree(raw: string)
    ensures FenceFree(Extract(raw))
  {
    ExtractLines(raw);
  }

  /** Extracting twice gives the same text as extracting once. */
  lemma ExtractIdempotent(raw: string)
    ensures Extract(Extract(raw)) == Extract(raw)
  {
    var kept := KeptLines(Split(raw, Newline));
    ExtractLines(raw);
    if kept != [] {
      KeptLinesAllKept(kept);
    }
  }

  /** A raw text with no fenced line comes out unchanged. */
  lemma ExtractUnfenced(raw: string)
    requires FenceFree(raw)
    ensures Extract(raw) == raw
  {
    KeptLinesAllKept(Split(raw, Newline));
    JoinSplit(raw, Newline);
  }

  /** A raw text whose every line is fenced comes out empty. */
  lemma ExtractAllFenced(raw: string)
    requires forall i :: 0 <= i < |Split(raw, Newline)| ==> Fenced(Split(raw, Newline)[i])
    ensures Extract(raw) == []
  {
    KeptLinesAllFenced(Split(raw, Newline));
  }

  /** The filter drops the two fence lines around a block of plain lines. */
  lemma KeptFencedBlock(body: seq<string>)
    requires forall i :: 0 <= i < |body| ==> !Fenced(body[i])
    ensures KeptLines([Fence] + body + [Fence]) == body
  {
    KeptLinesAppend([Fence] + body, [Fence]);
    KeptLinesAppend([Fence], body);
    KeptLinesAllKept(body);
    assert Fenced(Fence);
  }

  /** Framing plain lines with fence lines adds no separator. */
  lemma FencedBlockSeparatorFree(body: seq<string>)
    requires SeparatorFree(body, Newline)
    ensures SeparatorFree([Fence] + body + [Fence], Newline)
  {
    var lines := [Fence] + body + [Fence];
    assert Newline !in Fence;
    forall i | 0 <= i < |lines| ensures Newline !in lines[i] {
      if 0 < i < |lines| - 1 {
        assert lines[i] == body[i - 1];
      }
    }
  }

  /** A block of plain lines between two fence lines extracts to the block's interior. */
  lemma ExtractFencedBlock(body: seq<string>)
    requires SeparatorFree(body, Newline)
    requires forall i :: 0 <= i < |body| ==> !Fenced(body[i])
    ensures Extract(Join([Fence] + body + [Fence], Newline)) == Join(body, Newline)
  {
    FencedBlockSeparatorFree(body);
    SplitJoin([Fence] + body + [Fence], Newline);
    KeptFencedBlock(body);
  }

  /** The example reply written as its lines. */
  lemma FencedExampleLines(raw: string)
    requires raw == "```\nA->>B: Request\nB->>A: Response\n```"
    ensures raw == Join([Fence, "A->>B: Request", "B->>A: Response", Fence], Newline)
  {
    var request, response := "A->>B: Request", "B->>A: Response";
    FencedExampleHalves(raw);
    FencedExampleHead();
    FencedExampleTail();
    calc {
      Join([Fence, request, response, Fence], Newline);
      Fence + [Newline] + Join([request, response, Fence], Newline);
      Fence + [Newline] + (request + [Newline] + Join([response, Fence], Newline));
      Fence + [Newline] + (request + [Newline] + (response + [Newline] + Fence));
      (Fence + [Newline] + request + [Newline]) + (response + [Newline] + Fence);
    }
  }

  // The three literal equalities below are kept as separate lemmas rather than
  // asserts in `FencedExampleLines`: each literal unfolds into a chain of
  // sequence terms, and with all of them in one proof the solver's cost nears
  // its resource limit on some seeds.

  /** The example reply cut after its first message line. */
  lemma FencedExampleHalves(raw: string)
    requires raw == "```\nA->>B: Request\nB->>A: Response\n```"
    ensures raw == "```\nA->>B: Request\n" + "B->>A: Response\n```"
  {
  }

  /** The first half: the opening fence and the request line. */
  lemma FencedExampleHead()
    ensures "```\nA->>B: Request\n" == Fence + [Newline] + "A->>B: Request" + [Newline]
  {
  }

  /** The second half: the response line and the closing fence. */
  lemma FencedExampleTail()
    ensures "B->>A: Response\n```" == "B->>A: Response" + [Newline] + Fence
  {
  }

  /** The two message lines of the example hold no newline and no fence. */
  lemma ExampleMessagesPlain(body: seq<string>)
    requires body == ["A->>B: Request", "B->>A: Response"]
    ensures SeparatorFree(body, Newline)
    ensures forall i :: 0 <= i < |body| ==> !Fenced(body[i])
  {
    assert body[0][0] != Fence[0] && body[1][0] != Fence[0];
  }

  /** A fenced block of two message lines extracts to its two interior lines. */
  lemma ExtractFencedExample(raw: string)
    requires raw == "```\nA->>B: Request\nB->>A: Response\n```"
    ensures Extract(raw) == "A->>B: Request\nB->>A: Response"
  {
    var body := ["A->>B: Request", "B->>A: Response"];
    FencedExampleLines(raw);
    assert [Fence, body[0], body[1], Fence] == [Fence] + body + [Fence];
    ExampleMessagesPlain(body);
    ExtractFencedBlock(body);
    assert Join(body, Newline) == body[0] + [Newline] + body[1];
  }

  /** A reply that is the sentinel, or the proxy's fallback for a missing message,
      is not accepted as a diagram. */
  lemma SentinelRejected(content: Option<string>)
    requires content == None || content == Some(UnknownError)
    ensures Extract(ProxyResult(content)) == UnknownError
    ensures !Accepted(Extract(ProxyResult(content)))
  {
    SplitLine(UnknownError, Newline);
    assert !Fenced(UnknownError) by { assert UnknownError[0] != Fence[0]; }
  }

  /** An accepted diagram is made of exactly the unfenced lines of the raw reply, of
      which there is at least one. */
  lemma AcceptedExtraction(raw: string)
    requires Accepted(Extract(raw))
    ensures KeptLines(Split(raw, Newline)) != []
    ensures Split(Extract(raw), Newline) == KeptLines(Split(raw, Newline))
  {
    ExtractLines(raw);
  }
}
