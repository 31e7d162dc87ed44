/** Line framing of the stdout stream of a tool server: the buffer is split on
    '\n', every complete line is handed on and the text after the last '\n'
    is kept for the next chunk. */
module Framing {

  function Init<T>(s: seq<T>): seq<T>
    requires |s| >= 1
  {
    s[..|s| - 1]
  }

  function Last<T>(s: seq<T>): T
    requires |s| >= 1
  {
    s[|s| - 1]
  }

  predicate NoNewline(s: string) {
    forall i :: 0 <= i < |s| ==> s[i] != '\n'
  }

  /** Appending one character to the text the parts of `p` were split from. */
  function Step(p: seq<string>, c: char): (r: seq<string>)
    requires |p| >= 1
    ensures |r| >= 1
  {
    if c == '\n' then p + [""] else Init(p) + [Last(p) + [c]]
  }

  /** JavaScript's `s.split('\n')`: the maximal newline-free pieces of `s`, in
      order; there is always at least one (the empty string splits to [""]). */
  function Split(s: string): (parts: seq<string>)
    ensures |parts| >= 1
    decreases |s|
  {
    if s == [] then [""] else Step(Split(Init(s)), Last(s))
  }

  /** The inverse of Split: the pieces joined with '\n'. */
  function JoinLines(parts: seq<string>): string
    decreases |parts|
  {
    if |parts| == 0 then ""
    else if |parts| == 1 then parts[0]
    else JoinLines(Init(parts)) + "\n" + Last(parts)
  }

  /** The complete lines of `s`: every piece that a '\n' terminates. */
  function CompleteLines(s: string): seq<string> {
    Init(Split(s))
  }

  /** The text after the last '\n' of `s` (all of `s` when it has none). */
  function Residue(s: string): string {
    Last(Split(s))
  }

  /** JavaScript's whitespace and line terminators, the characters `trim`
      removes. */
  predicate IsJsWhitespace(c: char) {
    || c == '\t' || c == '\n' || c == '\U{B}' || c == '\U{C}' || c == '\r'
    || c == ' ' || c == '\U{A0}' || c == '\U{1680}'
    || ('\U{2000}' <= c <= '\U{200A}')
    || c == '\U{2028}' || c == '\U{2029}' || c == '\U{202F}' || c == '\U{205F}'
    || c == '\U{3000}' || c == '\U{FEFF}'
  }

  /** `line.trim()` is the empty string, so the line is falsy and skipped. */
  predicate IsBlank(line: string) {
    forall i :: 0 <= i < |line| ==> IsJsWhitespace(line[i])
  }

  /** The lines that are handed on to the JSON parser, in order. */
  function NonBlank(lines: seq<string>): (r: seq<string>)
    ensures forall i :: 0 <= i < |r| ==> !IsBlank(r[i])
    decreases |lines|
  {
    if lines == [] then []
    else if IsBlank(Last(lines)) then NonBlank(Init(lines))
    else NonBlank(Init(lines)) + [Last(lines)]
  }

  // ---------------------------------------------------------------------
  // Split and JoinLines are inverse to each other

  lemma StepAppend(p: seq<string>, q: seq<string>, c: char)
    requires |q| >= 1
    ensures Step(p + q, c) == p + Step(q, c)
  {
    assert Init(p + q) == p + Init(q);
    assert Last(p + q) == Last(q);
  }

  /** No piece of a split contains a '\n'. */
  lemma {:induction false} SplitPiecesHaveNoNewline(s: string)
    ensures forall i :: 0 <= i < |Split(s)| ==> NoNewline(Split(s)[i])
    decreases |s|
  {
    if s != [] {
      SplitPiecesHaveNoNewline(Init(s));
    }
  }

  /** A newline-free text is a single piece. */
  lemma {:induction false} SplitOfLine(s: string)
    requires NoNewline(s)
    ensures Split(s) == [s]
    decreases |s|
  {
    if s != [] {
      SplitOfLine(Init(s));
      assert Init(s) + [Last(s)] == s;
    }
  }

  /** Joining the pieces with '\n' gives back the text. */
  lemma {:induction false} JoinSplit(s: string)
    ensures JoinLines(Split(s)) == s
    decreases |s|
  {
    if s != [] {
      var p := Split(Init(s));
      JoinSplit(Init(s));
      if Last(s) == '\n' {
        assert Init(p + [""]) == p;
      } else {
        var q := Step(p, Last(s));
        assert Init(q) == Init(p) && Last(q) == Last(p) + [Last(s)];
        if |p| == 1 {
        } else {
          assert JoinLines(p) == JoinLines(Init(p)) + "\n" + Last(p);
        }
      }
      assert Init(s) + [Last(s)] == s;
    }
  }

  /** Residue is what follows the last '\n': it has no '\n', and it is either
      the whole text or preceded by one. */
  lemma ResidueIsAfterLastNewline(s: string)
    ensures NoNewline(Residue(s))
    ensures |Residue(s)| <= |s| && s[|s| - |Residue(s)|..] == Residue(s)
    ensures Residue(s) == s || s[|s| - |Residue(s)| - 1] == '\n'
  {
    SplitPiecesHaveNoNewline(s);
    JoinSplit(s);
    var p := Split(s);
    if |p| > 1 {
      assert s == JoinLines(Init(p)) + "\n" + Last(p);
    }
  }

  // ---------------------------------------------------------------------
  // Framing does not depend on chunk boundaries

  /** Splitting `a + b` splits `a`, keeps its complete lines and goes on from
      its residue. */
  lemma {:induction false} SplitConcat(a: string, b: string)
    ensures Split(a + b) == CompleteLines(a) + Split(Residue(a) + b)
    decreases |b|
  {
    if b == [] {
      ResidueIsAfterLastNewline(a);
      SplitOfLine(Residue(a));
      assert a + b == a && Residue(a) + b == Residue(a);
    } else {
      SplitConcat(a, Init(b));
      assert Init(a + b) == a + Init(b);
      assert Last(a + b) == Last(b);
      assert Init(Residue(a) + b) == Residue(a) + Init(b);
      assert Last(Residue(a) + b) == Last(b);
      StepAppend(CompleteLines(a), Split(Residue(a) + Init(b)), Last(b));
    }
  }

  lemma CompleteLinesConcat(a: string, b: string)
    ensures CompleteLines(a + b) == CompleteLines(a) + CompleteLines(Residue(a) + b)
    ensures Residue(a + b) == Residue(Residue(a) + b)
  {
    SplitConcat(a, b);
    var q := Split(Residue(a) + b);
    assert Init(CompleteLines(a) + q) == CompleteLines(a) + Init(q);
  }

  /** The text of the chunks, in order. */
  function Concat(chunks: seq<string>): string
    decreases |chunks|
  {
    if chunks == [] then "" else Concat(Init(chunks)) + Last(chunks)
  }

  /** Feeding `chunks` one after another to a buffer: the complete lines each
      step yields, in order, and the buffer left at the end. */
  function Feed(buffer: string, chunks: seq<string>): (string, seq<string>)
    decreases |chunks|
  {
    if chunks == [] then (buffer, [])
    else
      var (rest, lines) := Feed(buffer, Init(chunks));
      (Residue(rest + Last(chunks)), lines + CompleteLines(rest + Last(chunks)))
  }

  /** Feeding c1, ..., cn one by one yields the same complete lines and leaves
      the same buffer as feeding c1 + ... + cn at once. */
  lemma {:induction false} FeedIsChunkIndependent(buffer: string, chunks: seq<string>)
    requires NoNewline(buffer)
    ensures Feed(buffer, chunks).0 == Residue(buffer + Concat(chunks))
    ensures Feed(buffer, chunks).1 == CompleteLines(buffer + Concat(chunks))
    decreases |chunks|
  {
    if chunks == [] {
      SplitOfLine(buffer);
      assert buffer + Concat(chunks) == buffer;
    } else {
      var init, c := Init(chunks), Last(chunks);
      FeedIsChunkIndependent(buffer, init);
      var a := buffer + Concat(init);
      ConcatAssoc(buffer, chunks);
      CompleteLinesConcat(a, c);
    }
  }

  lemma ConcatAssoc(buffer: string, chunks: seq<string>)
    requires chunks != []
    ensures buffer + Concat(chunks) == (buffer + Concat(Init(chunks))) + Last(chunks)
  {
    var x, l := Concat(Init(chunks)), Last(chunks);
    assert Concat(chunks) == x + l;
    assert buffer + (x + l) == (buffer + x) + l;
  }

  /** The lines handed to the parser do not depend on chunk boundaries either. */
  lemma NonBlankConcat(a: seq<string>, b: seq<string>)
    ensures NonBlank(a + b) == NonBlank(a) + NonBlank(b)
    decreases |b|
  {
    if b != [] {
      NonBlankConcat(a, Init(b));
      assert Init(a + b) == a + Init(b);
      assert Last(a + b) == Last(b);
    } else {
      assert a + b == a;
    }
  }

  // ---------------------------------------------------------------------
  // Outbound framing

  /** Each line with its '\n' terminator, written one after another. */
  function Terminated(lines: seq<string>): string
    decreases |lines|
  {
    if lines == [] then "" else Terminated(Init(lines)) + Last(lines) + "\n"
  }

  /** Newline-free messages written with a '\n' each frame back into exactly
      those messages, with nothing left over. */
  lemma {:induction false} TerminatedRoundTrip(lines: seq<string>)
    requires forall i :: 0 <= i < |lines| ==> NoNewline(lines[i])
    ensures CompleteLines(Terminated(lines)) == lines
    ensures Residue(Terminated(lines)) == ""
    decreases |lines|
  {
    if lines != [] {
      var x, l := Terminated(Init(lines)), Last(lines);
      TerminatedRoundTrip(Init(lines));
      TerminatedAssoc(lines);
      CompleteLinesConcat(x, l + "\n");
      assert Residue(x) + (l + "\n") == l + "\n";
      LineThenNewline(l);
      assert lines == Init(lines) + [l];
    }
  }

  lemma TerminatedAssoc(lines: seq<string>)
    requires lines != []
    ensures Terminated(lines) == Terminated(Init(lines)) + (Last(lines) + "\n")
  {
  }

  lemma LineThenNewline(l: string)
    requires NoNewline(l)
    ensures CompleteLines(l + "\n") == [l] && Residue(l + "\n") == ""
  {
    SplitOfLine(l);
    assert Init(l + "\n") == l;
    assert Last(l + "\n") == '\n';
  }
}
