/** The streamed chat answer: chunks are split into lines one by one, without carrying an unfinished
    line over, and `[DONE]` ends only the chunk it stands in. */
module StreamReader {
  import opened Text

  const DONE: string := "[DONE]"
  const PREFIX: string := "data:"

  /** What follows `data:` on a line, trimmed; empty for a line that the reader skips. */
  function DataOf(line: string): string {
    var t := Trim(JavaScript, line);
    if StartsWith(t, PREFIX) then Trim(JavaScript, t[5..]) else ""
  }

  function Mark(line: string): seq<string> {
    if DataOf(line) == "" then [] else [DataOf(line)]
  }

  /** The non-empty data strings of a list of lines, `[DONE]` included. */
  function Marks(lines: seq<string>): seq<string> {
    if lines == [] then [] else Mark(lines[0]) + Marks(lines[1..])
  }

  /** The data strings handed to the JSON parser: those before the first `[DONE]`. */
  function Handed(marks: seq<string>): seq<string> {
    if marks == [] || marks[0] == DONE then [] else [marks[0]] + Handed(marks[1..])
  }

  /** The text that a list of payloads adds up to.  `delta(p)` is the content that payload p carries, empty when it
      carries none or does not parse; it is appended before the page is touched, so nothing that fails there matters. */
  function TextOf(payloads: seq<string>, delta: string -> string): string {
    if payloads == [] then "" else delta(payloads[0]) + TextOf(payloads[1..], delta)
  }

  function ChunkMarks(chunk: string): seq<string> { Marks(Split(chunk, "\n")) }

  function ChunkText(chunk: string, delta: string -> string): string {
    TextOf(Handed(ChunkMarks(chunk)), delta)
  }

  function FullText(chunks: seq<string>, delta: string -> string): string {
    if chunks == [] then "" else ChunkText(chunks[0], delta) + FullText(chunks[1..], delta)
  }

  // ---- The loops ----

  /** The text still to come from line i on. */
  function Rest(lines: seq<string>, i: nat, delta: string -> string): string
    requires i <= |lines|
  {
    TextOf(Handed(Marks(lines[i..])), delta)
  }

  lemma RestStep(lines: seq<string>, i: nat, delta: string -> string)
    requires i < |lines|
    ensures var t := Trim(JavaScript, lines[i]);
            if !StartsWith(t, PREFIX) then Rest(lines, i, delta) == Rest(lines, i + 1, delta)
            else
              var d := Trim(JavaScript, t[5..]);
              if d == DONE then Rest(lines, i, delta) == ""
              else if d == "" then Rest(lines, i, delta) == Rest(lines, i + 1, delta)
              else Rest(lines, i, delta) == delta(d) + Rest(lines, i + 1, delta)
  {
    var d := DataOf(lines[i]);
    var ms := Marks(lines[i + 1..]);
    assert lines[i..][0] == lines[i] && lines[i..][1..] == lines[i + 1..];
    assert Marks(lines[i..]) == Mark(lines[i]) + ms;
    if d == "" {
      assert [] + ms == ms;
    } else {
      HandedCons(d, ms, delta);
    }
  }

  lemma HandedCons(p: string, marks: seq<string>, delta: string -> string)
    ensures TextOf(Handed([p] + marks), delta) == if p == DONE then "" else delta(p) + TextOf(Handed(marks), delta)
  {
    assert ([p] + marks)[1..] == marks;
    assert ([p] + Handed(marks))[1..] == Handed(marks);
  }

  /** The inner loop, over the lines of one chunk. */
  method ReadLines(lines: seq<string>, delta: string -> string, before: string) returns (fullText: string)
    ensures fullText == before + TextOf(Handed(Marks(lines)), delta)
  {
    fullText := before;
    var i := 0;
    assert lines[0..] == lines;
    while i < |lines|
      invariant i <= |lines|
      invariant fullText + Rest(lines, i, delta) == before + Rest(lines, 0, delta)
    {
      var trimmed := Trim(JavaScript, lines[i]);
      RestStep(lines, i, delta);
      i := i + 1;
      if !StartsWith(trimmed, PREFIX) { continue; }
      var dataStr := Trim(JavaScript, trimmed[5..]);
      if dataStr == DONE { return; }
      if dataStr == "" { continue; }
      Join(fullText, delta(dataStr), Rest(lines, i, delta));
      fullText := fullText + delta(dataStr);
    }
  }

  method ReadStream(chunks: seq<string>, delta: string -> string) returns (fullText: string)
    ensures fullText == FullText(chunks, delta)
  {
    fullText := "";
    var i := 0;
    while i < |chunks|
      invariant i <= |chunks|
      invariant fullText + FullText(chunks[i..], delta) == FullText(chunks, delta)
    {
      var lines := Split(chunks[i], "\n");
      Join(fullText, ChunkText(chunks[i], delta), FullText(chunks[i + 1..], delta));
      fullText := ReadLines(lines, delta, fullText);
      i := i + 1;
    }
  }

  // ---- Lists of marks ----

  lemma {:induction false} MarksConcat(a: seq<string>, b: seq<string>)
    ensures Marks(a + b) == Marks(a) + Marks(b)
  {
    if a == [] {
      assert a + b == b;
    } else {
      assert (a + b)[1..] == a[1..] + b;
      MarksConcat(a[1..], b);
    }
  }

  lemma {:induction false} TextConcat(a: seq<string>, b: seq<string>, delta: string -> string)
    ensures TextOf(a + b, delta) == TextOf(a, delta) + TextOf(b, delta)
  {
    if a == [] {
      assert a + b == b;
    } else {
      assert (a + b)[1..] == a[1..] + b;
      TextConcat(a[1..], b, delta);
    }
  }

  lemma {:induction false} HandedConcat(a: seq<string>, b: seq<string>)
    ensures Handed(a + b) == if DONE in a then Handed(a) else Handed(a) + Handed(b)
  {
    if a == [] {
      assert a + b == b;
    } else {
      assert (a + b)[1..] == a[1..] + b && (a + b)[0] == a[0];
      assert a == [a[0]] + a[1..];
      HandedConcat(a[1..], b);
    }
  }

  // ---- Where a chunk may be cut ----

  /** Line a + b cut between a and b: a or b is blank, or none of the three is a data line with content. */
  predicate HarmlessInLine(a: string, b: string) {
    Blank(JavaScript, a) || Blank(JavaScript, b) || (DataOf(a) == "" && DataOf(b) == "" && DataOf(a + b) == "")
  }

  function LastLine(s: string): string {
    var p := Split(s, "\n"); p[|p|-1]
  }

  function FirstLine(s: string): string { Split(s, "\n")[0] }

  function EarlierLines(s: string): seq<string> {
    var p := Split(s, "\n"); p[..|p|-1]
  }

  function LaterLines(s: string): seq<string> { Split(s, "\n")[1..] }

  predicate Harmless(c: string, rest: string) { HarmlessInLine(LastLine(c), FirstLine(rest)) }

  /** Trimming a line of two non-blank pieces keeps both cores, with a blank stretch between them. */
  lemma TrimJoined(a: string, b: string) returns (m: string)
    requires !Blank(JavaScript, a) && !Blank(JavaScript, b)
    ensures Blank(JavaScript, m) && Trim(JavaScript, a + b) == Trim(JavaScript, a) + m + Trim(JavaScript, b)
    ensures Trim(JavaScript, a) != "" && Trim(JavaScript, b) != ""
    ensures Trimmed(JavaScript, Trim(JavaScript, a)) && Trimmed(JavaScript, Trim(JavaScript, b))
  {
    TrimEmpty(JavaScript, a);
    TrimEmpty(JavaScript, b);
    var a1, a2 := TrimSplits(JavaScript, a);
    var b1, b2 := TrimSplits(JavaScript, b);
    m := a2 + b1;
    var core := Trim(JavaScript, a) + m + Trim(JavaScript, b);
    assert a + b == a1 + core + b2;
    TrimCore(JavaScript, a1, core, b2);
  }

  /** Trimming in front of a trimmed non-empty string keeps it as a suffix. */
  lemma TrimKeepsSuffix(x: string, y: string)
    requires y != "" && Trimmed(JavaScript, y)
    ensures |Trim(JavaScript, x + y)| >= |y|
    ensures Trim(JavaScript, x) != "" ==> |Trim(JavaScript, x + y)| > |Trim(JavaScript, x)|
  {
    var x1, x2 := TrimSplits(JavaScript, x);
    var t := Trim(JavaScript, x);
    if t == "" {
      TrimIgnoresBlanks(JavaScript, x1 + x2, y, "");
      assert x + y == (x1 + x2) + y + "";
      TrimTrimmed(JavaScript, y);
    } else {
      TrimCore(JavaScript, x1, t + x2 + y, "");
      assert x + y == x1 + (t + x2 + y) + "";
    }
  }

  /** The first piece is a data line: the whole line's data reaches over all of the second piece. */
  lemma DataOverBoth(a: string, b: string)
    requires !Blank(JavaScript, a) && !Blank(JavaScript, b) && StartsWith(Trim(JavaScript, a), PREFIX)
    ensures |DataOf(a + b)| >= |Trim(JavaScript, b)| > 0
    ensures |DataOf(a + b)| > |DataOf(a)|
  {
    var ta, tb := Trim(JavaScript, a), Trim(JavaScript, b);
    var m := TrimJoined(a, b);
    var t := ta + m + tb;
    assert t[..5] == ta[..5] && t[5..] == (ta[5..] + m) + tb;
    assert "" + ta[5..] + m == ta[5..] + m;
    TrimIgnoresBlanks(JavaScript, "", ta[5..], m);
    TrimKeepsSuffix(ta[5..] + m, tb);
  }

  /** Only the second piece is a data line: the whole line is none. */
  lemma DataInSecondOnly(a: string, b: string)
    requires !Blank(JavaScript, a) && !Blank(JavaScript, b)
    requires !StartsWith(Trim(JavaScript, a), PREFIX) && StartsWith(Trim(JavaScript, b), PREFIX)
    ensures DataOf(a + b) == ""
  {
    var ta, tb := Trim(JavaScript, a), Trim(JavaScript, b);
    var m := TrimJoined(a, b);
    if StartsWith(ta + m + tb, PREFIX) { PrefixInFirstPiece(ta, m, tb); }
  }

  /** Two non-blank pieces, one of them a data line with content: the whole line's data is not what the pieces give. */
  lemma PiecesDiffer(a: string, b: string)
    requires !Blank(JavaScript, a) && !Blank(JavaScript, b)
    requires DataOf(a) != "" || DataOf(b) != ""
    ensures Mark(a + b) != Mark(a) + Mark(b)
  {
    if StartsWith(Trim(JavaScript, a), PREFIX) {
      DataOverBoth(a, b);
      if DataOf(a) == "" {
        DataShorter(b);
        assert [] + Mark(b) == Mark(b);
      } else {
        assert (Mark(a) + Mark(b))[0] == DataOf(a);
      }
    } else {
      DataInSecondOnly(a, b);
    }
  }

  lemma DataShorter(b: string)
    requires DataOf(b) != ""
    ensures |DataOf(b)| < |Trim(JavaScript, b)|
  {
    var t := Trim(JavaScript, b);
    var x, y := TrimSplits(JavaScript, t[5..]);
  }

  /** `data:` cannot begin in one piece and end in another that begins with `data:` itself. */
  lemma PrefixInFirstPiece(ta: string, m: string, tb: string)
    requires ta != "" && Blank(JavaScript, m) && StartsWith(tb, PREFIX) && StartsWith(ta + m + tb, PREFIX)
    ensures StartsWith(ta, PREFIX)
  {
    var t := ta + m + tb;
    assert t[|ta|] == (m + tb)[0];
    assert tb[..5][0] == 'd' && tb[0] == tb[..5][0];
    assert t[|ta|] == 'd' || Space(JavaScript, t[|ta|]);
    assert forall j :: 0 <= j < 5 ==> t[j] == t[..5][j];
    assert forall j :: 1 <= j < 5 ==> PREFIX[j] != 'd' && !Space(JavaScript, PREFIX[j]);
    assert |ta| >= 5;
    assert t[..5] == ta[..5];
  }

  /** A line cut in two gives the same data exactly when the cut is harmless. */
  lemma CutInLineExact(a: string, b: string)
    ensures Mark(a + b) == Mark(a) + Mark(b) <==> HarmlessInLine(a, b)
  {
    if Blank(JavaScript, a) {
      TrimEmpty(JavaScript, a);
      TrimIgnoresBlanks(JavaScript, a, b, "");
      assert a + b + "" == a + b;
    } else if Blank(JavaScript, b) {
      TrimEmpty(JavaScript, b);
      TrimIgnoresBlanks(JavaScript, "", a, b);
      assert "" + a + b == a + b;
    } else if DataOf(a) != "" || DataOf(b) != "" {
      PiecesDiffer(a, b);
    }
  }

  lemma MarksThree(x: seq<string>, line: string, y: seq<string>)
    ensures Marks(x + [line] + y) == Marks(x) + Mark(line) + Marks(y)
  {
    MarksConcat(x + [line], y);
    MarksConcat(x, [line]);
    OneMark(line);
  }

  /** The marks of two neighbouring chunks taken as one. */
  lemma CutTogether(c: string, rest: string)
    ensures ChunkMarks(c + rest) == Marks(EarlierLines(c)) + Mark(LastLine(c) + FirstLine(rest)) +
            Marks(LaterLines(rest))
  {
    var p, q := Split(c, "\n"), Split(rest, "\n");
    assert [ '\n' ] == "\n";
    SplitConcat(c, rest, '\n');
    MarksThree(p[..|p|-1], LastLine(c) + FirstLine(rest), q[1..]);
  }

  /** The marks of a chunk, its last line apart. */
  lemma LastApart(c: string)
    ensures ChunkMarks(c) == Marks(EarlierLines(c)) + Mark(LastLine(c))
  {
    var p := Split(c, "\n");
    MarksConcat(p[..|p|-1], [LastLine(c)]);
    OneMark(LastLine(c));
    assert p == p[..|p|-1] + [LastLine(c)];
  }

  /** A stream cut in two gives the same data exactly when the cut is harmless. */
  lemma CutExact(c: string, rest: string)
    ensures ChunkMarks(c + rest) == ChunkMarks(c) + ChunkMarks(rest) <==> Harmless(c, rest)
  {
    var x, y := Marks(EarlierLines(c)), Marks(LaterLines(rest));
    var a, b := LastLine(c), FirstLine(rest);
    CutTogether(c, rest);
    LastApart(c);
    assert ChunkMarks(rest) == Mark(b) + y;
    Regroup(x, Mark(a), Mark(b), y);
    Cancel(x, Mark(a + b), Mark(a) + Mark(b), y);
    CutInLineExact(a, b);
  }

  lemma Regroup(x: seq<string>, u: seq<string>, v: seq<string>, y: seq<string>)
    ensures (x + u) + (v + y) == x + (u + v) + y
  {
  }

  lemma OneMark(line: string)
    ensures Marks([line]) == Mark(line)
  {
    assert Marks([line]) == Mark(line) + Marks([line][1..]);
  }

  lemma Cancel(x: seq<string>, u: seq<string>, v: seq<string>, y: seq<string>)
    ensures x + u + y == x + v + y <==> u == v
  {
    if x + u + y == x + v + y {
      assert u == (x + u + y)[|x|..|x| + |u|];
      assert v == (x + v + y)[|x|..|x| + |v|];
    }
  }

  // ---- Chunking ----

  function Concat(chunks: seq<string>): string {
    if chunks == [] then "" else chunks[0] + Concat(chunks[1..])
  }

  predicate HarmlessCuts(chunks: seq<string>) {
    |chunks| <= 1 || (Harmless(chunks[0], Concat(chunks[1..])) && HarmlessCuts(chunks[1..]))
  }

  /** The text of the chunks behind the first one that holds a `[DONE]` line. */
  function AfterDone(chunks: seq<string>, delta: string -> string): string {
    if chunks == [] then ""
    else if DONE in ChunkMarks(chunks[0]) then FullText(chunks[1..], delta)
    else AfterDone(chunks[1..], delta)
  }

  /** The cuts in front of the first `[DONE]` line are harmless; those behind it are anywhere. */
  predicate HarmlessBeforeDone(chunks: seq<string>) {
    |chunks| <= 1 || DONE in Marks(EarlierLines(chunks[0])) ||
    (Harmless(chunks[0], Concat(chunks[1..])) && (DONE in ChunkMarks(chunks[0]) || HarmlessBeforeDone(chunks[1..])))
  }

  lemma {:induction false} HarmlessEverywhere(chunks: seq<string>)
    requires HarmlessCuts(chunks)
    ensures HarmlessBeforeDone(chunks)
  {
    if |chunks| > 1 { HarmlessEverywhere(chunks[1..]); }
  }

  /** Behind a `[DONE]` the joined stream hands over nothing more. */
  lemma NothingBehindDone(c: string, rest: string)
    requires DONE in Marks(EarlierLines(c))
    ensures DONE in ChunkMarks(c) && Handed(ChunkMarks(c + rest)) == Handed(ChunkMarks(c))
  {
    var x := Marks(EarlierLines(c));
    var u, y := Mark(LastLine(c) + FirstLine(rest)), Marks(LaterLines(rest));
    CutTogether(c, rest);
    LastApart(c);
    Join(x, u, y);
    NothingMore(x, u + y);
    NothingMore(x, Mark(LastLine(c)));
  }

  lemma NothingMore(x: seq<string>, y: seq<string>)
    requires DONE in x
    ensures DONE in x + y && Handed(x + y) == Handed(x)
  {
    HandedConcat(x, y);
  }

  /** With harmless cuts in front of the first `[DONE]`, chunking adds to the text exactly what the chunks behind
      the first `[DONE]` chunk hold. */
  lemma {:induction false} ChunkingAdds(chunks: seq<string>, delta: string -> string)
    requires HarmlessBeforeDone(chunks)
    ensures FullText(chunks, delta) == ChunkText(Concat(chunks), delta) + AfterDone(chunks, delta)
  {
    if chunks == [] {
      EmptyChunk(delta);
    } else if |chunks| == 1 {
      assert chunks[1..] == [];
      assert Concat(chunks) == chunks[0];
    } else if DONE in Marks(EarlierLines(chunks[0])) {
      NothingBehindDone(chunks[0], Concat(chunks[1..]));
    } else {
      var c, rest := chunks[0], Concat(chunks[1..]);
      CutExact(c, rest);
      var a, b := ChunkMarks(c), ChunkMarks(rest);
      HandedConcat(a, b);
      if DONE !in a {
        TextConcat(Handed(a), Handed(b), delta);
        ChunkingAdds(chunks[1..], delta);
      }
    }
  }

  lemma EmptyChunk(delta: string -> string)
    ensures ChunkMarks("") == [] && ChunkText("", delta) == ""
  {
    SplitCharNone("", '\n');
    assert [ '\n' ] == "\n";
    TrimTrimmed(JavaScript, "");
    OneMark("");
  }

  /** So with such cuts the text does not depend on the chunking exactly when those later chunks hold no text. */
  lemma {:induction false} ChunkingIndependentIff(chunks: seq<string>, delta: string -> string)
    requires HarmlessBeforeDone(chunks)
    ensures FullText(chunks, delta) == FullText([Concat(chunks)], delta) <==> AfterDone(chunks, delta) == ""
  {
    ChunkingAdds(chunks, delta);
    var w := Concat(chunks);
    assert FullText([w], delta) == ChunkText(w, delta) + FullText([w][1..], delta);
  }

  /** No payload behind the first `[DONE]` of a list carries text. */
  predicate QuietAfterDone(marks: seq<string>, delta: string -> string) {
    forall i, j :: 0 <= i < j < |marks| && marks[i] == DONE && marks[j] != DONE ==> delta(marks[j]) == ""
  }

  predicate Mute(marks: seq<string>, delta: string -> string) {
    forall j :: 0 <= j < |marks| && marks[j] != DONE ==> delta(marks[j]) == ""
  }

  lemma {:induction false} MuteText(marks: seq<string>, delta: string -> string)
    requires Mute(marks, delta)
    ensures TextOf(Handed(marks), delta) == ""
  {
    if marks != [] && marks[0] != DONE {
      MuteText(marks[1..], delta);
      assert Handed(marks) == [marks[0]] + Handed(marks[1..]);
    }
  }

  lemma {:induction false} MuteChunks(chunks: seq<string>, delta: string -> string)
    requires HarmlessCuts(chunks) && Mute(ChunkMarks(Concat(chunks)), delta)
    ensures FullText(chunks, delta) == ""
  {
    if |chunks| == 1 {
      assert chunks[1..] == [] && Concat(chunks) == chunks[0];
      MuteText(ChunkMarks(chunks[0]), delta);
    } else if chunks != [] {
      var a, b := ChunkMarks(chunks[0]), ChunkMarks(Concat(chunks[1..]));
      CutExact(chunks[0], Concat(chunks[1..]));
      MuteParts(a, b, delta);
      MuteText(a, delta);
      MuteChunks(chunks[1..], delta);
    }
  }

  lemma MuteParts(a: seq<string>, b: seq<string>, delta: string -> string)
    requires Mute(a + b, delta)
    ensures Mute(a, delta) && Mute(b, delta)
  {
    assert forall j :: 0 <= j < |a| ==> (a + b)[j] == a[j];
    assert forall j :: 0 <= j < |b| ==> (a + b)[|a| + j] == b[j];
  }

  lemma QuietParts(a: seq<string>, b: seq<string>, delta: string -> string)
    requires QuietAfterDone(a + b, delta)
    ensures QuietAfterDone(b, delta) && (DONE in a ==> Mute(b, delta))
  {
    assert forall j :: 0 <= j < |a| ==> (a + b)[j] == a[j];
    assert forall j :: 0 <= j < |b| ==> (a + b)[|a| + j] == b[j];
  }

  lemma {:induction false} QuietStream(chunks: seq<string>, delta: string -> string)
    requires HarmlessCuts(chunks) && QuietAfterDone(ChunkMarks(Concat(chunks)), delta)
    ensures AfterDone(chunks, delta) == ""
  {
    if |chunks| == 1 {
      assert chunks[1..] == [];
    } else if chunks != [] {
      var a, b := ChunkMarks(chunks[0]), ChunkMarks(Concat(chunks[1..]));
      CutExact(chunks[0], Concat(chunks[1..]));
      QuietParts(a, b, delta);
      if DONE in a {
        MuteChunks(chunks[1..], delta);
      } else {
        QuietStream(chunks[1..], delta);
      }
    }
  }

  /** Every cut has a newline on one side. */
  predicate NewlineCut(c: string, rest: string) {
    c == "" || rest == "" || c[|c|-1] == '\n' || rest[0] == '\n'
  }

  predicate NewlineCuts(chunks: seq<string>) {
    |chunks| <= 1 || (NewlineCut(chunks[0], Concat(chunks[1..])) && NewlineCuts(chunks[1..]))
  }

  lemma NewlineHarmless(c: string, rest: string)
    requires NewlineCut(c, rest)
    ensures Harmless(c, rest)
  {
    assert [ '\n' ] == "\n";
    if c == "" || rest == "" {
      SplitCharNone("", '\n');
    } else if c[|c|-1] == '\n' {
      var a := c[..|c|-1];
      assert c == a + "\n";
      SplitConcat(a, "\n", '\n');
    } else {
      IndexCharIs(rest, '\n', 0);
    }
  }

  lemma {:induction false} NewlineCutsHarmless(chunks: seq<string>)
    requires NewlineCuts(chunks)
    ensures HarmlessCuts(chunks)
  {
    if |chunks| > 1 {
      NewlineHarmless(chunks[0], Concat(chunks[1..]));
      NewlineCutsHarmless(chunks[1..]);
    }
  }

  /** Chunking independence: cuts next to newlines, and no content behind the first `[DONE]`. */
  lemma {:induction false} ChunkingIndependent(chunks: seq<string>, delta: string -> string)
    requires NewlineCuts(chunks) && QuietAfterDone(ChunkMarks(Concat(chunks)), delta)
    ensures FullText(chunks, delta) == FullText([Concat(chunks)], delta)
  {
    NewlineCutsHarmless(chunks);
    HarmlessEverywhere(chunks);
    QuietStream(chunks, delta);
    ChunkingIndependentIff(chunks, delta);
  }

  // ---- CRLF ----

  lemma MarkReturn(line: string)
    ensures Mark(line + "\r") == Mark(line)
  {
    assert Blank(JavaScript, "\r");
    TrimIgnoresBlanks(JavaScript, "", line, "\r");
    assert "" + line + "\r" == line + "\r";
  }

  /** The marks of a first line and of what follows it. */
  lemma MarksLine(line: string, rest: string)
    requires '\n' !in line
    ensures ChunkMarks(line + "\n" + rest) == Mark(line) + ChunkMarks(rest)
  {
    assert [ '\n' ] == "\n";
    SplitLine(line, rest, '\n');
    MarksConcat([line], Split(rest, "\n"));
    OneMark(line);
  }

  /** The data of a chunk does not depend on the kind of its line ends. */
  lemma {:induction false} CrlfMarks(s: string)
    ensures ChunkMarks(Crlf(s)) == ChunkMarks(s)
    decreases |s|
  {
    assert [ '\n' ] == "\n";
    IndexChar(s, '\n');
    var i := Index(s, "\n");
    if i < 0 {
      CrlfFree(s);
    } else {
      var line, rest := s[..i], s[i + 1..];
      assert s == line + "\n" + rest;
      CrlfLine(s, i);
      MarksLine(line, rest);
      MarksLine(line + "\r", Crlf(rest));
      MarkReturn(line);
      CrlfMarks(rest);
    }
  }

  function CrlfAll(chunks: seq<string>): seq<string> {
    if chunks == [] then [] else [Crlf(chunks[0])] + CrlfAll(chunks[1..])
  }

  /** The text does not depend on the kind of line ends, however the stream is chunked. */
  lemma {:induction false} CrlfText(chunks: seq<string>, delta: string -> string)
    ensures FullText(CrlfAll(chunks), delta) == FullText(chunks, delta)
  {
    if chunks != [] {
      CrlfMarks(chunks[0]);
      CrlfText(chunks[1..], delta);
      assert CrlfAll(chunks)[1..] == CrlfAll(chunks[1..]);
    }
  }

  // ---- Both conditions are needed ----

  lemma DataLine(p: string)
    requires p != "" && Trimmed(JavaScript, p) && '\n' !in p
    ensures ChunkMarks("data:" + p) == [p] && DataOf("data:" + p) == p
  {
    var line := "data:" + p;
    assert [ '\n' ] == "\n";
    TrimTrimmed(JavaScript, line);
    TrimTrimmed(JavaScript, p);
    assert line[..5] == "data:" && line[5..] == p;
    SplitCharNone(line, '\n');
    OneMark(line);
  }

  lemma OneChunk(c: string, delta: string -> string)
    ensures FullText([c], delta) == ChunkText(c, delta)
  {
    assert [c][1..] == [];
    assert FullText([c], delta) == ChunkText(c, delta) + FullText([], delta);
  }

  lemma TwoChunks(c: string, d: string, delta: string -> string)
    ensures FullText([c, d], delta) == ChunkText(c, delta) + ChunkText(d, delta)
    ensures Concat([c, d]) == c + d
  {
    assert [c, d][1..] == [d] && [d][1..] == [];
    OneChunk(d, delta);
    assert Concat([d]) == d + Concat([]);
  }

  /** The text of a chunk that is one data line. */
  lemma DataLineText(p: string, delta: string -> string)
    requires p != "" && p != DONE && Trimmed(JavaScript, p) && '\n' !in p
    ensures ChunkText("data:" + p, delta) == delta(p)
  {
    DataLine(p);
    HandedCons(p, [], delta);
    assert [p] + [] == [p];
  }

  /** A line cut inside its payload is misread: two chunks give the text of the first piece only, one chunk that of
      both. */
  lemma CutInsidePayload(p: string, q: string, delta: string -> string)
    requires p != "" && q != "" && p != DONE && p + q != DONE && '\n' !in p && '\n' !in q
    requires Trimmed(JavaScript, p) && Trimmed(JavaScript, q) && !StartsWith(q, PREFIX)
    ensures FullText(["data:" + p, q], delta) == delta(p)
    ensures FullText([("data:" + p) + q], delta) == delta(p + q)
  {
    CutInTwo(p, q, delta);
    OneChunk("data:" + (p + q), delta);
    DataLineText(p + q, delta);
    Join("data:", p, q);
  }

  lemma CutInTwo(p: string, q: string, delta: string -> string)
    requires p != "" && p != DONE && '\n' !in p && '\n' !in q
    requires Trimmed(JavaScript, p) && Trimmed(JavaScript, q) && !StartsWith(q, PREFIX)
    ensures FullText(["data:" + p, q], delta) == delta(p)
  {
    TwoChunks("data:" + p, q, delta);
    DataLineText(p, delta);
    SkippedLine(q, delta);
    assert delta(p) + "" == delta(p);
  }

  lemma SkippedLine(q: string, delta: string -> string)
    requires '\n' !in q && Trimmed(JavaScript, q) && !StartsWith(q, PREFIX)
    ensures ChunkText(q, delta) == ""
  {
    assert [ '\n' ] == "\n";
    SplitCharNone(q, '\n');
    TrimTrimmed(JavaScript, q);
    OneMark(q);
  }

  /** `[DONE]` does not end the stream: a later chunk still adds its text. */
  lemma DoneEndsOnlyItsChunk(p: string, delta: string -> string)
    requires p != "" && p != "[DONE]" && Trimmed(JavaScript, p) && '\n' !in p
    ensures FullText(["data:" + "[DONE]", "\ndata:" + p], delta) == delta(p)
    ensures FullText([("data:" + "[DONE]") + ("\ndata:" + p)], delta) == ""
  {
    var c, d := "data:" + DONE, "\ndata:" + p;
    DataLine(DONE);
    LineAfterNewline(p, delta);
    TwoChunks(c, d, delta);
    HandedCons(DONE, [], delta);
    assert [DONE] + [] == [DONE];
    NewlineHarmless(c, d);
    CutExact(c, d);
    OneChunk(c + d, delta);
    HandedConcat([DONE], ChunkMarks(d));
    assert Handed([DONE]) == [];
  }

  lemma LineAfterNewline(p: string, delta: string -> string)
    requires p != "" && p != DONE && Trimmed(JavaScript, p) && '\n' !in p
    ensures ChunkText("\ndata:" + p, delta) == delta(p)
  {
    var d := "data:" + p;
    assert "\ndata:" + p == "\n" + d;
    NewlineHarmless("\n", d);
    CutExact("\n", d);
    SkippedLine("", delta);
    MarksConcat([""], [""]);
    assert [""] + [""] == ["", ""];
    EmptyChunk(delta);
    SplitCharNone("", '\n');
    assert [ '\n' ] == "\n";
    assert ChunkMarks("\n") == [];
    assert [] + ChunkMarks(d) == ChunkMarks(d);
    DataLineText(p, delta);
  }
}
