/** When a stream may be cut: the exact condition under which the reader's text does not depend on the chunking. */
module ChunkCuts {
  import opened Text
  import opened StreamReader

  // ---- Payloads and texts ----

  /** All that the chunks hand to the JSON parser. */
  function Payloads(chunks: seq<string>): seq<string> {
    if chunks == [] then [] else Handed(ChunkMarks(chunks[0])) + Payloads(chunks[1..])
  }

  /** Whatever text payloads carry, both lists of chunks give the same. */
  ghost predicate SameTexts(chunks: seq<string>, others: seq<string>) {
    forall delta: string -> string :: FullText(chunks, delta) == FullText(others, delta)
  }

  lemma {:induction false} TextOfPayloads(chunks: seq<string>, delta: string -> string)
    ensures FullText(chunks, delta) == TextOf(Payloads(chunks), delta)
  {
    if chunks != [] {
      TextOfPayloads(chunks[1..], delta);
      TextConcat(Handed(ChunkMarks(chunks[0])), Payloads(chunks[1..]), delta);
    }
  }

  /** When each payload carries one character, the text shows them one by one. */
  lemma {:induction false} LettersOf(payloads: seq<string>, delta: string -> string)
    requires forall p :: |delta(p)| == 1
    ensures |TextOf(payloads, delta)| == |payloads|
    ensures forall k :: 0 <= k < |payloads| ==> TextOf(payloads, delta)[k] == delta(payloads[k])[0]
  {
    if payloads != [] { LettersOf(payloads[1..], delta); }
  }

  /** Two lists of chunks give the same text whatever payloads carry exactly when they hand over the same payloads. */
  lemma {:induction false} SameTextsIff(chunks: seq<string>, others: seq<string>)
    ensures SameTexts(chunks, others) <==> Payloads(chunks) == Payloads(others)
  {
    var p, q := Payloads(chunks), Payloads(others);
    forall delta: string -> string
      ensures FullText(chunks, delta) == TextOf(p, delta) && FullText(others, delta) == TextOf(q, delta)
    {
      TextOfPayloads(chunks, delta);
      TextOfPayloads(others, delta);
    }
    if SameTexts(chunks, others) { SamePayloads(chunks, others); }
  }

  lemma SamePayloads(chunks: seq<string>, others: seq<string>)
    requires SameTexts(chunks, others)
    ensures Payloads(chunks) == Payloads(others)
  {
    var p, q := Payloads(chunks), Payloads(others);
    LettersAgree(chunks, others, (x: string) => "a");
    forall k | 0 <= k < |p|
      ensures p[k] == q[k]
    {
      var only := p[k];
      LettersAgree(chunks, others, (x: string) => if x == only then "a" else "b");
    }
  }

  lemma LettersAgree(chunks: seq<string>, others: seq<string>, delta: string -> string)
    requires SameTexts(chunks, others) && forall p :: |delta(p)| == 1
    ensures |Payloads(chunks)| == |Payloads(others)|
    ensures forall k :: 0 <= k < |Payloads(chunks)| ==> delta(Payloads(chunks)[k])[0] == delta(Payloads(others)[k])[0]
  {
    assert FullText(chunks, delta) == FullText(others, delta);
    TextOfPayloads(chunks, delta);
    TextOfPayloads(others, delta);
    LettersOf(Payloads(chunks), delta);
    LettersOf(Payloads(others), delta);
  }

  /** Cutting a stream between c and rest hands over the same payloads: behind a `[DONE]` line if rest hands over
      nothing; else if the cut is harmless and not right behind `[DONE]`, or if there is nothing around it to hand
      over. */
  predicate CutAgrees(c: string, rest: string) {
    if DONE in Marks(EarlierLines(c)) then Handed(ChunkMarks(rest)) == []
    else
      var a, b := LastLine(c), FirstLine(rest);
      (HarmlessInLine(a, b) && DataOf(a) != DONE) || Silent(a, b, Marks(LaterLines(rest)))
  }

  predicate Silent(a: string, b: string, y: seq<string>) {
    Handed(Mark(a)) == [] && Handed(Mark(b)) == [] && Handed(Mark(a + b)) == [] && Handed(y) == []
  }

  /** What a line with this data hands over in front of what follows it. */
  function HandedLine(data: string, next: seq<string>): seq<string> {
    if data == "" then next else if data == DONE then [] else [data] + next
  }

  lemma HandedMark(line: string, y: seq<string>)
    ensures Handed(Mark(line) + y) == HandedLine(DataOf(line), Handed(y))
    ensures Handed(Mark(line)) == HandedLine(DataOf(line), [])
  {
    if DataOf(line) == "" {
      assert [] + y == y;
    } else {
      assert ([DataOf(line)] + y)[1..] == y && Mark(line)[1..] == [];
    }
  }

  /** The line that the cut goes through, with the lines y behind it. */
  lemma LineAgreesIff(a: string, b: string, y: seq<string>)
    ensures Handed(Mark(a + b) + y) == Handed(Mark(a)) + Handed(Mark(b) + y) <==>
            (HarmlessInLine(a, b) && DataOf(a) != DONE) || Silent(a, b, y)
  {
    HandedMark(a, y);
    HandedMark(b, y);
    HandedMark(a + b, y);
    if HarmlessInLine(a, b) {
      CutInLineExact(a, b);
      OnePieceHasAll(a, b);
    } else {
      PiecesShorter(a, b);
      ShorterPieces(DataOf(a + b), DataOf(a), DataOf(b), Handed(y));
    }
  }

  lemma OnePieceHasAll(a: string, b: string)
    requires Mark(a + b) == Mark(a) + Mark(b)
    ensures (DataOf(a) == "" && DataOf(a + b) == DataOf(b)) || (DataOf(b) == "" && DataOf(a + b) == DataOf(a))
  {
    assert |Mark(a + b)| == |Mark(a)| + |Mark(b)|;
    if DataOf(a) != "" {
      assert Mark(a + b)[0] == DataOf(a);
    } else {
      assert [] + Mark(b) == Mark(b);
    }
  }

  /** A harmful cut: the whole line's data is longer than that of either piece, or it has none and only the second
      piece has. */
  lemma PiecesShorter(a: string, b: string)
    requires !HarmlessInLine(a, b)
    ensures (|DataOf(a + b)| > |DataOf(a)| && |DataOf(a + b)| > |DataOf(b)|) ||
            (DataOf(a + b) == DataOf(a) == "" && DataOf(b) != "")
  {
    if StartsWith(Trim(JavaScript, a), PREFIX) {
      DataOverBoth(a, b);
      if DataOf(b) != "" { DataShorter(b); }
    } else if DataOf(b) != "" {
      DataInSecondOnly(a, b);
    }
  }

  /** Then both sides hand over the same only if nothing is handed over. */
  lemma ShorterPieces(d: string, p: string, q: string, t: seq<string>)
    requires (|d| > |p| && |d| > |q|) || (d == p == "" && q != "")
    ensures HandedLine(d, t) == HandedLine(p, []) + HandedLine(q, t) <==>
            HandedLine(p, []) == [] && HandedLine(q, []) == [] && HandedLine(d, []) == [] && t == []
  {
    var l, r := HandedLine(d, t), HandedLine(p, []) + HandedLine(q, t);
    if p != "" && p != DONE {
      assert r[0] == p;
    } else {
      assert r == HandedLine(q, t);
      if q != "" && q != DONE { assert r[0] == q && |r| == 1 + |t|; }
    }
  }

  /** What both chunks and the joined stream hand over when no earlier line of c is `[DONE]`. */
  lemma CutParts(c: string, rest: string)
    requires DONE !in Marks(EarlierLines(c))
    ensures var x, y := Handed(Marks(EarlierLines(c))), Marks(LaterLines(rest));
            var a, b := LastLine(c), FirstLine(rest);
            Handed(ChunkMarks(c + rest)) == x + Handed(Mark(a + b) + y) &&
            Handed(ChunkMarks(c)) == x + Handed(Mark(a)) && ChunkMarks(rest) == Mark(b) + y
  {
    var x, y := Marks(EarlierLines(c)), Marks(LaterLines(rest));
    var u := Mark(LastLine(c) + FirstLine(rest));
    CutTogether(c, rest);
    LastApart(c);
    Join(x, u, y);
    HandedConcat(x, u + y);
    HandedConcat(x, Mark(LastLine(c)));
  }

  /** A stream cut in two hands over the same payloads exactly when the cut is one of those above. */
  lemma {:induction false} CutAgreesIff(c: string, rest: string)
    ensures Handed(ChunkMarks(c + rest)) == Handed(ChunkMarks(c)) + Handed(ChunkMarks(rest)) <==> CutAgrees(c, rest)
  {
    if DONE in Marks(EarlierLines(c)) {
      NothingBehindDone(c, rest);
    } else {
      var x, y := Handed(Marks(EarlierLines(c))), Marks(LaterLines(rest));
      var a, b := LastLine(c), FirstLine(rest);
      CutParts(c, rest);
      LineAgreesIff(a, b, y);
      CancelFront(x, Handed(Mark(a + b) + y), Handed(Mark(a)), Handed(Mark(b) + y));
    }
  }

  lemma CancelFront(x: seq<string>, u: seq<string>, v: seq<string>, w: seq<string>)
    ensures x + u == x + v + w <==> u == v + w
  {
    assert x + v + w == x + (v + w);
    if x + u == x + v + w {
      assert u == (x + u)[|x|..];
      assert v + w == (x + (v + w))[|x|..];
    }
  }

  predicate CutsAgree(chunks: seq<string>) {
    forall k :: 0 <= k < |chunks| ==> CutAgrees(Concat(chunks[..k]), chunks[k])
  }

  /** The chunks so far give the same text as one chunk, at every moment of the stream. */
  ghost predicate AlwaysSame(chunks: seq<string>) {
    forall k :: 0 <= k <= |chunks| ==> SameTexts(chunks[..k], [Concat(chunks[..k])])
  }

  lemma {:induction false} ConcatLast(chunks: seq<string>, c: string)
    ensures Concat(chunks + [c]) == Concat(chunks) + c
  {
    var all := chunks + [c];
    if chunks == [] {
      assert all[1..] == [];
    } else {
      assert all[1..] == chunks[1..] + [c];
      ConcatLast(chunks[1..], c);
      Join(chunks[0], Concat(chunks[1..]), c);
    }
  }

  lemma {:induction false} PayloadsLast(chunks: seq<string>, c: string)
    ensures Payloads(chunks + [c]) == Payloads(chunks) + Handed(ChunkMarks(c))
  {
    var all := chunks + [c];
    if chunks == [] {
      assert all[1..] == [];
    } else {
      assert all[1..] == chunks[1..] + [c];
      PayloadsLast(chunks[1..], c);
      Join(Handed(ChunkMarks(chunks[0])), Payloads(chunks[1..]), Handed(ChunkMarks(c)));
    }
  }

  lemma OnePayloads(c: string)
    ensures Payloads([c]) == Handed(ChunkMarks(c))
  {
    assert [c][1..] == [];
  }

  /** One more chunk: agreement goes on exactly when its cut agrees. */
  lemma OneMoreChunk(chunks: seq<string>, c: string)
    requires SameTexts(chunks, [Concat(chunks)])
    ensures SameTexts(chunks + [c], [Concat(chunks + [c])]) <==> CutAgrees(Concat(chunks), c)
  {
    var w := Concat(chunks);
    SameTextsIff(chunks, [w]);
    SameTextsIff(chunks + [c], [w + c]);
    ConcatLast(chunks, c);
    PayloadsLast(chunks, c);
    OnePayloads(w);
    OnePayloads(w + c);
    CutAgreesIff(w, c);
  }

  lemma NoChunkYet()
    ensures SameTexts([], [Concat([])])
  {
    SameTextsIff([], [""]);
    OnePayloads("");
    EmptyChunk((x: string) => "");
  }

  lemma AlwaysSameLast(front: seq<string>, c: string)
    ensures AlwaysSame(front + [c]) <==> AlwaysSame(front) && SameTexts(front + [c], [Concat(front + [c])])
    ensures AlwaysSame(front) ==> SameTexts(front, [Concat(front)])
  {
    var all := front + [c];
    assert forall k :: 0 <= k <= |front| ==> all[..k] == front[..k];
    assert all[..|all|] == all && front[..|front|] == front;
  }

  lemma CutsAgreeLast(front: seq<string>, c: string)
    ensures CutsAgree(front + [c]) <==> CutsAgree(front) && CutAgrees(Concat(front), c)
  {
    var all := front + [c];
    assert forall k :: 0 <= k < |front| ==> all[..k] == front[..k] && all[k] == front[k];
    assert all[..|front|] == front && all[|front|] == c;
  }

  /** For every list of chunks: at every moment the text is that of the stream so far, whatever payloads carry,
      exactly when every cut agrees. */
  lemma {:induction false} AlwaysSameIff(chunks: seq<string>)
    ensures AlwaysSame(chunks) <==> CutsAgree(chunks)
  {
    if chunks == [] {
      NoChunkYet();
      assert AlwaysSame(chunks);
    } else {
      var front, c := chunks[..|chunks|-1], chunks[|chunks|-1];
      assert chunks == front + [c];
      AlwaysSameIff(front);
      AlwaysSameLast(front, c);
      CutsAgreeLast(front, c);
      if AlwaysSame(front) { OneMoreChunk(front, c); }
    }
  }

  // ---- Only at the end ----

  lemma EmptyField()
    ensures ChunkMarks("data:") == []
  {
    assert [ '\n' ] == "\n";
    SplitCharNone("data:", '\n');
    TrimTrimmed(JavaScript, "data:");
    TrimTrimmed(JavaScript, "");
    assert "data:"[5..] == "";
    OneMark("data:");
  }

  /** A payload that is lost, and then mistaken for no data at all. */
  predicate Loses(p: string) {
    p != "" && p != DONE && Trimmed(JavaScript, p) && '\n' !in p && !StartsWith(p, PREFIX)
  }

  lemma LostPiece(p: string, end: string)
    requires Loses(p)
    ensures ChunkMarks(p + "\n" + end) == ChunkMarks(end)
  {
    TrimTrimmed(JavaScript, p);
    MarksLine(p, end);
    assert [] + ChunkMarks(end) == ChunkMarks(end);
  }

  lemma DataFirst(p: string, rest: string)
    requires p != "" && Trimmed(JavaScript, p) && '\n' !in p
    ensures ChunkMarks(("data:" + p) + "\n" + rest) == [p] + ChunkMarks(rest)
  {
    var line := "data:" + p;
    DataLine(p);
    assert '\n' !in line;
    MarksLine(line, rest);
  }

  lemma HandedBeforeDone(p: string, rest: string)
    requires p != "" && p != DONE && Trimmed(JavaScript, p) && '\n' !in p && Handed(ChunkMarks(rest)) == []
    ensures Handed(ChunkMarks("data:" + (p + ("\n" + rest)))) == [p]
  {
    DataFirst(p, rest);
    FieldAndLine(p, rest);
  }

  lemma FieldAndLine(p: string, rest: string)
    ensures "data:" + (p + ("\n" + rest)) == ("data:" + p) + "\n" + rest
  {
  }

  lemma DoneFirst(rest: string)
    ensures Handed(ChunkMarks(("data:" + DONE) + ("\n" + rest))) == []
  {
    DataFirst(DONE, rest);
    Join("data:" + DONE, "\n", rest);
    NothingMore([DONE], ChunkMarks(rest));
  }

  lemma DoneAlone()
    ensures Handed(ChunkMarks("data:" + DONE)) == []
  {
    DataLine(DONE);
  }

  /** At its end alone a stream can also agree by accident, so no condition on single cuts is necessary for that: a
      payload lost at one cut comes back behind a `[DONE]` that does not reach so far. */
  lemma LossesCanCancel(p: string)
    requires Loses(p)
    ensures var chunks := ["data:", p + "\n" + ("data:" + DONE), "\n" + ("data:" + p)];
            SameTexts(chunks, [Concat(chunks)]) && !CutsAgree(chunks)
  {
    var line, end := "data:" + p, "data:" + DONE;
    var a, b, c := "data:", p + "\n" + end, "\n" + line;
    var chunks := [a, b, c];
    LostPayloads(p);
    WholePayloads(p);
    ThreeChunks(a, b, c);
    OnePayloads(Concat(chunks));
    SameTextsIff(chunks, [Concat(chunks)]);
    CutAgreesIff(a, b);
    assert chunks[..1] == [a] && [a][1..] == [];
    assert Concat(chunks[..1]) == a && chunks[1] == b;
  }

  lemma LostPayloads(p: string)
    requires Loses(p)
    ensures Handed(ChunkMarks("data:")) == [] && Handed(ChunkMarks(p + "\n" + ("data:" + DONE))) == []
    ensures Handed(ChunkMarks("\n" + ("data:" + p))) == [p]
  {
    EmptyField();
    LostPiece(p, "data:" + DONE);
    DoneAlone();
    FoundPayload(p);
  }

  lemma FoundPayload(p: string)
    requires Loses(p)
    ensures Handed(ChunkMarks("\n" + ("data:" + p))) == [p]
  {
    DataLine(p);
    assert [p] == [p] + [];
  }

  lemma WholePayloads(p: string)
    requires Loses(p)
    ensures Handed(ChunkMarks("data:" + (p + "\n" + ("data:" + DONE)))) == [p]
    ensures Handed(ChunkMarks("data:" + ((p + "\n" + ("data:" + DONE)) + ("\n" + ("data:" + p))))) == [p]
  {
    var end, line := "data:" + DONE, "\n" + ("data:" + p);
    DoneFirst("data:" + p);
    DoneAlone();
    HandedBeforeDone(p, end);
    HandedBeforeDone(p, end + line);
    Join(p, "\n", end);
    JoinFour(p, "\n", end, line);
  }

  lemma JoinFour(a: string, b: string, c: string, d: string)
    ensures (a + b + c) + d == a + (b + (c + d))
  {
  }

  lemma ThreeChunks(a: string, b: string, c: string)
    ensures Concat([a, b, c]) == a + (b + c)
    ensures Payloads([a, b, c]) == Handed(ChunkMarks(a)) + (Handed(ChunkMarks(b)) + Handed(ChunkMarks(c)))
  {
    var all, two := [a, b, c], [b, c];
    assert all[1..] == two;
    ConcatTwo(b, c);
    PayloadsTwo(b, c);
  }

  lemma ConcatTwo(b: string, c: string)
    ensures Concat([b, c]) == b + c
  {
    TwoChunks(b, c, (x: string) => "");
  }

  lemma PayloadsTwo(b: string, c: string)
    ensures Payloads([b, c]) == Handed(ChunkMarks(b)) + Handed(ChunkMarks(c))
  {
    assert [b, c][1..] == [c];
    OnePayloads(c);
  }
}
