/** The stream reader against the event-stream interpretation of the WHATWG HTML Living Standard,
    sections 9.2.5 (line ends) and 9.2.6 (fields and dispatch). */
module EventStream {
  import opened Text
  import opened StreamReader

  // ---- The standard ----

  /** The lines of a stream: each ends with CRLF, LF or CR; an unfinished last line is not one. */
  function Lines(s: string): seq<string>
    decreases |s|
  {
    var i := LineEnd(s);
    if i == |s| then []
    else [s[..i]] + Lines(if StartsWith(s[i..], "\r\n") then s[i + 2..] else s[i + 1..])
  }

  /** Length of the first line. */
  function LineEnd(s: string): (i: nat)
    ensures i <= |s| && (i < |s| ==> s[i] == '\r' || s[i] == '\n')
  {
    if s == "" || s[0] == '\r' || s[0] == '\n' then 0 else 1 + LineEnd(s[1..])
  }

  function FieldName(line: string): string {
    if Contains(line, ":") then line[..Index(line, ":")] else line
  }

  /** A field's value: what follows the colon, without one leading space. */
  function FieldValue(line: string): string {
    if !Contains(line, ":") then "" else DropSpace(line[Index(line, ":") + 1..])
  }

  function DropSpace(v: string): string {
    if v != "" && v[0] == ' ' then v[1..] else v
  }

  /** The data of the events dispatched over the lines, from a data buffer on.  Comments and fields other than
      `data` leave the buffer alone; a blank line dispatches a non-empty buffer without its last LF; what is
      pending at the end is lost. */
  function Dispatched(lines: seq<string>, buffer: string): seq<string> {
    if lines == [] then []
    else if lines[0] == "" then
      (if buffer == "" then [] else [buffer[..|buffer|-1]]) + Dispatched(lines[1..], "")
    else if FieldName(lines[0]) == "data" then Dispatched(lines[1..], buffer + FieldValue(lines[0]) + "\n")
    else Dispatched(lines[1..], buffer)
  }

  // ---- Streams of events ----

  /** One event: other lines, its data lines, other lines, a blank line. */
  datatype Event = Event(before: seq<string>, values: seq<string>, after: seq<string>)

  predicate OneLine(s: string) { '\r' !in s && '\n' !in s }

  /** A comment or a field that is not `data` to the standard nor to the reader. */
  predicate OtherLine(s: string) {
    s != "" && OneLine(s) && FieldName(s) != "data" && DataOf(s) == ""
  }

  predicate WellFormed(e: Event) {
    e.values != [] && (forall k :: 0 <= k < |e.values| ==> OneLine(e.values[k])) &&
    (forall k :: 0 <= k < |e.before| ==> OtherLine(e.before[k])) &&
    (forall k :: 0 <= k < |e.after| ==> OtherLine(e.after[k]))
  }

  predicate AllWellFormed(es: seq<Event>) { forall k :: 0 <= k < |es| ==> WellFormed(es[k]) }

  function DataLines(values: seq<string>): seq<string> {
    if values == [] then [] else ["data:" + values[0]] + DataLines(values[1..])
  }

  function EventLines(e: Event): seq<string> { e.before + DataLines(e.values) + e.after + [""] }

  function StreamLines(es: seq<Event>): seq<string> {
    if es == [] then [] else EventLines(es[0]) + StreamLines(es[1..])
  }

  function Unlines(lines: seq<string>): string {
    if lines == [] then "" else lines[0] + "\n" + Unlines(lines[1..])
  }

  /** The stream as it is sent. */
  function Stream(es: seq<Event>): string { Unlines(StreamLines(es)) }

  /** The values of data lines, each with an LF behind it. */
  function Buffer(values: seq<string>): string {
    if values == [] then "" else DropSpace(values[0]) + "\n" + Buffer(values[1..])
  }

  /** The data of an event: the values, joined by LF. */
  function EventData(values: seq<string>): string
    requires values != []
  {
    if |values| == 1 then DropSpace(values[0]) else DropSpace(values[0]) + "\n" + EventData(values[1..])
  }

  /** The event data that the standard dispatches for each event. */
  function Values(es: seq<Event>): seq<string>
    requires AllWellFormed(es)
  {
    if es == [] then []
    else
      assert WellFormed(es[0]);
      [EventData(es[0].values)] + Values(es[1..])
  }

  /** The data strings that the reader makes of data lines, and of each event. */
  function ReadLinesOf(values: seq<string>): seq<string> {
    if values == [] then [] else Mark("data:" + values[0]) + ReadLinesOf(values[1..])
  }

  function Read(es: seq<Event>): seq<string> {
    if es == [] then [] else ReadLinesOf(es[0].values) + Read(es[1..])
  }

  // ---- Both see the same lines ----

  lemma {:induction false} LineEndIs(line: string, rest: string)
    requires OneLine(line) && rest != "" && (rest[0] == '\r' || rest[0] == '\n')
    ensures LineEnd(line + rest) == |line|
  {
    var s := line + rest;
    if line != "" {
      assert s[1..] == line[1..] + rest;
      LineEndIs(line[1..], rest);
    }
  }

  lemma LfLine(line: string, rest: string)
    requires OneLine(line)
    ensures Lines(line + "\n" + rest) == [line] + Lines(rest)
  {
    var s := line + "\n" + rest;
    Join(line, "\n", rest);
    LineEndIs(line, "\n" + rest);
    assert s[..|line|] == line && s[|line| + 1..] == rest && s[|line|] == '\n';
    assert s[|line|..][0] == '\n' && "\r\n"[0] == '\r';
    assert !StartsWith(s[|line|..], "\r\n");
  }

  lemma CrlfLineEnd(line: string, rest: string)
    requires OneLine(line)
    ensures Lines((line + "\r") + "\n" + rest) == [line] + Lines(rest)
  {
    var s, tail := (line + "\r") + "\n" + rest, "\r\n" + rest;
    assert s == line + tail;
    LineEndIs(line, tail);
    assert s[..|line|] == line && s[|line|..] == tail && s[|line| + 2..] == rest;
    assert tail[..2] == "\r\n";
  }

  lemma {:induction false} LinesOfUnlines(lines: seq<string>)
    requires forall k :: 0 <= k < |lines| ==> OneLine(lines[k])
    ensures Lines(Unlines(lines)) == lines
  {
    if lines != [] {
      LfLine(lines[0], Unlines(lines[1..]));
      LinesOfUnlines(lines[1..]);
    }
  }

  /** CRLF line ends give the same lines. */
  lemma {:induction false} LinesOfCrlf(lines: seq<string>)
    requires forall k :: 0 <= k < |lines| ==> OneLine(lines[k])
    ensures Lines(Crlf(Unlines(lines))) == lines
  {
    if lines != [] {
      var line, rest := lines[0], Unlines(lines[1..]);
      Join(line, "\n", rest);
      CrlfOfLine(line, rest);
      CrlfLineEnd(line, Crlf(rest));
      LinesOfCrlf(lines[1..]);
    }
  }

  lemma {:induction false} SplitOfUnlines(lines: seq<string>)
    requires forall k :: 0 <= k < |lines| ==> OneLine(lines[k])
    ensures Split(Unlines(lines), "\n") == lines + [""]
  {
    assert [ '\n' ] == "\n";
    if lines == [] {
      SplitCharNone("", '\n');
    } else {
      SplitLine(lines[0], Unlines(lines[1..]), '\n');
      SplitOfUnlines(lines[1..]);
      assert lines == [lines[0]] + lines[1..];
    }
  }

  lemma {:induction false} DataLinesSingle(values: seq<string>)
    requires forall k :: 0 <= k < |values| ==> OneLine(values[k])
    ensures forall k :: 0 <= k < |DataLines(values)| ==> OneLine(DataLines(values)[k])
  {
    if values != [] { DataLinesSingle(values[1..]); }
  }

  lemma {:induction false} StreamLinesSingle(es: seq<Event>)
    requires AllWellFormed(es)
    ensures forall k :: 0 <= k < |StreamLines(es)| ==> OneLine(StreamLines(es)[k])
  {
    if es != [] {
      assert WellFormed(es[0]);
      DataLinesSingle(es[0].values);
      StreamLinesSingle(es[1..]);
      var l := EventLines(es[0]);
      assert forall k :: 0 <= k < |l| ==> OneLine(l[k]);
      assert forall k :: |l| <= k < |StreamLines(es)| ==> StreamLines(es)[k] == StreamLines(es[1..])[k - |l|];
    }
  }

  // ---- What each makes of them ----

  lemma {:induction false} OthersIgnored(x: seq<string>, rest: seq<string>, buffer: string)
    requires forall k :: 0 <= k < |x| ==> OtherLine(x[k])
    ensures Dispatched(x + rest, buffer) == Dispatched(rest, buffer)
    ensures Marks(x + rest) == Marks(rest)
  {
    if x == [] {
      assert x + rest == rest;
    } else {
      assert (x + rest)[1..] == x[1..] + rest && (x + rest)[0] == x[0];
      OthersIgnored(x[1..], rest, buffer);
      assert [] + Marks(x[1..] + rest) == Marks(x[1..] + rest);
    }
  }

  lemma DataField(v: string)
    ensures FieldName("data:" + v) == "data" && FieldValue("data:" + v) == DropSpace(v)
  {
    var line := "data:" + v;
    assert [ ':' ] == ":";
    IndexCharIs(line, ':', 4);
    assert line[..4] == "data" && line[5..] == v;
  }

  lemma OneDataLine(v: string, rest: seq<string>, buffer: string)
    ensures Dispatched(["data:" + v] + rest, buffer) == Dispatched(rest, buffer + (DropSpace(v) + "\n"))
    ensures Marks(["data:" + v] + rest) == Mark("data:" + v) + Marks(rest)
  {
    var lines := ["data:" + v] + rest;
    assert lines[0] == "data:" + v && lines[1..] == rest;
    DataField(v);
    Join(buffer, DropSpace(v), "\n");
  }

  /** Data lines go into the buffer one by one. */
  lemma {:induction false} DataBuffered(values: seq<string>, rest: seq<string>, buffer: string)
    ensures Dispatched(DataLines(values) + rest, buffer) == Dispatched(rest, buffer + Buffer(values))
    decreases |values|
  {
    if values == [] {
      assert [] + rest == rest && buffer + "" == buffer;
    } else {
      var first, more := DropSpace(values[0]) + "\n", values[1..];
      OneDataLine(values[0], DataLines(more) + rest, buffer);
      Join(["data:" + values[0]], DataLines(more), rest);
      DataBuffered(more, rest, buffer + first);
      Join(buffer, first, Buffer(more));
    }
  }

  lemma {:induction false} DataMarked(values: seq<string>, rest: seq<string>)
    ensures Marks(DataLines(values) + rest) == ReadLinesOf(values) + Marks(rest)
    decreases |values|
  {
    if values == [] {
      assert [] + rest == rest && [] + Marks(rest) == Marks(rest);
    } else {
      var more := values[1..];
      OneDataLine(values[0], DataLines(more) + rest, "");
      Join(["data:" + values[0]], DataLines(more), rest);
      DataMarked(more, rest);
      Join(Mark("data:" + values[0]), ReadLinesOf(more), Marks(rest));
    }
  }

  /** The buffer is the event data with an LF behind it. */
  lemma {:induction false} BufferIsData(values: seq<string>)
    requires values != []
    ensures Buffer(values) == EventData(values) + "\n"
  {
    if |values| == 1 {
      assert values[1..] == [];
    } else {
      BufferIsData(values[1..]);
      Join(DropSpace(values[0]) + "\n", EventData(values[1..]), "\n");
    }
  }

  /** Data lines, other lines and a blank line dispatch one event. */
  lemma DataThenBlank(values: seq<string>, after: seq<string>, rest: seq<string>)
    requires values != [] && forall k :: 0 <= k < |after| ==> OtherLine(after[k])
    ensures Dispatched(DataLines(values) + (after + ([""] + rest)), "") == [EventData(values)] + Dispatched(rest, "")
    ensures Marks(DataLines(values) + (after + ([""] + rest))) == ReadLinesOf(values) + Marks(rest)
  {
    var tail := [""] + rest;
    var buffer := "" + Buffer(values);
    DataBuffered(values, after + tail, "");
    DataMarked(values, after + tail);
    OthersIgnored(after, tail, buffer);
    BufferIsData(values);
    assert buffer == EventData(values) + "\n" && buffer[..|buffer|-1] == EventData(values);
    assert tail[1..] == rest;
    TrimTrimmed(JavaScript, "");
    assert Marks(tail) == [] + Marks(rest) == Marks(rest);
  }

  lemma OneEvent(e: Event, rest: seq<string>)
    requires WellFormed(e)
    ensures Dispatched(EventLines(e) + rest, "") == [EventData(e.values)] + Dispatched(rest, "")
    ensures Marks(EventLines(e) + rest) == ReadLinesOf(e.values) + Marks(rest)
  {
    var mid := DataLines(e.values) + (e.after + ([""] + rest));
    assert EventLines(e) + rest == e.before + mid;
    OthersIgnored(e.before, mid, "");
    DataThenBlank(e.values, e.after, rest);
  }

  lemma {:induction false} EventsOf(es: seq<Event>)
    requires AllWellFormed(es)
    ensures Dispatched(StreamLines(es), "") == Values(es)
    ensures Marks(StreamLines(es)) == Read(es)
  {
    if es != [] {
      assert WellFormed(es[0]);
      OneEvent(es[0], StreamLines(es[1..]));
      EventsOf(es[1..]);
    }
  }

  /** What the standard dispatches and what the reader reads on a stream of events, with LF and with CRLF line ends. */
  lemma BothRead(es: seq<Event>)
    requires AllWellFormed(es)
    ensures Dispatched(Lines(Stream(es)), "") == Dispatched(Lines(Crlf(Stream(es))), "") == Values(es)
    ensures ChunkMarks(Stream(es)) == ChunkMarks(Crlf(Stream(es))) == Read(es)
  {
    StreamLinesSingle(es);
    LinesOfUnlines(StreamLines(es));
    LinesOfCrlf(StreamLines(es));
    SplitOfUnlines(StreamLines(es));
    EventsOf(es);
    MarksConcat(StreamLines(es), [""]);
    TrimTrimmed(JavaScript, "");
    OneMark("");
    assert Read(es) + [] == Read(es);
    CrlfMarks(Stream(es));
  }

  // ---- When they agree ----

  /** The value, less one leading space, is not empty and has no white space at either end. */
  predicate Plain(v: string) { DropSpace(v) != "" && Trimmed(JavaScript, DropSpace(v)) }

  /** The reader's data of a data line is its whole value, trimmed. */
  lemma DataOfValue(v: string)
    ensures DataOf("data:" + v) == Trim(JavaScript, v)
  {
    var line := "data:" + v;
    var x, y := TrimSplits(JavaScript, v);
    var t := Trim(JavaScript, v);
    if t == "" {
      TrimCore(JavaScript, "", "data:", x + y);
      assert "" + "data:" + (x + y) == line;
      TrimTrimmed(JavaScript, "");
      assert "data:"[5..] == "";
    } else {
      TrimCore(JavaScript, "", "data:" + x + t, y);
      assert "" + ("data:" + x + t) + y == line;
      assert ("data:" + x + t)[5..] == x + t && ("data:" + x + t)[..5] == "data:";
      assert x + t == x + t + "";
      TrimCore(JavaScript, x, t, "");
    }
  }

  /** One event is read as it is dispatched exactly when its value is plain. */
  lemma OneAgrees(v: string)
    ensures Mark("data:" + v) == [DropSpace(v)] <==> Plain(v)
  {
    DataOfValue(v);
    var d := DropSpace(v);
    var x, y := TrimSplits(JavaScript, d);
    if Plain(v) { TrimTrimmed(JavaScript, d); }
  }

  /** One data line with a plain value. */
  predicate Simple(e: Event) { |e.values| == 1 && Plain(e.values[0]) }

  /** The reader's data hold no line break, for no line does. */
  lemma DataOfOneLine(line: string)
    requires '\n' !in line
    ensures '\n' !in DataOf(line)
  {
    var t := Trim(JavaScript, line);
    TrimNoBreak(line);
    if StartsWith(t, PREFIX) { TrimNoBreak(t[5..]); }
  }

  lemma TrimNoBreak(s: string)
    requires '\n' !in s
    ensures '\n' !in Trim(JavaScript, s)
  {
    var a, b := TrimSplits(JavaScript, s);
    assert forall k :: 0 <= k < |Trim(JavaScript, s)| ==> s[|a| + k] == Trim(JavaScript, s)[k];
  }

  lemma {:induction false} ReadLinesOneLine(values: seq<string>)
    requires forall k :: 0 <= k < |values| ==> OneLine(values[k])
    ensures forall d :: d in ReadLinesOf(values) ==> '\n' !in d
  {
    if values != [] {
      DataOfOneLine("data:" + values[0]);
      ReadLinesOneLine(values[1..]);
    }
  }

  lemma {:induction false} ReadOneLine(es: seq<Event>)
    requires AllWellFormed(es)
    ensures forall d :: d in Read(es) ==> '\n' !in d
  {
    if es != [] {
      assert WellFormed(es[0]);
      ReadLinesOneLine(es[0].values);
      ReadOneLine(es[1..]);
    }
  }

  lemma {:induction false} ValueAt(es: seq<Event>, k: nat)
    requires AllWellFormed(es) && k < |es|
    ensures |Values(es)| == |es| && es[k].values != [] && Values(es)[k] == EventData(es[k].values)
  {
    assert WellFormed(es[0]);
    if |es| > 1 { ValueAt(es[1..], if k > 0 then k - 1 else 0); }
  }

  /** An event with more than one data line has a line break in its data, and the reader never finds that. */
  lemma ManyLinesDiffer(es: seq<Event>, k: nat)
    requires AllWellFormed(es) && k < |es| && |es[k].values| > 1
    ensures Read(es) != Values(es)
  {
    ReadOneLine(es);
    ValueAt(es, k);
    var vs := es[k].values;
    assert EventData(vs)[|DropSpace(vs[0])|] == '\n';
    assert '\n' in Values(es)[k];
    assert Values(es)[k] in Values(es);
  }

  lemma {:induction false} ReadShorter(es: seq<Event>)
    requires AllWellFormed(es) && forall k :: 0 <= k < |es| ==> |es[k].values| == 1
    ensures |Read(es)| <= |es| == |Values(es)|
  {
    if es != [] {
      OneValue(es[0].values);
      ReadShorter(es[1..]);
    }
  }

  lemma OneValue(values: seq<string>)
    requires |values| == 1
    ensures ReadLinesOf(values) == Mark("data:" + values[0]) && EventData(values) == DropSpace(values[0])
  {
    assert values[1..] == [];
  }

  /** Of events with one data line each. */
  lemma {:induction false} ReadAgrees(es: seq<Event>)
    requires AllWellFormed(es) && forall k :: 0 <= k < |es| ==> |es[k].values| == 1
    ensures Read(es) == Values(es) <==> forall k :: 0 <= k < |es| ==> Simple(es[k])
  {
    if es != [] {
      var v := es[0].values[0];
      OneValue(es[0].values);
      OneAgrees(v);
      ReadAgrees(es[1..]);
      ReadShorter(es[1..]);
      FirstApart(Mark("data:" + v), Read(es[1..]), DropSpace(v), Values(es[1..]));
      assert (forall k :: 0 <= k < |es| ==> Simple(es[k])) <==>
          Simple(es[0]) && (forall k :: 0 <= k < |es[1..]| ==> Simple(es[1..][k])) by {
        assert forall k :: 0 <= k < |es[1..]| ==> es[1..][k] == es[k + 1];
      }
    }
  }

  lemma FirstApart(m: seq<string>, r: seq<string>, d: string, w: seq<string>)
    requires |m| <= 1 && |r| <= |w|
    ensures m + r == [d] + w <==> m == [d] && r == w
  {
    if m + r == [d] + w {
      assert |m| == 1;
      assert (m + r)[0] == m[0] && (m + r)[1..] == r;
      assert ([d] + w)[0] == d && ([d] + w)[1..] == w;
    }
  }

  /** On a stream of events, with either line end, the reader finds exactly the dispatched event data, in order, if
      and only if every event has one data line and its value is plain. */
  lemma AgreesWithStandardIff(es: seq<Event>)
    requires AllWellFormed(es)
    ensures ChunkMarks(Stream(es)) == Dispatched(Lines(Stream(es)), "") <==> forall k :: 0 <= k < |es| ==> Simple(es[k])
    ensures ChunkMarks(Crlf(Stream(es))) == Dispatched(Lines(Crlf(Stream(es))), "") <==>
            forall k :: 0 <= k < |es| ==> Simple(es[k])
  {
    BothRead(es);
    if k :| 0 <= k < |es| && |es[k].values| != 1 {
      assert WellFormed(es[k]);
      ManyLinesDiffer(es, k);
    } else {
      ReadAgrees(es);
    }
  }

  /** Then the payloads handed to the JSON parser are the dispatched data before the first `[DONE]`, however the
      stream is cut at newlines, as long as nothing behind `[DONE]` carries text. */
  lemma HandedMatchesStandard(es: seq<Event>, chunks: seq<string>, delta: string -> string)
    requires AllWellFormed(es) && forall k :: 0 <= k < |es| ==> Simple(es[k])
    requires Concat(chunks) == Stream(es) && NewlineCuts(chunks)
    requires QuietAfterDone(Dispatched(Lines(Stream(es)), ""), delta)
    ensures FullText(chunks, delta) == TextOf(Handed(Dispatched(Lines(Stream(es)), "")), delta)
  {
    AgreesWithStandardIff(es);
    ChunkingIndependent(chunks, delta);
    OneChunk(Stream(es), delta);
  }

  /** Without the restriction to data fields at the start of a line the two differ: the reader takes an indented
      field. */
  lemma {:induction false} IndentedField(p: string)
    requires p != "" && Trimmed(JavaScript, p) && OneLine(p)
    ensures ChunkMarks(Unlines([" data:" + p, ""])) == [p]
    ensures Dispatched(Lines(Unlines([" data:" + p, ""])), "") == []
  {
    var line := " data:" + p;
    LinesOfUnlines([line, ""]);
    SplitOfUnlines([line, ""]);
    IndentedToStandard(line);
    IndentedToReader(p);
    assert [line, ""] + [""] == [line, "", ""];
  }

  lemma IndentedToStandard(line: string)
    requires StartsWith(line, " data:")
    ensures Dispatched([line, ""], "") == []
  {
    assert [ ':' ] == ":";
    assert line[..6] == " data:" && line[..6][..5] == line[..5] && line[5] == line[..6][5];
    IndexCharIs(line, ':', 5);
    assert FieldName(line) == " data";
    assert [line, ""][1..] == [""] && [""][1..] == [];
    assert Dispatched([line, ""], "") == Dispatched([""], "");
  }

  lemma IndentedToReader(p: string)
    requires p != "" && Trimmed(JavaScript, p)
    ensures Marks([" data:" + p, "", ""]) == [p]
  {
    var line := " data:" + p;
    DataOfValue(p);
    TrimTrimmed(JavaScript, p);
    assert line == " " + ("data:" + p) + "";
    TrimIgnoresBlanks(JavaScript, " ", "data:" + p, "");
    TrimTrimmed(JavaScript, "");
    assert [line, "", ""] == [line] + ["", ""];
    MarksConcat([line], ["", ""]);
    OneMark(line);
    OneMark("");
    assert ["", ""] == [""] + [""];
    MarksConcat([""], [""]);
  }
}
