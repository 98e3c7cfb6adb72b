/** Reading nvidia-smi's table, and scaling byte counts. */
module Monitor {
  import opened Wrappers
  import opened Text

  const SEPARATOR: string := ", "
  const WORD: nat := 0x1_0000_0000_0000_0000
  const MIB: nat := 0x10_0000

  /** One GPU; memory in bytes once parsed, in MiB as nvidia-smi prints it. */
  datatype GPU = GPU(name: string, total: nat, used: nat, free: nat, utilization: int, temperature: int)

  // ---- The parser; the Windows and the Linux body are this one function ----

  /** n * 1024 * 1024 in uint64. */
  function Scale(n: nat): nat { n * 1024 % WORD * 1024 % WORD }

  function Memory(field: string): nat { Scale(ParseUint(Trim(Go, field))) }

  function Number(field: string): int { Atoi(Trim(Go, field)) }

  /** The row of one line, if it has one. */
  function ParseLine(line: string): Option<GPU> {
    var fields := Split(line, SEPARATOR);
    if line == "" || |fields| < 6 then None
    else Some(GPU(Trim(Go, fields[0]), Memory(fields[1]), Memory(fields[2]), Memory(fields[3]), Number(fields[4]),
        Number(fields[5])))
  }

  function Row(line: string): seq<GPU> {
    match ParseLine(line) case None => [] case Some(g) => [g]
  }

  function Rows(lines: seq<string>): seq<GPU> {
    if lines == [] then [] else Row(lines[0]) + Rows(lines[1..])
  }

  function Table(output: string): seq<GPU> { Rows(Split(Trim(Go, output), "\n")) }

  /** The loop body: the row of one line, or nothing where the source continues with the next. */
  method ReadRow(line: string) returns (row: seq<GPU>)
    ensures row == Row(line)
  {
    if line == "" { return []; }
    var fields := Split(line, SEPARATOR);
    if |fields| < 6 { return []; }
    var memTotal := ParseUint(Trim(Go, fields[1]));
    var memUsed := ParseUint(Trim(Go, fields[2]));
    var memFree := ParseUint(Trim(Go, fields[3]));
    var util := Atoi(Trim(Go, fields[4]));
    var temp := Atoi(Trim(Go, fields[5]));
    row := [GPU(Trim(Go, fields[0]), Scale(memTotal), Scale(memUsed), Scale(memFree), util, temp)];
  }

  lemma RowsSoFar(lines: seq<string>, i: nat)
    requires i < |lines|
    ensures Rows(lines[..i + 1]) == Rows(lines[..i]) + Row(lines[i])
  {
    assert lines[..i + 1] == lines[..i] + [lines[i]];
    RowsConcat(lines[..i], [lines[i]]);
  }

  /** A line gives a row exactly when it has at least six fields; what is behind the sixth does not matter. */
  lemma RowIff(line: string)
    ensures Row(line) != [] <==> |Split(line, SEPARATOR)| >= 6
    ensures |Row(line)| <= 1
  {
    if line == "" { IndexFirst("", SEPARATOR); }
  }

  lemma RowOfFields(a: string, b: string)
    requires |Split(a, SEPARATOR)| >= 6 && |Split(b, SEPARATOR)| >= 6
    requires Split(a, SEPARATOR)[..6] == Split(b, SEPARATOR)[..6]
    ensures Row(a) == Row(b)
  {
    var p, q := Split(a, SEPARATOR), Split(b, SEPARATOR);
    assert forall k :: 0 <= k < 6 ==> p[k] == p[..6][k] == q[..6][k] == q[k];
    IndexFirst("", SEPARATOR);
  }

  /** A field that does not begin like a number, such as "[N/A]", is read as zero. */
  lemma NoNumberIsZero(field: string)
    requires var t := Trim(Go, field); t == "" || !(Digit(t[0]) || t[0] == '-' || t[0] == '+')
    ensures Memory(field) == 0 && Number(field) == 0
  {
    NoNumber(Trim(Go, field));
  }

  method ReadRows(lines: seq<string>) returns (gpus: seq<GPU>)
    ensures gpus == Rows(lines)
  {
    gpus := [];
    for i := 0 to |lines|
      invariant gpus == Rows(lines[..i])
    {
      var row := ReadRow(lines[i]);
      gpus := gpus + row;
      RowsSoFar(lines, i);
    }
    assert lines[..|lines|] == lines;
  }

  method ParseTable(output: string) returns (gpus: seq<GPU>)
    ensures gpus == Table(output)
  {
    gpus := ReadRows(Split(Trim(Go, output), "\n"));
  }

  // ---- Round trip ----

  function PrintRow(g: GPU): string {
    g.name + ", " + (Numeral(g.total) + ", " + (Numeral(g.used) + ", " + (Numeral(g.free) + ", " +
    (Itoa(g.utilization) + ", " + Itoa(g.temperature)))))
  }

  function PrintTable(gs: seq<GPU>): string {
    if gs == [] then "" else PrintRow(gs[0]) + "\n" + PrintTable(gs[1..])
  }

  predicate Int64(n: int) { -(MAX_INT64 as int) - 1 <= n <= MAX_INT64 }

  /** What nvidia-smi can print: a trimmed name without the separator or a line break, and numbers that fit an int. */
  predicate Printable(g: GPU) {
    Trimmed(Go, g.name) && !Contains(g.name, SEPARATOR) && '\n' !in g.name && Int64(g.utilization) &&
        Int64(g.temperature)
  }

  predicate AllPrintable(gs: seq<GPU>) { forall k :: 0 <= k < |gs| ==> Printable(gs[k]) }

  /** A memory value after reading and scaling, with uint64's saturation and wrap-around. */
  function Rescaled(n: nat): nat { Scale(if n <= MAX_UINT64 then n else MAX_UINT64) }

  function Reread(g: GPU): GPU {
    g.(total := Rescaled(g.total), used := Rescaled(g.used), free := Rescaled(g.free))
  }

  function RereadAll(gs: seq<GPU>): seq<GPU> {
    if gs == [] then [] else [Reread(gs[0])] + RereadAll(gs[1..])
  }

  lemma OccursComma(f: string, k: nat)
    requires Occurs(f, SEPARATOR, k)
    ensures f[k] == ',' && f[k + 1] == ' '
  {
    var o := f[k..k + 2];
    assert o[0] == f[k] && o[1] == f[k + 1];
  }

  lemma NoCommaNoSeparator(f: string)
    requires ',' !in f
    ensures !Contains(f, SEPARATOR)
  {
    IndexFirst(f, SEPARATOR);
    var i := Index(f, SEPARATOR);
    if i >= 0 { OccursComma(f, i); }
  }

  /** A field without the separator is cut off whole, even when it ends with a comma. */
  lemma SplitField(f: string, rest: string)
    requires !Contains(f, SEPARATOR)
    ensures Split(f + ", " + rest, SEPARATOR) == [f] + Split(rest, SEPARATOR)
  {
    var s := f + ", " + rest;
    IndexFirst(s, SEPARATOR);
    IndexFirst(f, SEPARATOR);
    assert s[|f|..|f| + 2] == ", " && Occurs(s, SEPARATOR, |f|);
    var i := Index(s, SEPARATOR);
    assert i == |f| by {
      OccursComma(s, i);
      assert s[|f|] == ',';
      assert i + 2 <= |f| ==> s[i..i + 2] == f[i..i + 2];
      assert i + 2 <= |f| ==> Occurs(f, SEPARATOR, i);
    }
    assert s[..|f|] == f && s[|f| + 2..] == rest;
  }

  lemma NumeralField(n: nat)
    ensures !Contains(Numeral(n), SEPARATOR) && Trim(Go, Numeral(n)) == Numeral(n) && '\n' !in Numeral(n)
  {
    assert ',' !in Numeral(n) && '\n' !in Numeral(n);
    NoCommaNoSeparator(Numeral(n));
    TrimTrimmed(Go, Numeral(n));
  }

  lemma ItoaField(n: int)
    ensures !Contains(Itoa(n), SEPARATOR) && Trim(Go, Itoa(n)) == Itoa(n) && '\n' !in Itoa(n)
    ensures Trimmed(Go, Itoa(n)) && Itoa(n) != ""
  {
    var s := Itoa(n);
    forall c | c in s
      ensures Digit(c) || c == '-'
    {
      ItoaChars(n, c);
    }
    assert s[0] in s && s[|s|-1] in s;
    NoCommaNoSeparator(s);
    TrimTrimmed(Go, s);
  }

  lemma SplitRow(g: GPU)
    requires Printable(g)
    ensures Split(PrintRow(g), SEPARATOR) ==
            [g.name, Numeral(g.total), Numeral(g.used), Numeral(g.free), Itoa(g.utilization), Itoa(g.temperature)]
  {
    NumeralField(g.total);
    NumeralField(g.used);
    NumeralField(g.free);
    ItoaField(g.utilization);
    ItoaField(g.temperature);
    SplitSix(g.name, Numeral(g.total), Numeral(g.used), Numeral(g.free), Itoa(g.utilization), Itoa(g.temperature));
  }

  /** One more field in front. */
  lemma SplitCons(a: string, rest: string, parts: seq<string>)
    requires !Contains(a, SEPARATOR) && Split(rest, SEPARATOR) == parts
    ensures Split(a + ", " + rest, SEPARATOR) == [a] + parts
  {
    SplitField(a, rest);
  }

  lemma SplitSix(a: string, b: string, c: string, d: string, e: string, f: string)
    requires !Contains(a, SEPARATOR) && !Contains(b, SEPARATOR) && !Contains(c, SEPARATOR)
    requires !Contains(d, SEPARATOR) && !Contains(e, SEPARATOR) && !Contains(f, SEPARATOR)
    ensures Split(a + ", " + (b + ", " + (c + ", " + (d + ", " + (e + ", " + f)))), SEPARATOR) == [a, b, c, d, e, f]
  {
    var r4 := e + ", " + f;
    var r3 := d + ", " + r4;
    var r2 := c + ", " + r3;
    SplitTwoMore(d, e, f, [f]);
    SplitCons(c, r3, [d] + ([e] + [f]));
    SplitTwoMore(a, b, r2, [c] + ([d] + ([e] + [f])));
    SixInOrder(a, b, c, d, e, f);
  }

  lemma SixInOrder(a: string, b: string, c: string, d: string, e: string, f: string)
    ensures [a] + ([b] + ([c] + ([d] + ([e] + [f])))) == [a, b, c, d, e, f]
  {
  }

  lemma SplitTwoMore(a: string, b: string, rest: string, parts: seq<string>)
    requires !Contains(a, SEPARATOR) && !Contains(b, SEPARATOR) && Split(rest, SEPARATOR) == parts
    ensures Split(a + ", " + (b + ", " + rest), SEPARATOR) == [a] + ([b] + parts)
  {
    SplitCons(b, rest, parts);
    SplitCons(a, b + ", " + rest, [b] + parts);
  }

  lemma RowRoundTrip(g: GPU)
    requires Printable(g)
    ensures Row(PrintRow(g)) == [Reread(g)]
  {
    SplitRow(g);
    NumeralField(g.total);
    NumeralField(g.used);
    NumeralField(g.free);
    ItoaField(g.utilization);
    ItoaField(g.temperature);
    TrimTrimmed(Go, g.name);
    ParseUintNumeral(g.total);
    ParseUintNumeral(g.used);
    ParseUintNumeral(g.free);
    AtoiItoa(g.utilization);
    AtoiItoa(g.temperature);
  }

  /** A printed row holds no line break and keeps its ends under trimming. */
  lemma RowShape(g: GPU)
    requires Printable(g)
    ensures var s := PrintRow(g); '\n' !in s && s != "" && !Space(Go, s[0]) && !Space(Go, s[|s|-1])
  {
    NumeralField(g.total);
    NumeralField(g.used);
    NumeralField(g.free);
    ItoaField(g.utilization);
    ItoaField(g.temperature);
    EndsOf(g.name, Numeral(g.total) + ", " +
        (Numeral(g.used) + ", " + (Numeral(g.free) + ", " + (Itoa(g.utilization) + ", "))),
           Itoa(g.temperature));
  }

  lemma EndsOf(name: string, middle: string, last: string)
    requires Trimmed(Go, name) && last != "" && Trimmed(Go, last)
    ensures var s := name + ", " + (middle + last); s != "" && !Space(Go, s[0]) && !Space(Go, s[|s|-1])
  {
    var s := name + ", " + (middle + last);
    assert s[|s|-1] == last[|last|-1];
    assert s[0] == if name == "" then ',' else name[0];
  }

  /** The table without its last line end. */
  function Body(gs: seq<GPU>): string
    requires gs != []
  {
    if |gs| == 1 then PrintRow(gs[0]) else PrintRow(gs[0]) + "\n" + Body(gs[1..])
  }

  lemma {:induction false} BodyIsTable(gs: seq<GPU>)
    requires gs != []
    ensures PrintTable(gs) == Body(gs) + "\n"
  {
    if |gs| == 1 {
      assert gs[1..] == [];
    } else {
      BodyIsTable(gs[1..]);
    }
  }

  lemma {:induction false} BodyTrimmed(gs: seq<GPU>)
    requires gs != [] && AllPrintable(gs)
    ensures var s := Body(gs); s != "" && !Space(Go, s[0]) && !Space(Go, s[|s|-1])
  {
    RowShape(gs[0]);
    if |gs| > 1 {
      BodyTrimmed(gs[1..]);
    }
  }

  lemma {:induction false} BodyRows(gs: seq<GPU>)
    requires gs != [] && AllPrintable(gs)
    ensures Rows(Split(Body(gs), "\n")) == RereadAll(gs)
  {
    var line := PrintRow(gs[0]);
    assert [ '\n' ] == "\n";
    RowShape(gs[0]);
    RowRoundTrip(gs[0]);
    if |gs| == 1 {
      SplitCharNone(line, '\n');
      assert [line][1..] == [] && gs[1..] == [];
    } else {
      SplitLine(line, Body(gs[1..]), '\n');
      BodyRows(gs[1..]);
      assert ([line] + Split(Body(gs[1..]), "\n"))[1..] == Split(Body(gs[1..]), "\n");
    }
  }

  lemma TrimLineEnd(s: string)
    requires Trimmed(Go, s)
    ensures Trim(Go, s + "\n") == s
  {
    assert "" + s + "\n" == s + "\n";
    TrimCore(Go, "", s, "\n");
  }

  lemma EmptyTable()
    ensures Table("") == []
  {
    assert [ '\n' ] == "\n";
    TrimTrimmed(Go, "");
    SplitCharNone("", '\n');
  }

  /** Printing any list of GPUs and parsing the table gives them back, memory scaled with uint64's saturation and
      wrap-around. */
  lemma TableRoundTrip(gs: seq<GPU>)
    requires AllPrintable(gs)
    ensures Table(PrintTable(gs)) == RereadAll(gs)
  {
    if gs == [] {
      EmptyTable();
    } else {
      BodyIsTable(gs);
      BodyTrimmed(gs);
      BodyRows(gs);
      TrimLineEnd(Body(gs));
    }
  }

  // ---- When the scaling is exact ----

  function Exact(g: GPU): GPU { g.(total := g.total * MIB, used := g.used * MIB, free := g.free * MIB) }

  predicate Fits(g: GPU) { g.total < WORD / MIB && g.used < WORD / MIB && g.free < WORD / MIB }

  lemma RereadOneIff(g: GPU)
    ensures Reread(g) == Exact(g) <==> Fits(g)
  {
  }

  lemma {:induction false} RereadAt(gs: seq<GPU>, k: nat)
    requires k < |gs|
    ensures |RereadAll(gs)| == |gs| && RereadAll(gs)[k] == Reread(gs[k])
  {
    RereadLength(gs);
    if k > 0 { RereadAt(gs[1..], k - 1); }
  }

  lemma {:induction false} RereadLength(gs: seq<GPU>)
    ensures |RereadAll(gs)| == |gs|
  {
    if gs != [] { RereadLength(gs[1..]); }
  }

  lemma RereadExactIff(gs: seq<GPU>)
    ensures |RereadAll(gs)| == |gs|
    ensures (forall k :: 0 <= k < |gs| ==> RereadAll(gs)[k] == Exact(gs[k])) <==>
            (forall k :: 0 <= k < |gs| ==> Fits(gs[k]))
  {
    RereadLength(gs);
    forall k | 0 <= k < |gs|
      ensures RereadAll(gs)[k] == Exact(gs[k]) <==> Fits(gs[k])
    {
      RereadAt(gs, k);
      RereadOneIff(gs[k]);
    }
  }

  /** The parsed table is the printed list scaled by 2^20 exactly when every memory value is below 2^44. */
  lemma {:induction false} TableExactIff(gs: seq<GPU>)
    requires AllPrintable(gs)
    ensures var t := Table(PrintTable(gs));
            |t| == |gs| &&
            ((forall k :: 0 <= k < |gs| ==> t[k] == Exact(gs[k])) <==> (forall k :: 0 <= k < |gs| ==> Fits(gs[k])))
    ensures WORD / MIB == 0x1000_0000_0000
  {
    TableRoundTrip(gs);
    RereadExactIff(gs);
  }

  // ---- Line ends ----

  lemma {:induction false} IndexReturn(s: string)
    ensures Index(s + "\r", SEPARATOR) == Index(s, SEPARATOR)
  {
    var t := s + "\r";
    IndexFirst(s, SEPARATOR);
    IndexFirst(t, SEPARATOR);
    var i, j := Index(s, SEPARATOR), Index(t, SEPARATOR);
    if i >= 0 {
      assert t[i..i + 2] == s[i..i + 2];
      assert Occurs(t, SEPARATOR, i);
    }
    if j >= 0 {
      var o := t[j..j + 2];
      assert o[1] == ' ' && t[j + 1] == o[1];
      assert j + 1 < |s|;
      assert s[j..j + 2] == o;
      assert Occurs(s, SEPARATOR, j);
    }
  }

  /** The parts with a carriage return behind the last. */
  function WithReturn(p: seq<string>): seq<string>
    requires |p| > 0
  {
    p[..|p|-1] + [p[|p|-1] + "\r"]
  }

  lemma WithReturnCons(x: string, p: seq<string>)
    requires |p| > 0
    ensures WithReturn([x] + p) == [x] + WithReturn(p)
  {
    assert ([x] + p)[..|p|] == [x] + p[..|p|-1];
  }

  /** A carriage return at the end of a line stays in the last field. */
  lemma {:induction false} SplitReturn(s: string)
    ensures Split(s + "\r", SEPARATOR) == WithReturn(Split(s, SEPARATOR))
    decreases |s|
  {
    IndexReturn(s);
    var i := Index(s, SEPARATOR);
    if i >= 0 {
      var rest := s[i + 2..];
      assert (s + "\r")[..i] == s[..i] && (s + "\r")[i + 2..] == rest + "\r";
      SplitReturn(rest);
      WithReturnCons(s[..i], Split(rest, SEPARATOR));
    } else {
      assert WithReturn([s]) == [s + "\r"];
    }
  }

  lemma RowReturn(line: string)
    ensures Row(line + "\r") == Row(line)
  {
    SplitReturn(line);
    var p, q := Split(line, SEPARATOR), Split(line + "\r", SEPARATOR);
    var f := p[|p|-1];
    TrimIgnoresBlanks(Go, "", f, "\r");
    assert "" + f + "\r" == f + "\r";
    assert |q| == |p| && q[|p|-1] == f + "\r" && forall k :: 0 <= k < |p| - 1 ==> q[k] == p[k];
    assert line == "" ==> p == [""];
  }

  lemma {:induction false} RowsConcat(a: seq<string>, b: seq<string>)
    ensures Rows(a + b) == Rows(a) + Rows(b)
  {
    if a == [] {
      assert a + b == b;
    } else {
      assert (a + b)[1..] == a[1..] + b;
      RowsConcat(a[1..], b);
    }
  }

  /** The rows of a first line and of what follows it. */
  lemma RowsLine(line: string, rest: string)
    requires '\n' !in line
    ensures Rows(Split(line + "\n" + rest, "\n")) == Row(line) + Rows(Split(rest, "\n"))
  {
    assert [ '\n' ] == "\n";
    SplitLine(line, rest, '\n');
    RowsConcat([line], Split(rest, "\n"));
  }

  lemma {:induction false} RowsCrlf(s: string)
    ensures Rows(Split(Crlf(s), "\n")) == Rows(Split(s, "\n"))
    decreases |s|
  {
    assert [ '\n' ] == "\n";
    IndexChar(s, '\n');
    var i := Index(s, "\n");
    if i < 0 {
      CrlfFree(s);
    } else {
      var line, rest := s[..i], s[i + 1..];
      assert s == line + "\n" + rest;
      CrlfLine(s, i);
      RowsLine(line, rest);
      RowsLine(line + "\r", Crlf(rest));
      RowReturn(line);
      RowsCrlf(rest);
    }
  }

  lemma {:induction false} CrlfBlank(s: string)
    requires Blank(Go, s)
    ensures Blank(Go, Crlf(s))
  {
    if s != "" { CrlfBlank(s[1..]); }
  }

  lemma CrlfCore(s: string)
    requires Trimmed(Go, s)
    ensures Trimmed(Go, Crlf(s))
  {
    if s != "" {
      var n := |s| - 1;
      assert s == s[..n] + [s[n]];
      CrlfConcat(s[..n], [s[n]]);
      assert Crlf([s[n]]) == [s[n]] + Crlf([s[n]][1..]);
    }
  }

  /** For every output, LF and CRLF line ends give the same table. */
  lemma {:induction false} TableCrlf(output: string)
    ensures Table(Crlf(output)) == Table(output)
  {
    var a, b := TrimSplits(Go, output);
    var core := Trim(Go, output);
    CrlfConcat(a + core, b);
    CrlfConcat(a, core);
    CrlfBlank(a);
    CrlfBlank(b);
    CrlfCore(core);
    TrimCore(Go, Crlf(a), Crlf(core), Crlf(b));
    RowsCrlf(core);
  }

  /** Blanks around an output do not matter. */
  lemma TableIgnoresBlanks(a: string, output: string, b: string)
    requires Blank(Go, a) && Blank(Go, b)
    ensures Table(a + output + b) == Table(output)
  {
    TrimIgnoresBlanks(Go, a, output, b);
  }

  // ---- formatBytes ----

  function Pow1024(n: nat): nat { if n == 0 then 1 else 1024 * Pow1024(n - 1) }

  /** A byte count to be printed: itself, or as a multiple of `div` with a unit letter. */
  datatype Scaled = Bytes(b: nat) | Unit(div: nat, letter: char, exp: nat)

  const UNITS: string := "KMGTPE"

  lemma MulGrows(a: nat, b: nat, d: nat)
    requires a <= b
    ensures a * d <= b * d
  {
  }

  lemma QuotientIs(b: nat, d: nat, p: nat, r: nat)
    requires d > 0 && b == p * d + r && r < d
    ensures b / d == p
  {
    var q := b / d;
    assert b == q * d + b % d;
    if q < p {
      MulGrows(q + 1, p, d);
    } else if q > p {
      MulGrows(p + 1, q, d);
    }
  }

  lemma Regroup(p: nat, s: nat, div: nat)
    ensures (p * 1024 + s) * div == p * (div * 1024) + s * div
  {
    assert (p * 1024) * div == p * (div * 1024);
  }

  /** Dividing twice. */
  lemma DivStep(b: nat, div: nat)
    requires div > 0
    ensures b / div / 1024 == b / (div * 1024)
  {
    var q := b / div;
    var p, s := q / 1024, q % 1024;
    assert b == q * div + b % div && q == p * 1024 + s;
    Regroup(p, s, div);
    MulGrows(s, 1023, div);
    QuotientIs(b, div * 1024, p, s * div + b % div);
  }

  /** The scaling loop of formatBytes on a uint64; no product overflows and the unit letter exists. */
  method FormatScale(b: nat) returns (r: Scaled)
    requires b <= MAX_UINT64
    ensures b < 1024 ==> r == Bytes(b)
    ensures b >= 1024 ==>
              r.Unit? && r.exp <= 5 && r.div == Pow1024(r.exp + 1) && r.div <= b < 1024 * r.div &&
              r.letter == ['K', 'M', 'G', 'T', 'P', 'E'][r.exp]
  {
    if b < 1024 { return Bytes(b); }
    var div, exp := 1024, 0;
    var n := b / 1024;
    assert Pow1024(1) == 1024 * Pow1024(0);
    while n >= 1024
      invariant 1024 <= div <= b && div == Pow1024(exp + 1) && n == b / div
      decreases n
    {
      DivStep(b, div);
      assert div * 1024 <= b <= MAX_UINT64;
      div := div * 1024;
      exp := exp + 1;
      n := n / 1024;
    }
    BelowNext(b, div);
    ExponentBound(exp, b);
    r := Unit(div, UNITS[exp], exp);
  }

  lemma BelowNext(b: nat, div: nat)
    requires div > 0 && b / div < 1024
    ensures b < 1024 * div
  {
    MulGrows(b / div, 1023, div);
  }

  lemma {:induction false} PowGrows(m: nat, n: nat)
    requires m <= n
    ensures Pow1024(m) <= Pow1024(n)
    decreases n
  {
    if m < n { PowGrows(m, n - 1); }
  }

  lemma ExponentBound(e: nat, b: nat)
    requires Pow1024(e + 1) <= b <= MAX_UINT64
    ensures e <= 5
  {
    assert Pow1024(7) > MAX_UINT64;
    if e > 5 { PowGrows(7, e + 1); }
  }

  /** Only one exponent brackets a byte count, so the unit is the only right one. */
  lemma ScaleUnique(b: nat, e: nat, f: nat)
    requires Pow1024(e + 1) <= b < Pow1024(e + 2) && Pow1024(f + 1) <= b < Pow1024(f + 2)
    ensures e == f
  {
    if e < f {
      PowGrows(e + 2, f + 1);
    } else if f < e {
      PowGrows(f + 2, e + 1);
    }
  }
}
