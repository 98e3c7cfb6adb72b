/** The string functions the parsers use, as Go's `strings` and `strconv` and the browser's String define them. */
module Text {

  /** Concatenation is associative. */
  lemma Join<T>(x: seq<T>, y: seq<T>, z: seq<T>)
    ensures (x + y) + z == x + (y + z)
  {
  }

  // ---- Searching and splitting ----

  predicate StartsWith(s: string, p: string) {
    |p| <= |s| && s[..|p|] == p
  }

  predicate Occurs(s: string, sep: string, k: int) {
    0 <= k && k + |sep| <= |s| && s[k..k + |sep|] == sep
  }

  lemma OccursShift(s: string, sep: string, k: int)
    requires |s| > 0 && k >= 1
    ensures Occurs(s, sep, k) <==> Occurs(s[1..], sep, k - 1)
  {
    if k + |sep| <= |s| {
      assert s[k..k + |sep|] == s[1..][k - 1..k - 1 + |sep|];
    }
  }

  /** strings.Index: the first occurrence of sep, or -1. */
  function Index(s: string, sep: string): (i: int)
    ensures -1 <= i && (i >= 0 ==> i + |sep| <= |s|)
    decreases |s|
  {
    if StartsWith(s, sep) then 0
    else if s == "" then -1
    else
      var r := Index(s[1..], sep);
      if r < 0 then -1 else r + 1
  }

  /** Index finds an occurrence if there is one, and no later than any other. */
  lemma {:induction false} IndexFirst(s: string, sep: string)
    ensures var i := Index(s, sep);
            (i >= 0 ==> Occurs(s, sep, i)) && (forall k :: Occurs(s, sep, k) ==> 0 <= i <= k)
    decreases |s|
  {
    if !StartsWith(s, sep) && s != "" {
      IndexFirst(s[1..], sep);
      var r := Index(s[1..], sep);
      if r >= 0 { OccursShift(s, sep, r + 1); }
      forall k | Occurs(s, sep, k)
        ensures 0 <= r < k
      {
        assert k != 0;
        OccursShift(s, sep, k);
      }
    }
  }

  predicate Contains(s: string, sep: string) { Index(s, sep) >= 0 }

  /** strings.Split with a non-empty separator. */
  function Split(s: string, sep: string): (parts: seq<string>)
    requires |sep| > 0
    ensures |parts| > 0
    decreases |s|
  {
    var i := Index(s, sep);
    if i < 0 then [s] else [s[..i]] + Split(s[i + |sep|..], sep)
  }

  /** One-character separators. */
  lemma OccursChar(s: string, c: char, k: int)
    ensures Occurs(s, [c], k) <==> 0 <= k < |s| && s[k] == c
  {
    if 0 <= k < |s| { assert s[k..k + 1] == [s[k]]; }
  }

  lemma IndexChar(s: string, c: char)
    ensures Contains(s, [c]) <==> c in s
    ensures var i := Index(s, [c]); i >= 0 ==> i < |s| && s[i] == c && c !in s[..i]
  {
    var i := Index(s, [c]);
    IndexFirst(s, [c]);
    OccursChar(s, c, i);
    forall k | 0 <= k < |s| && s[k] == c
      ensures 0 <= i <= k
    {
      OccursChar(s, c, k);
    }
  }

  lemma IndexCharIs(s: string, c: char, i: nat)
    requires i < |s| && s[i] == c && c !in s[..i]
    ensures Index(s, [c]) == i
  {
    var r := Index(s, [c]);
    IndexFirst(s, [c]);
    OccursChar(s, c, i);
    OccursChar(s, c, r);
    assert 0 <= r <= i && s[r] == c;
    assert forall k :: 0 <= k < i ==> s[..i][k] == s[k];
  }

  lemma SplitCharNone(s: string, c: char)
    requires c !in s
    ensures Split(s, [c]) == [s]
  {
    IndexChar(s, c);
  }

  /** Two splits of neighbouring strings, joined: the last part of the left meets the first part of the right. */
  function Meet(p: seq<string>, q: seq<string>): seq<string>
    requires |p| > 0 && |q| > 0
  {
    p[..|p|-1] + [p[|p|-1] + q[0]] + q[1..]
  }

  lemma {:induction false} SplitConcat(a: string, b: string, c: char)
    ensures Split(a + b, [c]) == Meet(Split(a, [c]), Split(b, [c]))
    decreases |a|
  {
    var i := Index(a, [c]);
    IndexChar(a, c);
    if i >= 0 {
      SplitAtFirst(a, b, c, i);
      SplitConcat(a[i + 1..], b, c);
    } else {
      SplitFreeConcat(a, b, c);
    }
  }

  lemma SplitAtFirst(a: string, b: string, c: char, i: nat)
    requires i < |a| && a[i] == c && c !in a[..i]
    ensures Split(a + b, [c]) == [a[..i]] + Split(a[i + 1..] + b, [c])
  {
    assert (a + b)[..i] == a[..i] && (a + b)[i + 1..] == a[i + 1..] + b;
    IndexCharIs(a + b, c, i);
  }

  lemma SplitFreeConcat(a: string, b: string, c: char)
    requires c !in a
    ensures Split(a + b, [c]) == Meet(Split(a, [c]), Split(b, [c]))
  {
    SplitCharNone(a, c);
    FrontOfFirst(a, b, c);
  }

  /** A separator-free string in front goes into the first part. */
  lemma FrontOfFirst(a: string, b: string, c: char)
    requires c !in a
    ensures Split(a + b, [c]) == [a + Split(b, [c])[0]] + Split(b, [c])[1..]
  {
    var j := Index(b, [c]);
    IndexChar(b, c);
    if j >= 0 {
      FreePrefix(a, b, c, j);
      var first, rest := [b[..j]], Split(b[j + 1..], [c]);
      assert (first + rest)[1..] == rest;
    } else {
      SplitCharNone(b, c);
      SplitCharNone(a + b, c);
      assert [a + b] == [a + b] + [b][1..];
    }
  }

  lemma FreePrefix(a: string, b: string, c: char, j: nat)
    requires c !in a && Index(b, [c]) == j
    ensures Split(a + b, [c]) == [a + b[..j]] + Split(b[j + 1..], [c])
  {
    IndexChar(b, c);
    var s := a + b;
    assert s[..|a| + j] == a + b[..j] && s[|a| + j + 1..] == b[j + 1..];
    IndexCharIs(s, c, |a| + j);
  }

  /** strings.Join. */
  function Joined(parts: seq<string>, sep: string): string
    requires |parts| > 0
  {
    if |parts| == 1 then parts[0] else parts[0] + sep + Joined(parts[1..], sep)
  }

  /** Splitting cuts the separators out and nothing else. */
  lemma {:induction false} SplitJoins(s: string, sep: string)
    requires |sep| > 0
    ensures Joined(Split(s, sep), sep) == s
    decreases |s|
  {
    var i := Index(s, sep);
    if i >= 0 {
      IndexFirst(s, sep);
      var rest := s[i + |sep|..];
      SplitJoins(rest, sep);
      assert s == s[..i] + sep + rest;
      assert ([s[..i]] + Split(rest, sep))[1..] == Split(rest, sep);
    }
  }

  /** And it cuts them all out: no part holds the separator. */
  lemma {:induction false} SplitPartsFree(s: string, sep: string)
    requires |sep| > 0
    ensures forall k :: 0 <= k < |Split(s, sep)| ==> !Contains(Split(s, sep)[k], sep)
    decreases |s|
  {
    var i := Index(s, sep);
    IndexFirst(s, sep);
    if i >= 0 {
      SplitPartsFree(s[i + |sep|..], sep);
      BeforeFirst(s, sep, i);
    }
  }

  lemma BeforeFirst(s: string, sep: string, i: nat)
    requires |sep| > 0 && Index(s, sep) == i
    ensures i <= |s| && !Contains(s[..i], sep)
  {
    var t := s[..i];
    IndexFirst(s, sep);
    IndexFirst(t, sep);
    var j := Index(t, sep);
    if j >= 0 {
      assert t[j..j + |sep|] == s[j..j + |sep|];
      assert Occurs(s, sep, j);
    }
  }

  lemma SplitLine(line: string, rest: string, c: char)
    requires c !in line
    ensures Split(line + [c] + rest, [c]) == [line] + Split(rest, [c])
  {
    var s := line + [c] + rest;
    assert s[..|line|] == line && s[|line| + 1..] == rest;
    IndexCharIs(s, c, |line|);
  }

  /** strings.LastIndex of one character. */
  function LastIndex(s: string, c: char): (i: int)
    ensures -1 <= i < |s|
  {
    if s == "" then -1 else if s[|s|-1] == c then |s| - 1 else LastIndex(s[..|s|-1], c)
  }

  lemma {:induction false} LastIndexIsLast(s: string, c: char)
    ensures forall k :: LastIndex(s, c) < k < |s| ==> s[k] != c
    ensures LastIndex(s, c) >= 0 ==> s[LastIndex(s, c)] == c
  {
    if s != "" && s[|s|-1] != c {
      LastIndexIsLast(s[..|s|-1], c);
    }
  }

  lemma LastIndexIs(s: string, c: char, i: int)
    requires -1 <= i < |s| && (i >= 0 ==> s[i] == c)
    requires forall k :: i < k < |s| ==> s[k] != c
    ensures LastIndex(s, c) == i
  {
    LastIndexIsLast(s, c);
  }

  lemma LastIndexAt(a: string, c: char, b: string)
    requires c !in b
    ensures LastIndex(a + [c] + b, c) == |a|
  {
    LastIndexIs(a + [c] + b, c, |a|);
  }

  // ---- Trimming ----

  datatype Dialect = Go | JavaScript

  /** Go's unicode.IsSpace, and the white space and line terminators of ECMAScript. */
  predicate Space(d: Dialect, c: char) {
    var n := c as int;
    9 <= n <= 13 || n == 32 || n == 0xA0 || n == 0x1680 || 0x2000 <= n <= 0x200A || n == 0x2028 || n == 0x2029 ||
    n == 0x202F || n == 0x205F || n == 0x3000 || (d.Go? && n == 0x85) || (d.JavaScript? && n == 0xFEFF)
  }

  /** The two dialects differ in two characters. */
  lemma DialectsDiffer(c: char)
    ensures Space(Go, c) != Space(JavaScript, c) <==> c as int == 0x85 || c as int == 0xFEFF
    ensures c == ' ' || c == '\t' || c == '\n' || c == '\r' ==> Space(Go, c) && Space(JavaScript, c)
  {
  }

  predicate Blank(d: Dialect, s: string) {
    forall k :: 0 <= k < |s| ==> Space(d, s[k])
  }

  function TrimLeft(d: Dialect, s: string): string {
    if s != "" && Space(d, s[0]) then TrimLeft(d, s[1..]) else s
  }

  function TrimRight(d: Dialect, s: string): string {
    if s != "" && Space(d, s[|s|-1]) then TrimRight(d, s[..|s|-1]) else s
  }

  function Trim(d: Dialect, s: string): string { TrimRight(d, TrimLeft(d, s)) }

  /** Neither end is a space. */
  predicate Trimmed(d: Dialect, s: string) {
    s != "" ==> !Space(d, s[0]) && !Space(d, s[|s|-1])
  }

  lemma {:induction false} TrimLeftBlank(d: Dialect, b: string, s: string)
    requires Blank(d, b)
    ensures TrimLeft(d, b + s) == TrimLeft(d, s)
  {
    if b == "" {
      assert b + s == s;
    } else {
      assert (b + s)[1..] == b[1..] + s;
      TrimLeftBlank(d, b[1..], s);
    }
  }

  lemma {:induction false} TrimRightBlank(d: Dialect, s: string, b: string)
    requires Blank(d, b)
    ensures TrimRight(d, s + b) == TrimRight(d, s)
  {
    if b == "" {
      assert s + b == s;
    } else {
      assert (s + b)[..|s + b| - 1] == s + b[..|b|-1];
      TrimRightBlank(d, s, b[..|b|-1]);
    }
  }

  /** What trimming cuts off: every string is blank + core + blank with a trimmed core, and the core is the result. */
  lemma {:induction false} TrimSplits(d: Dialect, s: string) returns (a: string, b: string)
    ensures s == a + Trim(d, s) + b && Blank(d, a) && Blank(d, b) && Trimmed(d, Trim(d, s))
  {
    a := CutLeft(d, s);
    var t := TrimLeft(d, s);
    b := CutRight(d, t);
    assert a + (TrimRight(d, t) + b) == a + TrimRight(d, t) + b;
  }

  lemma {:induction false} CutLeft(d: Dialect, s: string) returns (a: string)
    ensures s == a + TrimLeft(d, s) && Blank(d, a)
    ensures TrimLeft(d, s) != "" ==> !Space(d, TrimLeft(d, s)[0])
  {
    a := "";
    if s != "" && Space(d, s[0]) {
      var b := CutLeft(d, s[1..]);
      a := [s[0]] + b;
    }
  }

  lemma {:induction false} CutRight(d: Dialect, s: string) returns (b: string)
    ensures s == TrimRight(d, s) + b && Blank(d, b)
    ensures TrimRight(d, s) != "" ==> !Space(d, TrimRight(d, s)[|TrimRight(d, s)|-1])
  {
    b := "";
    if s != "" && Space(d, s[|s|-1]) {
      var a := CutRight(d, s[..|s|-1]);
      b := a + [s[|s|-1]];
    }
  }

  lemma TrimCore(d: Dialect, a: string, core: string, b: string)
    requires Blank(d, a) && Blank(d, b) && Trimmed(d, core)
    ensures Trim(d, a + core + b) == core
  {
    assert a + core + b == a + (core + b);
    TrimLeftBlank(d, a, core + b);
    if core == "" {
      assert core + b == b + "";
      TrimLeftBlank(d, b, "");
    } else {
      assert TrimLeft(d, core + b) == core + b;
      TrimRightBlank(d, core, b);
    }
  }

  lemma TrimTrimmed(d: Dialect, s: string)
    requires Trimmed(d, s)
    ensures Trim(d, s) == s
  {
    assert "" + s + "" == s;
    TrimCore(d, "", s, "");
  }

  lemma TrimEmpty(d: Dialect, s: string)
    ensures Trim(d, s) == "" <==> Blank(d, s)
  {
    var a, b := TrimSplits(d, s);
    if Blank(d, s) {
      assert s == s + "" + "";
      TrimCore(d, s, "", "");
    }
  }

  /** Blanks around a string do not change what trimming leaves. */
  lemma TrimIgnoresBlanks(d: Dialect, a: string, s: string, b: string)
    requires Blank(d, a) && Blank(d, b)
    ensures Trim(d, a + s + b) == Trim(d, s)
  {
    var x, y := TrimSplits(d, s);
    assert a + s + b == (a + x) + Trim(d, s) + (y + b);
    TrimCore(d, a + x, Trim(d, s), y + b);
  }

  // ---- Line ends ----

  /** LF replaced by CRLF. */
  function Crlf(s: string): string {
    if s == "" then "" else (if s[0] == '\n' then "\r\n" else [s[0]]) + Crlf(s[1..])
  }

  lemma {:induction false} CrlfConcat(a: string, b: string)
    ensures Crlf(a + b) == Crlf(a) + Crlf(b)
  {
    if a == "" {
      assert a + b == b;
    } else {
      assert (a + b)[1..] == a[1..] + b;
      CrlfConcat(a[1..], b);
    }
  }

  lemma {:induction false} CrlfFree(s: string)
    requires '\n' !in s
    ensures Crlf(s) == s
  {
    if s != "" { CrlfFree(s[1..]); }
  }

  lemma CrlfLine(s: string, i: nat)
    requires i < |s| && s[i] == '\n' && '\n' !in s[..i]
    ensures Crlf(s) == (s[..i] + "\r") + "\n" + Crlf(s[i + 1..])
  {
    var line, rest := s[..i], s[i + 1..];
    assert s == line + ("\n" + rest);
    CrlfOfLine(line, rest);
  }

  lemma CrlfOfLine(line: string, rest: string)
    requires '\n' !in line
    ensures Crlf(line + ("\n" + rest)) == (line + "\r") + "\n" + Crlf(rest)
  {
    CrlfConcat(line, "\n" + rest);
    CrlfFree(line);
    CrlfBreak(rest);
    Regroup3(line, rest);
  }

  lemma CrlfBreak(rest: string)
    ensures Crlf("\n" + rest) == "\r\n" + Crlf(rest)
  {
    assert ("\n" + rest)[1..] == rest;
  }

  lemma Regroup3(line: string, x: string)
    ensures line + ("\r\n" + Crlf(x)) == (line + "\r") + "\n" + Crlf(x)
  {
  }

  // ---- Decimal numbers ----

  const MAX_UINT64: nat := 0xFFFF_FFFF_FFFF_FFFF
  const MAX_INT64: nat := 0x7FFF_FFFF_FFFF_FFFF

  predicate Digit(c: char) { '0' <= c <= '9' }

  function DigitOf(n: nat): char
    requires n < 10
  {
    '0' + n as char
  }

  function ValueOf(c: char): nat
    requires Digit(c)
  {
    c as int - '0' as int
  }

  /** The decimal numeral of n. */
  function Numeral(n: nat): (s: string)
    ensures |s| > 0 && forall k :: 0 <= k < |s| ==> Digit(s[k])
  {
    if n < 10 then [DigitOf(n)] else Numeral(n / 10) + [DigitOf(n % 10)]
  }

  /** strconv.Itoa. */
  function Itoa(n: int): string { if n < 0 then "-" + Numeral(-n) else Numeral(n) }

  /** Where strconv.ParseUint stands after a prefix: a value, or one of its two errors. */
  datatype Parse = Value(n: nat) | Syntax | Range

  function ParseDigit(p: Parse, c: char): Parse {
    if !p.Value? then p
    else if !Digit(c) then Syntax
    else if p.n * 10 + ValueOf(c) > MAX_UINT64 then Range
    else Value(p.n * 10 + ValueOf(c))
  }

  function ParsePrefix(s: string): Parse {
    if s == "" then Value(0) else ParseDigit(ParsePrefix(s[..|s|-1]), s[|s|-1])
  }

  function ParseUintResult(s: string): Parse { if s == "" then Syntax else ParsePrefix(s) }

  /** The value that strconv.ParseUint(s, 10, 64) returns, also beside an error. */
  function ParseUint(s: string): nat {
    match ParseUintResult(s)
    case Value(n) => n
    case Syntax => 0
    case Range => MAX_UINT64
  }

  /** The value that strconv.Atoi returns on a 64-bit machine, also beside an error. */
  function Atoi(s: string): int {
    var neg := s != "" && s[0] == '-';
    var body := if s != "" && (s[0] == '-' || s[0] == '+') then s[1..] else s;
    match ParseUintResult(body)
    case Syntax => 0
    case Range => if neg then -(MAX_INT64 as int) - 1 else MAX_INT64
    case Value(n) =>
      if neg then (if n > MAX_INT64 + 1 then -(MAX_INT64 as int) - 1 else -(n as int))
      else if n > MAX_INT64 then MAX_INT64 else n
  }

  lemma {:induction false} ParseNumeral(n: nat)
    ensures ParsePrefix(Numeral(n)) == if n <= MAX_UINT64 then Value(n) else Range
    decreases n
  {
    var s := Numeral(n);
    if n < 10 {
      assert s[..0] == "";
    } else {
      assert s[..|s|-1] == Numeral(n / 10);
      ParseNumeral(n / 10);
    }
  }

  /** The number that a string of digits denotes. */
  function Decimal(s: string): nat
    requires forall k :: 0 <= k < |s| ==> Digit(s[k])
  {
    if s == "" then 0
    else
      assert Digit(s[|s|-1]);
      10 * Decimal(s[..|s|-1]) + (s[|s|-1] - '0') as int
  }

  lemma {:induction false} PrefixDecimal(s: string)
    requires forall k :: 0 <= k < |s| ==> Digit(s[k])
    ensures ParsePrefix(s) == if Decimal(s) <= MAX_UINT64 then Value(Decimal(s)) else Range
  {
    if s != "" { PrefixDecimal(s[..|s|-1]); }
  }

  /** Behind the first character that is no digit nothing matters any more. */
  lemma {:induction false} PrefixStops(s: string, i: nat)
    requires i < |s| && !Digit(s[i]) && forall k :: 0 <= k < i ==> Digit(s[k])
    ensures ParsePrefix(s) == if Decimal(s[..i]) <= MAX_UINT64 then Syntax else Range
  {
    if i == |s| - 1 {
      PrefixDecimal(s[..i]);
    } else {
      assert s[..|s|-1][..i] == s[..i];
      PrefixStops(s[..|s|-1], i);
    }
  }

  /** ParseUint on every string: the number of its digits up to the limit; zero if anything else is in it, unless
      the digits before that are too many already. */
  lemma ParseUintOfDigits(s: string)
    requires s != "" && forall k :: 0 <= k < |s| ==> Digit(s[k])
    ensures ParseUint(s) == if Decimal(s) <= MAX_UINT64 then Decimal(s) else MAX_UINT64
  {
    PrefixDecimal(s);
  }

  lemma ParseUintOfOthers(s: string, i: nat)
    requires i < |s| && !Digit(s[i]) && forall k :: 0 <= k < i ==> Digit(s[k])
    ensures ParseUint(s) == if Decimal(s[..i]) <= MAX_UINT64 then 0 else MAX_UINT64
  {
    PrefixStops(s, i);
  }

  /** A string that does not begin like a number is zero to both readers. */
  lemma NoNumber(s: string)
    requires s == "" || !(Digit(s[0]) || s[0] == '-' || s[0] == '+')
    ensures ParseUint(s) == 0 && Atoi(s) == 0
  {
    if s != "" {
      assert s[..0] == "";
      PrefixStops(s, 0);
    }
  }

  /** Atoi on digits with or without a sign: the number, up to the limits of an int. */
  lemma AtoiOfDigits(sign: string, s: string)
    requires (sign == "" || sign == "+" || sign == "-") && s != "" && forall k :: 0 <= k < |s| ==> Digit(s[k])
    ensures var n := if sign == "-" then -(Decimal(s) as int) else Decimal(s);
            Atoi(sign + s) == if n > MAX_INT64 then MAX_INT64 as int
                              else if n < -(MAX_INT64 as int) - 1 then -(MAX_INT64 as int) - 1 else n
  {
    PrefixDecimal(s);
    var all := sign + s;
    if sign == "" {
      assert all == s && Digit(s[0]);
    } else {
      assert all[0] == sign[0] && all[1..] == s;
    }
  }

  /** Reading back a numeral. */
  lemma ParseUintNumeral(n: nat)
    ensures ParseUint(Numeral(n)) == if n <= MAX_UINT64 then n else MAX_UINT64
  {
    ParseNumeral(n);
  }

  lemma AtoiNumeral(n: nat)
    requires n <= MAX_INT64
    ensures Atoi(Numeral(n)) == n
  {
    var s := Numeral(n);
    ParseNumeral(n);
    assert Digit(s[0]);
  }

  lemma AtoiNegative(n: nat)
    requires n <= MAX_INT64 + 1
    ensures Atoi("-" + Numeral(n)) == -(n as int)
  {
    var s := "-" + Numeral(n);
    ParseNumeral(n);
    assert s[1..] == Numeral(n);
  }

  lemma AtoiItoa(n: int)
    requires -(MAX_INT64 as int) - 1 <= n <= MAX_INT64
    ensures Atoi(Itoa(n)) == n
  {
    if n < 0 { AtoiNegative(-n); } else { AtoiNumeral(n); }
  }

  lemma {:induction false} NumeralInjective(a: nat, b: nat)
    requires Numeral(a) == Numeral(b)
    ensures a == b
    decreases a
  {
    var s, t := Numeral(a), Numeral(b);
    if a >= 10 && b >= 10 {
      assert s[..|s|-1] == Numeral(a / 10) && t[..|t|-1] == Numeral(b / 10);
      assert s[|s|-1] == DigitOf(a % 10) && t[|t|-1] == DigitOf(b % 10);
      NumeralInjective(a / 10, b / 10);
    } else {
      assert |s| == 1 || |t| == 1;
    }
  }

  lemma ItoaSign(n: int)
    ensures Itoa(n)[0] == '-' <==> n < 0
  {
    if n >= 0 { assert Digit(Itoa(n)[0]); }
  }

  lemma ItoaInjective(a: int, b: int)
    requires Itoa(a) == Itoa(b)
    ensures a == b
  {
    if (a < 0) == (b < 0) {
      if a < 0 {
        assert Itoa(a)[1..] == Numeral(-a) && Itoa(b)[1..] == Numeral(-b);
        NumeralInjective(-a, -b);
      } else {
        NumeralInjective(a, b);
      }
    } else {
      ItoaSign(a);
      ItoaSign(b);
    }
  }

  /** A printed number is made of digits, with at most a minus sign in front. */
  lemma ItoaChars(n: int, c: char)
    requires c in Itoa(n)
    ensures Digit(c) || c == '-'
  {
    if n < 0 {
      var k :| 0 <= k < |Itoa(n)| && Itoa(n)[k] == c;
      if k > 0 { assert c == Numeral(-n)[k - 1]; }
    }
  }
}
