/** Decoding undoes printing, and does not see line endings, comments or unknown fields. */
module SseRoundTrip {
  import opened Wrappers
  import opened Strings
  import opened Sse
  import opened SseBlocks

  // ---------- Line ends ----------

  function ToCRLF(s: string): string {
    if s == "" then ""
    else if s[0] == '\n' then "\r\n" + ToCRLF(s[1..])
    else [s[0]] + ToCRLF(s[1..])
  }

  lemma {:induction false} CRLFSplit(line: string, rest: string)
    requires '\n' !in line
    ensures ToCRLF(line + ("\n" + rest)) == (line + "\r") + ("\n" + ToCRLF(rest))
    decreases |line|
  {
    var all := line + ("\n" + rest);
    if line == "" {
      assert all == "\n" + rest && all[1..] == rest;
      assert ("" + "\r") + ("\n" + ToCRLF(rest)) == "\r\n" + ToCRLF(rest);
    } else {
      CRLFSplit(line[1..], rest);
      assert all[1..] == line[1..] + ("\n" + rest);
      Prepend(line, ToCRLF(rest));
    }
  }

  lemma Prepend(line: string, rest: string)
    requires line != ""
    ensures [line[0]] + ((line[1..] + "\r") + ("\n" + rest)) == (line + "\r") + ("\n" + rest)
  {
    assert line == [line[0]] + line[1..];
  }

  lemma {:induction false} CRLFNothing(s: string)
    requires '\n' !in s
    ensures ToCRLF(s) == s
    decreases |s|
  {
    if s != "" {
      CRLFNothing(s[1..]);
      assert s == [s[0]] + s[1..];
    }
  }

  /** The first line of a text and what follows it. */
  lemma SplitFirst(s: string) returns (line: string, rest: string)
    requires IndexOf('\n', s) < |s|
    ensures s == line + ("\n" + rest) && '\n' !in line && |rest| < |s|
    ensures rest == "" || rest[|rest| - 1] == s[|s| - 1]
  {
    var k := IndexOf('\n', s);
    line, rest := s[..k], s[k + 1..];
  }

  lemma FirstNewlineAt(line: string, rest: string)
    requires '\n' !in line
    ensures var all := line + ("\n" + rest);
            IndexOf('\n', all) == |line| && |all| == |line| + 1 + |rest| && all[..|line|] == line && all[|line| + 1..] == rest
  {
    IndexAfter('\n', line, "\n" + rest);
  }

  lemma FirstLine(line: string, rest: string)
    requires '\n' !in line
    ensures CompleteLines(line + ("\n" + rest)) == [TrimRight(line)] + CompleteLines(rest)
    ensures TailLines(line + ("\n" + rest)) == TailLines(rest)
  {
    FirstNewlineAt(line, rest);
  }

  lemma TrimsCR(line: string)
    ensures TrimRight(line + "\r") == TrimRight(line)
  {
    assert (line + "\r")[..|line|] == line;
  }

  /** Writing CRLF for every LF changes no line. */
  lemma {:induction false} CRLFKeepsLines(s: string)
    ensures CompleteLines(ToCRLF(s)) == CompleteLines(s) && TailLines(ToCRLF(s)) == TailLines(s)
    decreases |s|
  {
    if IndexOf('\n', s) < |s| {
      var line, rest := SplitFirst(s);
      CRLFKeepsLines(rest);
      CRLFSplit(line, rest);
      FirstLine(line, rest);
      FirstLine(line + "\r", ToCRLF(rest));
      TrimsCR(line);
    } else {
      CRLFNothing(s);
    }
  }

  /** For every stream, LF and CRLF line ends decode alike. */
  lemma CRLFInvariance(s: string)
    ensures DecodeAll(ToCRLF(s)) == DecodeAll(s)
  {
    DecodesBlocks(s);
    DecodesBlocks(ToCRLF(s));
    CRLFKeepsLines(s);
  }

  // ---------- Ignored lines ----------

  /** A comment, an unknown field, or a retry that is no number. */
  predicate Ignorable(line: string) {
    var name := FieldName(line);
    && line != ""
    && name != "data" && name != "event" && name != "id"
    && (name == "retry" ==> Atoi(FieldValue(line)).None?)
  }

  ghost predicate SameFields(a: seq<string>, b: seq<string>) {
    && Values(a, "data") == Values(b, "data") && Values(a, "event") == Values(b, "event")
    && Values(a, "id") == Values(b, "id") && Retries(a) == Retries(b)
  }

  lemma SameFieldsAppend(a: seq<string>, b: seq<string>, line: string)
    requires SameFields(a, b)
    ensures SameFields(a + [line], b + [line])
  {
    ValuesLast(a, line, "data");
    ValuesLast(b, line, "data");
    ValuesLast(a, line, "event");
    ValuesLast(b, line, "event");
    ValuesLast(a, line, "id");
    ValuesLast(b, line, "id");
    RetriesLast(a, line);
    RetriesLast(b, line);
  }

  lemma {:induction false} SameFieldsSameEvents(a: seq<string>, b: seq<string>, lines: seq<string>)
    requires SameFields(a, b)
    ensures EventsOf(Blocks(a, lines)) == EventsOf(Blocks(b, lines))
    decreases |lines|
  {
    if lines != [] && lines[0] != "" {
      SameFieldsAppend(a, b, lines[0]);
      SameFieldsSameEvents(a + [lines[0]], b + [lines[0]], lines[1..]);
    } else {
      assert Recognised(a) == Recognised(b) && BlockEvent(a) == BlockEvent(b);
      var rest := if lines == [] then [] else Blocks([], lines[1..]);
      assert Blocks(a, lines) == [a] + rest && Blocks(b, lines) == [b] + rest;
    }
  }

  lemma {:induction false} IgnoredAmongLines(open: seq<string>, before: seq<string>, line: string, after: seq<string>)
    requires Ignorable(line)
    ensures EventsOf(Blocks(open, before + [line] + after)) == EventsOf(Blocks(open, before + after))
    decreases |before|
  {
    if before == [] {
      assert before + [line] + after == [line] + after && before + after == after;
      ValuesLast(open, line, "data");
      ValuesLast(open, line, "event");
      ValuesLast(open, line, "id");
      RetriesLast(open, line);
      SameFieldsSameEvents(open + [line], open, after);
    } else {
      assert (before + [line] + after)[1..] == before[1..] + [line] + after;
      assert (before + after)[1..] == before[1..] + after;
      if before[0] == "" {
        IgnoredAmongLines([], before[1..], line, after);
      } else {
        IgnoredAmongLines(open + [before[0]], before[1..], line, after);
      }
    }
  }

  predicate AtLineStart(p: string) {
    p == "" || p[|p| - 1] == '\n'
  }

  lemma JoinRest(line: string, rest: string, s: string)
    ensures (line + ("\n" + rest)) + s == line + ("\n" + (rest + s))
  {}

  lemma EndsWithLine(p: string)
    requires p != "" && AtLineStart(p)
    ensures IndexOf('\n', p) < |p|
  {}

  lemma Glue(first: string, a: seq<string>, b: seq<string>)
    ensures [first] + (a + b) == ([first] + a) + b
  {}

  lemma FirstLineConcat(line: string, rest: string, s: string)
    requires '\n' !in line
    requires CompleteLines(rest + s) == CompleteLines(rest) + CompleteLines(s)
    ensures CompleteLines((line + ("\n" + rest)) + s) == CompleteLines(line + ("\n" + rest)) + CompleteLines(s)
    ensures TailLines((line + ("\n" + rest)) + s) == TailLines(rest + s)
  {
    JoinRest(line, rest, s);
    FirstLine(line, rest);
    FirstLine(line, rest + s);
    Glue(TrimRight(line), CompleteLines(rest), CompleteLines(s));
  }

  lemma {:induction false} LinesConcat(p: string, s: string)
    requires AtLineStart(p)
    ensures CompleteLines(p + s) == CompleteLines(p) + CompleteLines(s) && TailLines(p + s) == TailLines(s)
    decreases |p|
  {
    if p == "" {
      assert p + s == s;
    } else {
      EndsWithLine(p);
      var line, rest := SplitFirst(p);
      LinesConcat(rest, s);
      FirstLineConcat(line, rest, s);
    }
  }

  lemma StreamLinesConcat(p: string, s: string)
    requires AtLineStart(p)
    ensures StreamLines(p + s) == CompleteLines(p) + StreamLines(s)
  {
    LinesConcat(p, s);
    Associate(CompleteLines(p), CompleteLines(s), TailLines(s));
  }

  lemma Associate(a: seq<string>, b: seq<string>, c: seq<string>)
    ensures (a + b) + c == a + (b + c)
  {}

  /** A text is a number of whole lines and the beginning of one more. */
  lemma {:induction false} LastLineStart(p: string) returns (a: string, q: string)
    ensures p == a + q && AtLineStart(a) && '\n' !in q
  {
    if p == "" || p[|p| - 1] == '\n' {
      a, q := p, "";
    } else {
      var n := |p| - 1;
      a, q := LastLineStart(p[..n]);
      q := q + [p[n]];
    }
  }

  /** At any single line end LF and CRLF decode alike, so streams may mix them. */
  lemma CRLFAnywhere(p: string, s: string)
    ensures DecodeAll(p + ("\r\n" + s)) == DecodeAll(p + ("\n" + s))
  {
    var a, q := LastLineStart(p);
    var lf, crlf := q + ("\n" + s), (q + "\r") + ("\n" + s);
    LastLineOnly(a, q, s);
    SameLastLine(q, s);
    SameDecoding(a, lf, crlf);
  }

  lemma LastLineOnly(a: string, q: string, s: string)
    ensures (a + q) + ("\n" + s) == a + (q + ("\n" + s))
    ensures (a + q) + ("\r\n" + s) == a + ((q + "\r") + ("\n" + s))
  {}

  lemma SameLastLine(q: string, s: string)
    requires '\n' !in q
    ensures StreamLines((q + "\r") + ("\n" + s)) == StreamLines(q + ("\n" + s))
  {
    FirstLine(q, s);
    FirstLine(q + "\r", s);
    TrimsCR(q);
  }

  lemma SameDecoding(a: string, x: string, y: string)
    requires AtLineStart(a) && StreamLines(x) == StreamLines(y)
    ensures DecodeAll(a + x) == DecodeAll(a + y)
  {
    StreamLinesConcat(a, x);
    StreamLinesConcat(a, y);
    DecodesBlocks(a + x);
    DecodesBlocks(a + y);
  }

  /** Inserting a line the decoder ignores, anywhere between two lines, never changes the result. */
  lemma IgnoredLine(p: string, line: string, s: string)
    requires AtLineStart(p) && '\n' !in line && Ignorable(TrimRight(line))
    ensures DecodeAll(p + ((line + "\n") + s)) == DecodeAll(p + s)
  {
    var whole := (line + "\n") + s;
    LineThenRest(line, s);
    StreamLinesConcat(p, whole);
    StreamLinesConcat(p, s);
    DecodesBlocks(p + whole);
    DecodesBlocks(p + s);
    IgnoredInBlocks(CompleteLines(p), TrimRight(line), StreamLines(s));
  }

  lemma LineThenRest(line: string, s: string)
    requires '\n' !in line
    ensures StreamLines((line + "\n") + s) == [TrimRight(line)] + StreamLines(s)
  {
    assert (line + "\n") + s == line + ("\n" + s);
    FirstLine(line, s);
    Associate([TrimRight(line)], CompleteLines(s), TailLines(s));
  }

  lemma IgnoredInBlocks(before: seq<string>, line: string, after: seq<string>)
    requires Ignorable(line)
    ensures EventsOf(Blocks([], before + ([line] + after))) == EventsOf(Blocks([], before + after))
  {
    assert before + ([line] + after) == before + [line] + after;
    IgnoredAmongLines([], before, line, after);
  }

  // ---------- Writings of a field ----------

  /** Two lines that are read as the same field. */
  predicate SameReading(a: string, b: string) {
    a != "" && b != "" && FieldName(a) == FieldName(b) && FieldValue(a) == FieldValue(b)
  }

  lemma {:induction false} SameReadingAmongLines(open: seq<string>, before: seq<string>, a: string, b: string, after: seq<string>)
    requires SameReading(a, b)
    ensures EventsOf(Blocks(open, before + ([a] + after))) == EventsOf(Blocks(open, before + ([b] + after)))
    decreases |before|
  {
    if before == [] {
      assert before + ([a] + after) == [a] + after && before + ([b] + after) == [b] + after;
      SameReadingSameFields(open, a, b);
      SameFieldsSameEvents(open + [a], open + [b], after);
    } else {
      assert (before + ([a] + after))[1..] == before[1..] + ([a] + after);
      assert (before + ([b] + after))[1..] == before[1..] + ([b] + after);
      SameReadingAmongLines(if before[0] == "" then [] else open + [before[0]], before[1..], a, b, after);
    }
  }

  lemma SameReadingSameFields(open: seq<string>, a: string, b: string)
    requires SameReading(a, b)
    ensures SameFields(open + [a], open + [b])
  {
    ValuesLast(open, a, "data");
    ValuesLast(open, b, "data");
    ValuesLast(open, a, "event");
    ValuesLast(open, b, "event");
    ValuesLast(open, a, "id");
    ValuesLast(open, b, "id");
    RetriesLast(open, a);
    RetriesLast(open, b);
  }

  /** A line may be replaced by another writing of its field, anywhere in a stream. */
  lemma AnyWritingDecodesAlike(p: string, a: string, b: string, s: string, name: string, value: string)
    requires AtLineStart(p) && '\n' !in a && '\n' !in b && ':' !in name
    requires TrimRight(a) != "" && TrimRight(b) != "" && Writes(TrimRight(a), name, value) && Writes(TrimRight(b), name, value)
    ensures DecodeAll(p + ((a + "\n") + s)) == DecodeAll(p + ((b + "\n") + s))
  {
    ReadsAsWritten(TrimRight(a), name, value);
    ReadsAsWritten(TrimRight(b), name, value);
    WholeLineDecodes(p, a, s);
    WholeLineDecodes(p, b, s);
    SameReadingAmongLines([], CompleteLines(p), TrimRight(a), TrimRight(b), StreamLines(s));
  }

  lemma WholeLineDecodes(p: string, line: string, s: string)
    requires AtLineStart(p) && '\n' !in line
    ensures DecodeAll(p + ((line + "\n") + s)) == EventsOf(Blocks([], CompleteLines(p) + ([TrimRight(line)] + StreamLines(s))))
  {
    LineThenRest(line, s);
    StreamLinesConcat(p, (line + "\n") + s);
    DecodesBlocks(p + ((line + "\n") + s));
  }

  // ---------- Printing ----------

  function Digit(n: nat): (c: char)
    requires n < 10
    ensures IsDigit(c) && c as int - '0' as int == n
  {
    (n + 48) as char
  }

  function Decimal(n: nat): (s: string)
    ensures s != "" && forall i :: 0 <= i < |s| ==> IsDigit(s[i])
  {
    if n < 10 then [Digit(n)] else Decimal(n / 10) + [Digit(n % 10)]
  }

  lemma {:induction false} DecimalIsNumber(n: nat)
    ensures Number(Decimal(n)) == n
  {
    if n < 10 {
      assert Decimal(n)[..0] == "";
    } else {
      DecimalIsNumber(n / 10);
      assert Decimal(n)[..|Decimal(n)| - 1] == Decimal(n / 10);
    }
  }

  lemma AtoiDecimal(n: nat)
    requires n <= MAX_INT
    ensures Atoi(Decimal(n)) == Some(n)
  {
    DecimalIsNumber(n);
    assert IsDigit(Decimal(n)[0]);
  }

  function Zeros(n: nat): (s: string)
    ensures |s| == n && forall i :: 0 <= i < n ==> s[i] == '0'
  {
    seq(n, i => '0')
  }

  /** A text of digits is a number in decimal, after any number of zeros. */
  lemma {:induction false} DigitsAreDecimal(s: string) returns (k: nat)
    requires s != "" && Digits(s)
    ensures s == Zeros(k) + Decimal(Number(s))
  {
    var n := |s| - 1;
    var front := s[..n];
    assert IsDigit(s[n]) && s == front + [s[n]];
    if Number(front) == 0 {
      k := n;
      ZeroIsZeros(front);
      assert Decimal(Number(s)) == [s[n]];
    } else {
      k := DigitsAreDecimal(front);
      assert Decimal(Number(s)) == Decimal(Number(front)) + [s[n]];
    }
  }

  lemma {:induction false} ZeroIsZeros(s: string)
    requires Digits(s) && Number(s) == 0
    ensures s == Zeros(|s|)
  {
    if s != "" {
      var n := |s| - 1;
      assert IsDigit(s[n]);
      ZeroIsZeros(s[..n]);
      assert s == s[..n] + [s[n]];
    }
  }

  lemma {:induction false} ZerosInFront(k: nat, s: string)
    requires s != "" && Digits(s)
    ensures Digits(Zeros(k) + s) && Number(Zeros(k) + s) == Number(s)
    decreases |s|
  {
    var all, n := Zeros(k) + s, |s| - 1;
    assert all[..|all| - 1] == Zeros(k) + s[..n];
    assert forall i :: 0 <= i < |all| ==> all[i] == if i < k then '0' else s[i - k];
    if n == 0 {
      ZerosAreZero(k);
      assert Zeros(k) + s[..n] == Zeros(k);
      assert s[..n] == "";
    } else {
      ZerosInFront(k, s[..n]);
    }
  }

  lemma {:induction false} ZerosAreZero(k: nat)
    ensures Number(Zeros(k)) == 0
  {
    if k > 0 {
      ZerosAreZero(k - 1);
      assert Zeros(k)[..k - 1] == Zeros(k - 1);
    }
  }

  /** A numeral of n: an optional sign, zeros, and |n| in decimal. */
  predicate Numeral(s: string, n: int, sign: string, k: nat) {
    && (sign == "" || sign == "+" || sign == "-")
    && s == sign + (Zeros(k) + Decimal(if n < 0 then -n else n))
    && (n > 0 ==> sign != "-") && (n < 0 ==> sign == "-")
  }

  /** Atoi accepts exactly the numerals of 64-bit integers, and reads each as its number. */
  lemma AtoiIff(s: string, n: int)
    ensures Atoi(s) == Some(n) <==> -MAX_INT - 1 <= n <= MAX_INT && exists sign, k :: Numeral(s, n, sign, k)
  {
    if Atoi(s) == Some(n) {
      AtoiReadsNumeral(s, n);
    }
    if -MAX_INT - 1 <= n <= MAX_INT && exists sign, k :: Numeral(s, n, sign, k) {
      var sign, k :| Numeral(s, n, sign, k);
      NumeralIsRead(s, n, sign, k);
    }
  }

  lemma AtoiReadsNumeral(s: string, n: int)
    requires Atoi(s) == Some(n)
    ensures exists sign, k :: Numeral(s, n, sign, k)
  {
    var signed := s[0] == '-' || s[0] == '+';
    var sign, digits := if signed then s[..1] else "", if signed then s[1..] else s;
    var k := DigitsAreDecimal(digits);
    assert s == sign + digits;
    assert Numeral(s, n, sign, k);
  }

  lemma SignedIsRead(sign: string, digits: string)
    requires (sign == "" || sign == "+" || sign == "-") && digits != "" && Digits(digits)
    ensures var n: int := if sign == "-" then 0 - Number(digits) else Number(digits);
            Atoi(sign + digits) == if -MAX_INT - 1 <= n <= MAX_INT then Some(n) else None
  {
    var s := sign + digits;
    assert IsDigit(digits[0]);
    if sign == "" {
      assert s == digits;
    } else {
      assert s[0] == sign[0] && s[1..] == digits;
    }
  }

  lemma NumeralIsRead(s: string, n: int, sign: string, k: nat)
    requires -MAX_INT - 1 <= n <= MAX_INT && Numeral(s, n, sign, k)
    ensures Atoi(s) == Some(n)
  {
    var m: nat := if n < 0 then -n else n;
    ZerosInFront(k, Decimal(m));
    DecimalIsNumber(m);
    SignedIsRead(sign, Zeros(k) + Decimal(m));
  }

  function SplitLF(s: string): (parts: seq<string>)
    ensures |parts| >= 1
    decreases |s|
  {
    var k := IndexOf('\n', s);
    if k < |s| then [s[..k]] + SplitLF(s[k + 1..]) else [s]
  }

  /** A tight printer leaves out the space after the colon where it can. */
  function FieldLine(tight: bool, name: string, value: string): string {
    if tight && !(" " <= value) then name + ":" + value else name + ": " + value
  }

  function DataLines(tight: bool, parts: seq<string>): (lines: seq<string>)
    ensures |lines| == |parts| && forall i :: 0 <= i < |parts| ==> lines[i] == FieldLine(tight, "data", parts[i])
  {
    seq(|parts|, i requires 0 <= i < |parts| => FieldLine(tight, "data", parts[i]))
  }

  function FieldLines(tight: bool, id: string, event: string, parts: seq<string>, retry: nat): seq<string> {
    [FieldLine(tight, "id", id), FieldLine(tight, "event", event)] + DataLines(tight, parts) + [FieldLine(tight, "retry", Decimal(retry))]
  }

  function PrintLines(tight: bool, e: Event): seq<string>
    requires e.retry >= 0
  {
    FieldLines(tight, e.id, e.event, SplitLF(e.data), e.retry)
  }

  function Text(lines: seq<string>): string {
    if lines == [] then "" else lines[0] + "\n" + Text(lines[1..])
  }

  /** What fits on the lines of the format; the data is split over lines. */
  predicate Printable(e: Event) {
    '\n' !in e.id && '\n' !in e.event && 0 <= e.retry <= MAX_INT
  }

  /** An empty type is the default one. */
  function Normal(e: Event): Event {
    if e.event == "" then e.(event := "message") else e
  }

  function TrimAll(lines: seq<string>): (trimmed: seq<string>)
    ensures |trimmed| == |lines| && forall i :: 0 <= i < |lines| ==> trimmed[i] == TrimRight(lines[i])
  {
    seq(|lines|, i requires 0 <= i < |lines| => TrimRight(lines[i]))
  }

  /** What arrives of an event: CRs at the end of the id, the type or a data line are lost, and an empty type is filled in. */
  function Received(e: Event): Event {
    Normal(Event(TrimRight(e.id), TrimRight(e.event), Join(TrimAll(SplitLF(e.data))), e.retry))
  }

  function AllReceived(es: seq<Event>): seq<Event> {
    if es == [] then [] else [Received(es[0])] + AllReceived(es[1..])
  }

  function PrintAll(tight: bool, es: seq<Event>): string
    requires forall i :: 0 <= i < |es| ==> Printable(es[i])
  {
    if es == [] then ""
    else
      assert Printable(es[0]);
      Text(PrintLines(tight, es[0]) + [""]) + PrintAll(tight, es[1..])
  }

  lemma {:induction false} JoinCons(first: string, rest: seq<string>)
    requires rest != []
    ensures Join([first] + rest) == first + "\n" + Join(rest)
  {
    var all := [first] + rest;
    assert all[..|all| - 1] == [first] + rest[..|rest| - 1];
    if |rest| == 1 {
      assert all[..1] == [first];
      assert Join(all) == Join([first]) + "\n" + rest[0];
    } else {
      JoinCons(first, rest[..|rest| - 1]);
    }
  }

  lemma {:induction false} JoinSplit(s: string)
    ensures Join(SplitLF(s)) == s
    decreases |s|
  {
    if IndexOf('\n', s) < |s| {
      var first, rest := SplitFirst(s);
      JoinSplit(rest);
      FirstNewlineAt(first, rest);
      JoinCons(first, SplitLF(rest));
      NewlineBetween(first, rest);
    }
  }

  lemma NewlineBetween(first: string, rest: string)
    ensures first + "\n" + rest == first + ("\n" + rest)
  {}

  lemma FieldOf(tight: bool, name: string, value: string)
    requires ':' !in name
    ensures FieldName(FieldLine(tight, name, value)) == name && FieldValue(FieldLine(tight, name, value)) == value
  {
    ReadsAsWritten(FieldLine(tight, name, value), name, value);
  }

  /** Trimming a field line trims its value; the colon and the space after it stay. */
  lemma {:induction false} TrimField(tight: bool, name: string, value: string)
    ensures TrimRight(FieldLine(tight, name, value)) == FieldLine(tight, name, TrimRight(value))
  {
    var line, n := FieldLine(tight, name, value), |value| - 1;
    if value == "" {
      assert line[|line| - 1] == ' ' || line[|line| - 1] == ':';
    } else if value[n] == '\r' || value[n] == '\n' {
      assert line[|line| - 1] == value[n];
      SameSpacing(value);
      assert line[..|line| - 1] == FieldLine(tight, name, value[..n]);
      TrimField(tight, name, value[..n]);
    } else {
      assert line[|line| - 1] == value[n];
    }
  }

  lemma SameSpacing(value: string)
    requires value != "" && value[|value| - 1] != ' '
    ensures " " <= value <==> " " <= value[..|value| - 1]
  {
    assert " " <= value ==> value[0] == ' ';
  }

  lemma DecimalUntrimmed(n: nat)
    ensures TrimRight(Decimal(n)) == Decimal(n)
  {
    assert IsDigit(Decimal(n)[|Decimal(n)| - 1]);
  }

  lemma TrimConcat(a: seq<string>, b: seq<string>)
    ensures TrimAll(a + b) == TrimAll(a) + TrimAll(b)
  {
  }

  lemma TrimDataLines(tight: bool, parts: seq<string>)
    ensures TrimAll(DataLines(tight, parts)) == DataLines(tight, TrimAll(parts))
  {
    forall i | 0 <= i < |parts| ensures TrimRight(FieldLine(tight, "data", parts[i])) == FieldLine(tight, "data", TrimRight(parts[i])) {
      TrimField(tight, "data", parts[i]);
    }
  }

  lemma TrimFieldLines(tight: bool, id: string, event: string, parts: seq<string>, retry: nat)
    ensures TrimAll(FieldLines(tight, id, event, parts, retry)) == FieldLines(tight, TrimRight(id), TrimRight(event), TrimAll(parts), retry)
  {
    var header, last := [FieldLine(tight, "id", id), FieldLine(tight, "event", event)], [FieldLine(tight, "retry", Decimal(retry))];
    TrimField(tight, "id", id);
    TrimField(tight, "event", event);
    TrimField(tight, "retry", Decimal(retry));
    DecimalUntrimmed(retry);
    TrimDataLines(tight, parts);
    TrimConcat(header + DataLines(tight, parts), last);
    TrimConcat(header, DataLines(tight, parts));
    assert TrimAll(header) == [FieldLine(tight, "id", TrimRight(id)), FieldLine(tight, "event", TrimRight(event))];
    assert TrimAll(last) == last;
  }

  lemma StaysAtLineStart(line: string, rest: string)
    requires AtLineStart(rest)
    ensures AtLineStart(line + ("\n" + rest))
  {
  }

  lemma TrimCons(lines: seq<string>)
    requires lines != []
    ensures TrimAll(lines) == [TrimRight(lines[0])] + TrimAll(lines[1..])
  {
  }

  lemma {:induction false} TextLines(lines: seq<string>)
    requires forall i :: 0 <= i < |lines| ==> '\n' !in lines[i]
    ensures CompleteLines(Text(lines)) == TrimAll(lines) && AtLineStart(Text(lines)) && TailLines(Text(lines)) == []
    decreases |lines|
  {
    if lines != [] {
      var line, rest := lines[0], Text(lines[1..]);
      TextLines(lines[1..]);
      assert Text(lines) == line + ("\n" + rest);
      FirstLine(line, rest);
      StaysAtLineStart(line, rest);
      TrimCons(lines);
    }
  }

  lemma {:induction false} SplitIsLFFree(s: string)
    ensures forall i :: 0 <= i < |SplitLF(s)| ==> '\n' !in SplitLF(s)[i]
    decreases |s|
  {
    var k := IndexOf('\n', s);
    if k < |s| {
      SplitIsLFFree(s[k + 1..]);
    }
  }

  lemma DataLinesLast(tight: bool, parts: seq<string>)
    requires parts != []
    ensures DataLines(tight, parts) == DataLines(tight, parts[..|parts| - 1]) + [FieldLine(tight, "data", parts[|parts| - 1])]
  {
  }

  lemma DataLineAppended(tight: bool, block: seq<string>, front: seq<string>, last: string)
    ensures block + DataLines(tight, front + [last]) == (block + DataLines(tight, front)) + [FieldLine(tight, "data", last)]
    ensures FieldName(FieldLine(tight, "data", last)) == "data" && FieldValue(FieldLine(tight, "data", last)) == last
  {
    DataLinesLast(tight, front + [last]);
    assert (front + [last])[..|front|] == front;
    FieldOf(tight, "data", last);
  }

  lemma OneMoreDataLine(tight: bool, block: seq<string>, front: seq<string>, last: string, name: string)
    ensures Values(block + DataLines(tight, front + [last]), name) ==
            if name == "data" then Values(block + DataLines(tight, front), name) + [last] else Values(block + DataLines(tight, front), name)
    ensures Retries(block + DataLines(tight, front + [last])) == Retries(block + DataLines(tight, front))
  {
    DataLineAppended(tight, block, front, last);
    ValuesLast(block + DataLines(tight, front), FieldLine(tight, "data", last), name);
    RetriesLast(block + DataLines(tight, front), FieldLine(tight, "data", last));
  }

  lemma {:induction false} DataValues(tight: bool, block: seq<string>, parts: seq<string>, name: string)
    ensures Values(block + DataLines(tight, parts), name) == if name == "data" then Values(block, name) + parts else Values(block, name)
    decreases |parts|
  {
    if parts == [] {
      assert block + DataLines(tight, parts) == block;
    } else {
      var front, last := parts[..|parts| - 1], parts[|parts| - 1];
      assert parts == front + [last];
      DataValues(tight, block, front, name);
      OneMoreDataLine(tight, block, front, last, name);
    }
  }

  lemma {:induction false} DataRetries(tight: bool, block: seq<string>, parts: seq<string>)
    ensures Retries(block + DataLines(tight, parts)) == Retries(block)
    decreases |parts|
  {
    if parts == [] {
      assert block + DataLines(tight, parts) == block;
    } else {
      var front, last := parts[..|parts| - 1], parts[|parts| - 1];
      assert parts == front + [last];
      DataRetries(tight, block, front);
      OneMoreDataLine(tight, block, front, last, "data");
    }
  }

  lemma HeaderValues(tight: bool, id: string, event: string, name: string)
    ensures var header := [FieldLine(tight, "id", id), FieldLine(tight, "event", event)];
            && Values(header, name) == (if name == "id" then [id] else if name == "event" then [event] else [])
            && Retries(header) == []
  {
    FieldOf(tight, "id", id);
    FieldOf(tight, "event", event);
    ValuesLast([], FieldLine(tight, "id", id), name);
    ValuesLast([FieldLine(tight, "id", id)], FieldLine(tight, "event", event), name);
    RetriesLast([], FieldLine(tight, "id", id));
    RetriesLast([FieldLine(tight, "id", id)], FieldLine(tight, "event", event));
    assert [] + [FieldLine(tight, "id", id)] == [FieldLine(tight, "id", id)];
    assert [FieldLine(tight, "id", id)] + [FieldLine(tight, "event", event)] == [FieldLine(tight, "id", id), FieldLine(tight, "event", event)];
    assert "event"[0] != "retry"[0];
  }

  lemma FieldLinesValues(tight: bool, id: string, event: string, parts: seq<string>, retry: nat, name: string)
    requires retry <= MAX_INT
    ensures Values(FieldLines(tight, id, event, parts, retry), name) ==
            if name == "id" then [id] else if name == "event" then [event]
            else if name == "data" then parts else if name == "retry" then [Decimal(retry)] else []
    ensures Retries(FieldLines(tight, id, event, parts, retry)) == [retry]
  {
    var header, last := [FieldLine(tight, "id", id), FieldLine(tight, "event", event)], FieldLine(tight, "retry", Decimal(retry));
    HeaderValues(tight, id, event, name);
    DataValues(tight, header, parts, name);
    DataRetries(tight, header, parts);
    FieldOf(tight, "retry", Decimal(retry));
    AtoiDecimal(retry);
    ValuesLast(header + DataLines(tight, parts), last, name);
    RetriesLast(header + DataLines(tight, parts), last);
    assert "event"[0] != "retry"[0];
  }

  /** The lines of an event are one recognised block that reads as the event. */
  lemma FieldLinesBlock(tight: bool, id: string, event: string, parts: seq<string>, retry: nat)
    requires retry <= MAX_INT
    ensures var block := FieldLines(tight, id, event, parts, retry);
            Recognised(block) && BlockEvent(block) == Normal(Event(id, event, Join(parts), retry))
  {
    FieldLinesValues(tight, id, event, parts, retry, "id");
    FieldLinesValues(tight, id, event, parts, retry, "event");
    FieldLinesValues(tight, id, event, parts, retry, "data");
  }

  lemma FieldLinesShape(tight: bool, id: string, event: string, parts: seq<string>, retry: nat)
    ensures NoBlank(FieldLines(tight, id, event, parts, retry))
    ensures '\n' !in id && '\n' !in event && (forall i :: 0 <= i < |parts| ==> '\n' !in parts[i]) ==>
              forall i :: 0 <= i < |FieldLines(tight, id, event, parts, retry)| ==> '\n' !in FieldLines(tight, id, event, parts, retry)[i]
  {
  }

  lemma {:induction false} BlockEnds(open: seq<string>, block: seq<string>, lines: seq<string>)
    requires NoBlank(block)
    ensures Blocks(open, block + [""] + lines) == [open + block] + Blocks([], lines)
    decreases |block|
  {
    if block == [] {
      assert block + [""] + lines == [""] + lines;
      assert open + block == open;
    } else {
      BlockEnds(open + [block[0]], block[1..], lines);
      assert (block + [""] + lines)[1..] == block[1..] + [""] + lines;
      assert open + [block[0]] + block[1..] == open + block;
    }
  }

  /** The lines of an event as they are read. */
  function ReadLines(tight: bool, e: Event): seq<string>
    requires e.retry >= 0
  {
    FieldLines(tight, TrimRight(e.id), TrimRight(e.event), TrimAll(SplitLF(e.data)), e.retry)
  }

  lemma PrintedLines(tight: bool, e: Event, rest: string)
    requires Printable(e)
    ensures StreamLines(Text(PrintLines(tight, e) + [""]) + rest) == ReadLines(tight, e) + [""] + StreamLines(rest)
  {
    SplitIsLFFree(e.data);
    FieldLinesShape(tight, e.id, e.event, SplitLF(e.data), e.retry);
    TextLines(PrintLines(tight, e) + [""]);
    TrimConcat(PrintLines(tight, e), [""]);
    TrimFieldLines(tight, e.id, e.event, SplitLF(e.data), e.retry);
    assert TrimAll([""]) == [""];
    StreamLinesConcat(Text(PrintLines(tight, e) + [""]), rest);
  }

  /**
   Decoding a printed list of events, with or without a space after the colons, returns of each event all but CRs at
   the end of a line, with the default type filled in.
   */
  lemma {:induction false} RoundTrip(tight: bool, es: seq<Event>)
    requires forall i :: 0 <= i < |es| ==> Printable(es[i])
    ensures DecodeAll(PrintAll(tight, es)) == AllReceived(es)
    decreases |es|
  {
    if es == [] {
      assert DecodeAll("") == [];
    } else {
      var e, rest := es[0], PrintAll(tight, es[1..]);
      assert Printable(e);
      RoundTrip(tight, es[1..]);
      PrintedLines(tight, e, rest);
      FieldLinesShape(tight, TrimRight(e.id), TrimRight(e.event), TrimAll(SplitLF(e.data)), e.retry);
      BlockEnds([], ReadLines(tight, e), StreamLines(rest));
      assert [] + ReadLines(tight, e) == ReadLines(tight, e);
      FieldLinesBlock(tight, TrimRight(e.id), TrimRight(e.event), TrimAll(SplitLF(e.data)), e.retry);
      DecodesBlocks(rest);
      DecodesBlocks(PrintAll(tight, es));
      assert EventsOf([ReadLines(tight, e)] + StreamBlocks(rest)) == OneEvent(ReadLines(tight, e)) + EventsOf(StreamBlocks(rest));
    }
  }

  // ---------- What survives ----------

  predicate EndsInCR(s: string) {
    s != "" && s[|s| - 1] == '\r'
  }

  /** The event has a type, and no CR stands where a line ends. */
  predicate Survives(e: Event) {
    && e.event != "" && !EndsInCR(e.id) && !EndsInCR(e.event)
    && forall i :: 0 <= i < |SplitLF(e.data)| ==> !EndsInCR(SplitLF(e.data)[i])
  }

  lemma UntrimmedIff(s: string)
    requires '\n' !in s
    ensures TrimRight(s) == s <==> !EndsInCR(s)
  {
    assert s != "" ==> s[|s| - 1] in s;
  }

  lemma {:induction false} SplitJoin(parts: seq<string>)
    requires parts != [] && forall i :: 0 <= i < |parts| ==> '\n' !in parts[i]
    ensures SplitLF(Join(parts)) == parts
    decreases |parts|
  {
    if |parts| == 1 {
      assert parts == [parts[0]];
      assert IndexOf('\n', parts[0]) == |parts[0]|;
    } else {
      var first, rest := parts[0], parts[1..];
      SplitJoin(rest);
      JoinCons(first, rest);
      assert parts == [first] + rest;
      assert Join(parts) == first + ("\n" + Join(rest));
      FirstNewlineAt(first, Join(rest));
    }
  }

  lemma TrimKeepsLFFree(s: string)
    requires '\n' !in s
    ensures '\n' !in TrimRight(s)
  {
  }

  /** The data arrives unchanged exactly if none of its lines ends in a CR. */
  lemma DataSurvivesIff(data: string)
    ensures var parts := SplitLF(data);
            Join(TrimAll(parts)) == data <==> forall i :: 0 <= i < |parts| ==> !EndsInCR(parts[i])
  {
    var parts := SplitLF(data);
    SplitIsLFFree(data);
    forall i | 0 <= i < |parts| ensures (TrimRight(parts[i]) == parts[i] <==> !EndsInCR(parts[i])) && '\n' !in TrimRight(parts[i]) {
      UntrimmedIff(parts[i]);
      TrimKeepsLFFree(parts[i]);
    }
    JoinSplit(data);
    SplitJoin(TrimAll(parts));
    if forall i :: 0 <= i < |parts| ==> !EndsInCR(parts[i]) {
      assert TrimAll(parts) == parts;
    }
  }

  lemma SurvivesIff(e: Event)
    requires Printable(e)
    ensures Received(e) == e <==> Survives(e)
  {
    UntrimmedIff(e.id);
    UntrimmedIff(e.event);
    DataSurvivesIff(e.data);
    if e.event == "message" {
      assert e.event[0] == 'm';
    }
  }

  predicate AllSurvive(es: seq<Event>) {
    forall i :: 0 <= i < |es| ==> Survives(es[i])
  }

  lemma AllSurviveCons(es: seq<Event>)
    requires es != []
    ensures AllSurvive(es) <==> Survives(es[0]) && AllSurvive(es[1..])
  {
    assert forall i :: 1 <= i < |es| ==> es[i] == es[1..][i - 1];
    assert forall i :: 0 <= i < |es[1..]| ==> es[1..][i] == es[i + 1];
  }

  lemma ConsEqual(e: Event, rest: seq<Event>, es: seq<Event>)
    requires es != []
    ensures [e] + rest == es <==> e == es[0] && rest == es[1..]
  {
    assert es == [es[0]] + es[1..];
    assert ([e] + rest)[0] == e && ([e] + rest)[1..] == rest;
  }

  /** The list comes back unchanged if and only if every event has a type and no CR at the end of its id, its type or a data line. */
  lemma UnchangedIff(tight: bool, es: seq<Event>)
    requires forall i :: 0 <= i < |es| ==> Printable(es[i])
    ensures DecodeAll(PrintAll(tight, es)) == es <==> AllSurvive(es)
  {
    RoundTrip(tight, es);
    AllSurviveIff(es);
  }

  lemma {:induction false} AllSurviveIff(es: seq<Event>)
    requires forall i :: 0 <= i < |es| ==> Printable(es[i])
    ensures AllReceived(es) == es <==> AllSurvive(es)
  {
    if es != [] {
      AllSurviveIff(es[1..]);
      SurvivesIff(es[0]);
      AllSurviveCons(es);
      ConsEqual(Received(es[0]), AllReceived(es[1..]), es);
    }
  }
}
