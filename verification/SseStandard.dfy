/**
 Section 9.2.6 of the WHATWG HTML standard (interpreting an event stream), and exactly when the
 decoder of sse.go agrees with it on the types and data of the events.
 */
module SseStandard {
  import opened Strings
  import opened Sse
  import opened SseBlocks

  /** A dispatched message event, as far as the comparison goes. */
  datatype Message = Message(eventType: string, data: string)

  // ---------- The standard ----------

  const BOM: string := ['\U{EF}', '\U{BB}', '\U{BF}']

  function StripBOM(s: string): string {
    if BOM <= s then s[3..] else s
  }

  function LineEnd(s: string): (k: nat)
    ensures k <= |s|
    ensures k < |s| ==> s[k] == '\n' || s[k] == '\r'
    ensures forall i :: 0 <= i < k ==> s[i] != '\n' && s[i] != '\r'
  {
    if s == "" || s[0] == '\n' || s[0] == '\r' then 0 else 1 + LineEnd(s[1..])
  }

  /** Lines end with LF, CR or CRLF; what has no line end is never processed to a dispatch. */
  function StandardLines(s: string): seq<string>
    decreases |s|
  {
    var k := LineEnd(s);
    if k == |s| then []
    else if s[k] == '\r' && k + 1 < |s| && s[k + 1] == '\n' then [s[..k]] + StandardLines(s[k + 2..])
    else [s[..k]] + StandardLines(s[k + 1..])
  }

  /** The data buffer and the event type buffer. */
  datatype Buffers = Buffers(data: string, eventType: string)

  const CLEARED: Buffers := Buffers("", "")

  datatype Field = Field(name: string, value: string)

  /** If the text starts with a space, it is removed; a second one stays. */
  function WithoutSpace(text: string): string {
    if " " <= text then text[1..] else text
  }

  /** The characters before the first colon and those after it; without a colon the whole line is the name. */
  function StandardField(line: string): Field {
    if line == "" then Field("", "")
    else if line[0] == ':' then Field("", WithoutSpace(line[1..]))
    else
      var rest := StandardField(line[1..]);
      rest.(name := [line[0]] + rest.name)
  }

  /** A line that starts with a colon is ignored; id and retry touch other buffers. */
  function ProcessLine(b: Buffers, line: string): Buffers {
    var field := StandardField(line);
    if ":" <= line then b
    else if field.name == "event" then b.(eventType := field.value)
    else if field.name == "data" then b.(data := b.data + field.value + "\n")
    else b
  }

  /** A blank line dispatches unless the data buffer is empty, and clears both buffers. */
  function DispatchStandard(b: Buffers): seq<Message> {
    if b.data == "" then []
    else
      var data := if b.data[|b.data| - 1] == '\n' then b.data[..|b.data| - 1] else b.data;
      [Message(if b.eventType == "" then "message" else b.eventType, data)]
  }

  function Interpret(b: Buffers, lines: seq<string>): seq<Message>
    decreases |lines|
  {
    if lines == [] then []
    else if lines[0] == "" then DispatchStandard(b) + Interpret(CLEARED, lines[1..])
    else Interpret(ProcessLine(b, lines[0]), lines[1..])
  }

  function Standard(s: string): seq<Message> {
    Interpret(CLEARED, StandardLines(StripBOM(s)))
  }

  // ---------- The sub-language ----------

  /** Every CR is half of a CRLF. */
  predicate OnlyLFOrCRLF(s: string) {
    forall i: nat :: i < |s| ==> LFFollows(s, i)
  }

  predicate LFFollows(s: string, i: nat)
    requires i < |s|
  {
    s[i] == '\r' ==> i + 1 < |s| && s[i + 1] == '\n'
  }

  function Messages(es: seq<Event>): seq<Message> {
    seq(|es|, i requires 0 <= i < |es| => Message(es[i].event, es[i].data))
  }

  function HasData(block: seq<string>): bool {
    Values(block, "data") != []
  }

  /** The blocks a blank line ends, and the one the end of the stream cuts off. */
  function EndedBlocks(s: string): seq<seq<string>> {
    var bs := Blocks([], CompleteLines(s));
    bs[..|bs| - 1]
  }

  function OpenBlock(s: string): seq<string> {
    var bs := Blocks([], CompleteLines(s));
    bs[|bs| - 1] + TailLines(s)
  }

  /** What the decoder's departures from the standard cannot affect. */
  predicate Conforming(s: string) {
    && AllHaveData(EndedBlocks(s))
    && !Recognised(OpenBlock(s))
  }

  // ---------- Lines agree ----------

  lemma FirstNewline(s: string, m: nat)
    requires m < |s| && s[m] == '\n' && forall i :: 0 <= i < m ==> s[i] != '\n'
    ensures IndexOf('\n', s) == m
  {
    assert IndexOf('\n', s) <= m;
  }

  lemma CRLFLine(s: string, k: nat)
    requires k + 1 < |s| && s[k] == '\r' && s[k + 1] == '\n'
    requires '\r' !in s[..k] && '\n' !in s[..k]
    ensures IndexOf('\n', s) == k + 1 && TrimRight(s[..k + 1]) == s[..k]
  {
    var line := s[..k];
    assert forall i :: 0 <= i < k ==> s[i] == line[i];
    FirstNewline(s, k + 1);
    assert s[..k + 1] == line + "\r";
    TrimOneCR(line);
  }

  lemma LFLine(s: string, k: nat)
    requires k < |s| && s[k] == '\n'
    requires '\r' !in s[..k] && '\n' !in s[..k]
    ensures IndexOf('\n', s) == k && TrimRight(s[..k]) == s[..k]
  {
    var line := s[..k];
    assert forall i :: 0 <= i < k ==> s[i] == line[i];
    FirstNewline(s, k);
    TrimNothing(line);
  }

  lemma SuffixOnlyLFOrCRLF(s: string, n: nat)
    requires OnlyLFOrCRLF(s) && n <= |s|
    ensures OnlyLFOrCRLF(s[n..])
  {
    forall i: nat | i < |s| - n ensures LFFollows(s[n..], i) {
      assert LFFollows(s, n + i);
    }
  }

  lemma {:induction false} SameLines(s: string)
    requires OnlyLFOrCRLF(s)
    ensures StandardLines(s) == CompleteLines(s)
    decreases |s|
  {
    var k := LineEnd(s);
    if k == |s| {
      assert IndexOf('\n', s) == |s|;
    } else if s[k] == '\r' {
      assert LFFollows(s, k);
      CRLFLine(s, k);
      SuffixOnlyLFOrCRLF(s, k + 2);
      SameLines(s[k + 2..]);
    } else {
      LFLine(s, k);
      SuffixOnlyLFOrCRLF(s, k + 1);
      SameLines(s[k + 1..]);
    }
  }

  lemma TrimNothing(line: string)
    requires '\r' !in line && '\n' !in line
    ensures TrimRight(line) == line
  {
  }

  lemma TrimOneCR(line: string)
    requires '\r' !in line && '\n' !in line
    ensures TrimRight(line + "\r") == line
  {
    assert (line + "\r")[..|line|] == line;
    TrimNothing(line);
  }

  // ---------- Fields agree ----------

  /** The decoder splits a line into name and value as the standard does. */
  lemma {:induction false} SameField(line: string)
    ensures StandardField(line) == Field(FieldName(line), FieldValue(line))
  {
    if line != "" && line[0] != ':' {
      var k := IndexOf(':', line[1..]);
      SameField(line[1..]);
      assert IndexOf(':', line) == k + 1;
      assert line[..k + 1] == [line[0]] + line[1..][..k];
    }
  }

  // ---------- Blocks agree ----------

  function FoldStandard(block: seq<string>): Buffers {
    if block == [] then CLEARED else ProcessLine(FoldStandard(block[..|block| - 1]), block[|block| - 1])
  }

  lemma ProcessReadsLine(b: Buffers, line: string)
    requires line != ""
    ensures ProcessLine(b, line) == Buffers(if FieldName(line) == "data" then b.data + FieldValue(line) + "\n" else b.data,
                                            if FieldName(line) == "event" then FieldValue(line) else b.eventType)
  {
    SameField(line);
    assert "data"[0] != "event"[0];
    if line[0] == ':' {
      assert FieldName(line) == "";
    }
  }

  lemma {:induction false} FoldStandardReads(block: seq<string>)
    requires NoBlank(block)
    ensures FoldStandard(block).eventType == Last(Values(block, "event"), "")
    ensures FoldStandard(block).data == DataBuffer(Values(block, "data"))
  {
    if block != [] {
      var front, line := block[..|block| - 1], block[|block| - 1];
      assert block == front + [line];
      FoldStandardReads(front);
      ValuesLast(front, line, "event");
      ValuesLast(front, line, "data");
      BufferGrows(Values(front, "data"), FieldValue(line));
      ProcessReadsLine(FoldStandard(front), line);
    }
  }

  /** Each value and a newline after it. */
  function DataBuffer(values: seq<string>): string {
    if values == [] then "" else Join(values) + "\n"
  }

  lemma BufferGrows(values: seq<string>, v: string)
    ensures DataBuffer(values + [v]) == DataBuffer(values) + v + "\n"
  {
    JoinLast(values, v);
  }

  /** What the standard dispatches for a block. */
  function MessageOf(block: seq<string>): seq<Message> {
    if HasData(block) then [Message(EventType(block), Join(Values(block, "data")))] else []
  }

  function MessagesOf(blocks: seq<seq<string>>): seq<Message>
    decreases |blocks|
  {
    if blocks == [] then [] else MessageOf(blocks[0]) + MessagesOf(blocks[1..])
  }

  lemma DispatchesBlockData(block: seq<string>)
    requires NoBlank(block)
    ensures DispatchStandard(FoldStandard(block)) == MessageOf(block)
  {
    FoldStandardReads(block);
    var data := Join(Values(block, "data"));
    assert (data + "\n")[..|data|] == data;
  }

  lemma {:induction false} InterpretsBlocks(open: seq<string>, lines: seq<string>)
    requires NoBlank(open)
    ensures var bs := Blocks(open, lines); Interpret(FoldStandard(open), lines) == MessagesOf(bs[..|bs| - 1])
    decreases |lines|
  {
    if lines != [] {
      if lines[0] == "" {
        InterpretsBlocks([], lines[1..]);
        DispatchesBlockData(open);
        var rest := Blocks([], lines[1..]);
        assert ([open] + rest)[..|rest|] == [open] + rest[..|rest| - 1];
      } else {
        assert (open + [lines[0]])[..|open|] == open;
        InterpretsBlocks(open + [lines[0]], lines[1..]);
      }
    }
  }

  // ---------- Agreement ----------

  lemma {:induction false} BlocksWithTail(open: seq<string>, lines: seq<string>, tail: seq<string>)
    requires NoBlank(tail)
    ensures var bs := Blocks(open, lines); Blocks(open, lines + tail) == bs[..|bs| - 1] + [bs[|bs| - 1] + tail]
    decreases |lines|, |tail|
  {
    if lines == [] {
      assert lines + tail == tail;
      TailJoinsOpen(open, tail);
    } else {
      assert (lines + tail)[1..] == lines[1..] + tail;
      if lines[0] == "" {
        BlocksWithTail([], lines[1..], tail);
        var rest := Blocks([], lines[1..]);
        assert ([open] + rest)[..|rest|] == [open] + rest[..|rest| - 1];
      } else {
        BlocksWithTail(open + [lines[0]], lines[1..], tail);
      }
    }
  }

  lemma {:induction false} TailJoinsOpen(open: seq<string>, tail: seq<string>)
    requires NoBlank(tail)
    ensures Blocks(open, tail) == [open + tail]
    decreases |tail|
  {
    if tail == [] {
      assert open + tail == open;
    } else {
      TailJoinsOpen(open + [tail[0]], tail[1..]);
      assert open + [tail[0]] + tail[1..] == open + tail;
    }
  }

  lemma {:induction false} EventsOfAppend(a: seq<seq<string>>, block: seq<string>)
    ensures EventsOf(a + [block]) == EventsOf(a) + OneEvent(block)
    decreases |a|
  {
    if a == [] {
      assert a + [block] == [block];
      assert OneEvent(block) + [] == OneEvent(block);
    } else {
      EventsOfAppend(a[1..], block);
      assert (a + [block])[1..] == a[1..] + [block];
      var first, middle, last := OneEvent(a[0]), EventsOf(a[1..]), OneEvent(block);
      assert first + (middle + last) == (first + middle) + last;
    }
  }

  lemma {:induction false} TailHasNoBlank(s: string)
    ensures NoBlank(TailLines(s))
    decreases |s|
  {
    var k := IndexOf('\n', s);
    if k < |s| {
      TailHasNoBlank(s[k + 1..]);
    }
  }

  /** The decoder's events: one for each recognised ended block, and one for a recognised open block. */
  lemma DecoderEvents(s: string)
    ensures DecodeAll(s) == EventsOf(EndedBlocks(s)) + OneEvent(OpenBlock(s))
  {
    DecodesBlocks(s);
    TailHasNoBlank(s);
    BlocksWithTail([], CompleteLines(s), TailLines(s));
    EventsOfAppend(EndedBlocks(s), OpenBlock(s));
  }

  /** The standard's messages: one for each ended block with data. */
  lemma StandardMessages(s: string)
    requires OnlyLFOrCRLF(s) && !(BOM <= s)
    ensures Standard(s) == MessagesOf(EndedBlocks(s))
  {
    SameLines(s);
    InterpretsBlocks([], CompleteLines(s));
  }

  /** Each recognised block has a data field. */
  predicate AllHaveData(blocks: seq<seq<string>>) {
    forall i :: 0 <= i < |blocks| && Recognised(blocks[i]) ==> HasData(blocks[i])
  }

  lemma AllHaveDataCons(blocks: seq<seq<string>>)
    requires blocks != []
    ensures AllHaveData(blocks) <==> (Recognised(blocks[0]) ==> HasData(blocks[0])) && AllHaveData(blocks[1..])
  {
    assert forall i :: 1 <= i < |blocks| ==> blocks[i] == blocks[1..][i - 1];
    assert forall i :: 0 <= i < |blocks[1..]| ==> blocks[1..][i] == blocks[i + 1];
  }

  lemma MessagesCons(e: Event, es: seq<Event>)
    ensures Messages([e] + es) == [Message(e.event, e.data)] + Messages(es)
  {
  }

  lemma {:induction false} Compare(blocks: seq<seq<string>>)
    ensures |MessagesOf(blocks)| <= |EventsOf(blocks)|
    ensures AllHaveData(blocks) ==> MessagesOf(blocks) == Messages(EventsOf(blocks))
    ensures !AllHaveData(blocks) ==> |MessagesOf(blocks)| < |EventsOf(blocks)|
    decreases |blocks|
  {
    if blocks != [] {
      Compare(blocks[1..]);
      AllHaveDataCons(blocks);
      if Recognised(blocks[0]) {
        MessagesCons(BlockEvent(blocks[0]), EventsOf(blocks[1..]));
      }
    }
  }

  /**
   On every stream whose lines end in LF or CRLF and that has no byte order mark, the decoder
   yields the standard's messages if and only if each ended block with a recognised field has a
   data field and the block the end of the stream cuts off has no recognised field.
   */
  lemma AgreesWithStandard(s: string)
    requires OnlyLFOrCRLF(s) && !(BOM <= s)
    ensures Messages(DecodeAll(s)) == Standard(s) <==> Conforming(s)
  {
    DecoderEvents(s);
    StandardMessages(s);
    Compare(EndedBlocks(s));
    assert |Messages(DecodeAll(s))| == |DecodeAll(s)|;
  }
}
