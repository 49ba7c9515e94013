/**
 What the decoder means: a stream is a list of blocks of non-blank lines, and an event is read off
 a block as a whole.  The incremental decoder refines this, undoes a printer, and is blind to
 comments, unknown fields and the choice between LF and CRLF.
 */
module SseBlocks {
  import opened Strings
  import opened Sse

  // ---------- Fields ----------

  /** The writings of a field: a colon and an optional space before the value, or the bare name for no value. */
  predicate Writes(line: string, name: string, value: string) {
    || line == name + ": " + value
    || (line == name + ":" + value && !(" " <= value))
    || (line == name && value == "")
  }

  /** Each line has one reading: the field it is a writing of, with a name that ends at the first colon. */
  lemma ReadsAsWritten(line: string, name: string, value: string)
    ensures FieldName(line) == name && FieldValue(line) == value <==> ':' !in name && Writes(line, name, value)
  {
    if FieldName(line) == name && FieldValue(line) == value {
      ReadingIsWriting(line);
    }
    if ':' !in name && Writes(line, name, value) {
      WritingIsRead(line, name, value);
    }
  }

  lemma ReadingIsWriting(line: string)
    ensures ':' !in FieldName(line) && Writes(line, FieldName(line), FieldValue(line))
  {
    var k := IndexOf(':', line);
    if k < |line| {
      assert line == line[..k] + ":" + line[k + 1..];
      assert " " <= line[k + 1..] ==> line[k + 1..] == " " + line[k + 2..];
    }
  }

  lemma WritingIsRead(line: string, name: string, value: string)
    requires ':' !in name && Writes(line, name, value)
    ensures FieldName(line) == name && FieldValue(line) == value
  {
    var rest := line[|name|..];
    assert line == name + rest;
    IndexAfter(':', name, rest);
  }

  // ---------- Blocks ----------

  /** The lines that end in a newline, trimmed. */
  function CompleteLines(s: string): seq<string>
    decreases |s|
  {
    var k := IndexOf('\n', s);
    if k < |s| then [TrimRight(s[..k])] + CompleteLines(s[k + 1..]) else []
  }

  /** What follows the last newline, if it is not blank. */
  function TailLines(s: string): seq<string>
    decreases |s|
  {
    var k := IndexOf('\n', s);
    if k < |s| then TailLines(s[k + 1..])
    else if TrimRight(s) == "" then [] else [TrimRight(s)]
  }

  /** Maximal groups of lines between blank lines; the last group is the one the stream leaves open. */
  function Blocks(open: seq<string>, lines: seq<string>): (bs: seq<seq<string>>)
    ensures |bs| >= 1
    decreases |lines|
  {
    if lines == [] then [open]
    else if lines[0] == "" then [open] + Blocks([], lines[1..])
    else Blocks(open + [lines[0]], lines[1..])
  }

  function StreamLines(s: string): seq<string> {
    CompleteLines(s) + TailLines(s)
  }

  function StreamBlocks(s: string): seq<seq<string>> {
    Blocks([], StreamLines(s))
  }

  function Values(block: seq<string>, name: string): seq<string> {
    if block == [] then []
    else
      var line := block[|block| - 1];
      var before := Values(block[..|block| - 1], name);
      if FieldName(line) == name then before + [FieldValue(line)] else before
  }

  function Retries(block: seq<string>): seq<int> {
    if block == [] then []
    else
      var line := block[|block| - 1];
      var before, n := Retries(block[..|block| - 1]), Atoi(FieldValue(line));
      if FieldName(line) == "retry" && n.Some? then before + [n.value] else before
  }

  function Join(values: seq<string>): string {
    if values == [] then ""
    else if |values| == 1 then values[0]
    else Join(values[..|values| - 1]) + "\n" + values[|values| - 1]
  }

  function Last<T>(values: seq<T>, default: T): T {
    if values == [] then default else values[|values| - 1]
  }

  predicate Recognised(block: seq<string>) {
    || Values(block, "data") != [] || Values(block, "event") != [] || Values(block, "id") != [] || Retries(block) != []
  }

  function EventType(block: seq<string>): string {
    var t := Last(Values(block, "event"), "");
    if t == "" then "message" else t
  }

  /** The event of a block: its last id, type and retry, and its data values joined by newlines. */
  function BlockEvent(block: seq<string>): Event {
    Event(Last(Values(block, "id"), ""), EventType(block), Join(Values(block, "data")), Last(Retries(block), 0))
  }

  function OneEvent(block: seq<string>): seq<Event> {
    if Recognised(block) then [BlockEvent(block)] else []
  }

  function EventsOf(blocks: seq<seq<string>>): seq<Event>
    decreases |blocks|
  {
    if blocks == [] then []
    else OneEvent(blocks[0]) + EventsOf(blocks[1..])
  }

  // ---------- Refinement ----------

  predicate NoBlank(block: seq<string>) {
    forall i :: 0 <= i < |block| ==> block[i] != ""
  }

  function Fold(block: seq<string>): Block
    requires NoBlank(block)
  {
    if block == [] then NEW_BLOCK else Feed(Fold(block[..|block| - 1]), block[|block| - 1])
  }

  /** One line changes exactly the accumulator of its field. */
  lemma FeedReadsLine(b: Block, line: string)
    requires line != ""
    ensures var name, value, n := FieldName(line), FieldValue(line), Atoi(FieldValue(line));
            Feed(b, line) == Block(
              if name == "data" then (if b.hasData then b.data + "\n" + value else value) else b.data,
              if name == "event" then value else b.event,
              if name == "id" then value else b.id,
              if name == "retry" && n.Some? then n.value else b.retry,
              b.hasData || name == "data",
              b.hasField || name == "data" || name == "event" || name == "id" || (name == "retry" && n.Some?))
  {
    assert "event"[0] != "retry"[0];
    if line[0] == ':' {
      assert FieldName(line) == "";
    }
  }

  lemma ValuesLast(block: seq<string>, line: string, name: string)
    ensures Values(block + [line], name) ==
            if FieldName(line) == name then Values(block, name) + [FieldValue(line)] else Values(block, name)
  {
    assert (block + [line])[..|block|] == block;
  }

  lemma RetriesLast(block: seq<string>, line: string)
    ensures Retries(block + [line]) ==
            if FieldName(line) == "retry" && Atoi(FieldValue(line)).Some? then Retries(block) + [Atoi(FieldValue(line)).value]
            else Retries(block)
  {
    assert (block + [line])[..|block|] == block;
  }

  /** The accumulators as the block determines them. */
  function Reading(block: seq<string>): Block {
    Block(Join(Values(block, "data")), Last(Values(block, "event"), ""), Last(Values(block, "id"), ""),
          Last(Retries(block), 0), Values(block, "data") != [], Recognised(block))
  }

  lemma ReadingAppend(front: seq<string>, line: string)
    requires line != ""
    ensures Reading(front + [line]) == Feed(Reading(front), line)
  {
    var value := FieldValue(line);
    FeedReadsLine(Reading(front), line);
    ValuesLast(front, line, "data");
    ValuesLast(front, line, "event");
    ValuesLast(front, line, "id");
    RetriesLast(front, line);
    JoinLast(Values(front, "data"), value);
    var r, f := Reading(front + [line]), Feed(Reading(front), line);
    assert r.data == f.data;
    assert r.event == f.event;
    assert r.id == f.id;
    assert r.retry == f.retry;
    assert r.hasData == f.hasData;
    assert r.hasField == f.hasField;
  }

  /** Feeding lines one by one accumulates exactly what the block as a whole says. */
  lemma {:induction false} FoldReadsBlock(block: seq<string>)
    requires NoBlank(block)
    ensures Fold(block) == Reading(block)
  {
    if block != [] {
      var front, line := block[..|block| - 1], block[|block| - 1];
      assert block == front + [line];
      FoldReadsBlock(front);
      ReadingAppend(front, line);
    }
  }

  lemma JoinLast(values: seq<string>, v: string)
    ensures Join(values + [v]) == if values == [] then v else Join(values) + "\n" + v
  {
    assert (values + [v])[..|values|] == values;
  }

  function AllFrom(p: Pulled): seq<Event> {
    if p.Got? then [p.event] + DecodeAll(p.rest) else []
  }

  lemma FoldAppend(open: seq<string>, line: string)
    requires NoBlank(open) && line != ""
    ensures NoBlank(open + [line]) && Fold(open + [line]) == Feed(Fold(open), line)
  {
    assert (open + [line])[..|open|] == open;
  }

  lemma DispatchesBlock(open: seq<string>)
    requires NoBlank(open)
    ensures Dispatchable(Fold(open)) <==> Recognised(open)
    ensures Recognised(open) ==> Dispatched(Fold(open)) == BlockEvent(open)
    ensures !Recognised(open) ==> Fold(open) == NEW_BLOCK
  {
    FoldReadsBlock(open);
  }

  lemma {:induction false} PullFollowsBlocks(s: string, open: seq<string>)
    requires NoBlank(open)
    ensures AllFrom(Pull(s, Fold(open), false)) == EventsOf(Blocks(open, CompleteLines(s) + TailLines(s)))
    decreases |s|
  {
    var k := IndexOf('\n', s);
    if k < |s| {
      var line, rest := TrimRight(s[..k]), s[k + 1..];
      var lines := CompleteLines(rest) + TailLines(rest);
      assert CompleteLines(s) + TailLines(s) == [line] + lines;
      if line == "" {
        PullFollowsBlocks(rest, []);
        DispatchesBlock(open);
        assert Blocks(open, [line] + lines) == [open] + Blocks([], lines);
      } else {
        FoldAppend(open, line);
        PullFollowsBlocks(rest, open + [line]);
        assert Blocks(open, [line] + lines) == Blocks(open + [line], lines);
      }
    } else {
      PullFollowsTail(s, open);
    }
  }

  lemma PullFollowsTail(s: string, open: seq<string>)
    requires NoBlank(open) && IndexOf('\n', s) == |s|
    ensures AllFrom(Pull(s, Fold(open), false)) == EventsOf(Blocks(open, CompleteLines(s) + TailLines(s)))
  {
    var line := TrimRight(s);
    assert s[..|s|] == s;
    assert DecodeAll("") == [];
    var last := if line == "" then open else open + [line];
    if line != "" {
      FoldAppend(open, line);
    }
    DispatchesBlock(last);
    assert CompleteLines(s) + TailLines(s) == TailLines(s);
    assert Blocks(open, TailLines(s)) == [last];
    assert EventsOf([last]) == OneEvent(last);
  }

  /** Repeated calls of Next yield the events of the recognised blocks, in order. */
  lemma DecodesBlocks(s: string)
    ensures DecodeAll(s) == EventsOf(StreamBlocks(s))
  {
    PullFollowsBlocks(s, []);
    assert DecodeAll(s) == AllFrom(Pull(s, Fold([]), false));
  }
}
