/**
 The server-sent event decoder of pkg/vuhive/http/sse.go.  Characters stand for the bytes of the
 stream.  `Pull` is what one call of Next computes; `DecodeAll` what repeated calls yield.
 */
module Sse {
  import opened Wrappers
  import opened Strings

  datatype Event = Event(id: string, event: string, data: string, retry: int)

  const MAX_INT: int := 0x7FFF_FFFF_FFFF_FFFF

  // ---------- Lines ----------

  function TrimRight(s: string): (t: string)
    ensures t <= s
    ensures t != "" ==> t[|t| - 1] != '\r' && t[|t| - 1] != '\n'
    ensures forall i :: |t| <= i < |s| ==> s[i] == '\r' || s[i] == '\n'
  {
    if s != "" && (s[|s| - 1] == '\r' || s[|s| - 1] == '\n') then TrimRight(s[..|s| - 1]) else s
  }

  // ---------- Fields ----------

  predicate IsDigit(c: char) {
    '0' <= c <= '9'
  }

  predicate Digits(s: string) {
    forall i :: 0 <= i < |s| ==> IsDigit(s[i])
  }

  function Number(s: string): nat
    requires Digits(s)
  {
    if s == "" then 0
    else
      assert IsDigit(s[|s| - 1]);
      10 * Number(s[..|s| - 1]) + (s[|s| - 1] as int - '0' as int)
  }

  /** strconv.Atoi: an optional sign, at least one digit, and a value that fits a 64-bit int. */
  function Atoi(s: string): Option<int> {
    var negative := s != "" && s[0] == '-';
    var digits := if s != "" && (s[0] == '-' || s[0] == '+') then s[1..] else s;
    if digits == "" || !Digits(digits) then None
    else
      var value: int := if negative then 0 - Number(digits) else Number(digits);
      if -MAX_INT - 1 <= value <= MAX_INT then Some(value) else None
  }

  function FieldName(line: string): string {
    line[..IndexOf(':', line)]
  }

  function FieldValue(line: string): string {
    var k := IndexOf(':', line);
    if k == |line| then ""
    else if k + 1 < |line| && line[k + 1] == ' ' then line[k + 2..]
    else line[k + 1..]
  }

  /** The local variables of Next. */
  datatype Block = Block(data: string, event: string, id: string, retry: int, hasData: bool, hasField: bool)

  const NEW_BLOCK: Block := Block("", "", "", 0, false, false)

  predicate Dispatchable(b: Block) {
    b.hasField || b.hasData
  }

  /** One non-empty trimmed line. */
  function Feed(b: Block, line: string): Block
    requires line != ""
  {
    var value := FieldValue(line);
    if line[0] == ':' then b
    else match FieldName(line)
      case "event" => b.(event := value, hasField := true)
      case "data" => b.(data := if b.hasData then b.data + "\n" + value else value, hasData := true, hasField := true)
      case "id" => b.(id := value, hasField := true)
      case "retry" =>
        var n := Atoi(value);
        if n.Some? then b.(retry := n.value, hasField := true) else b
      case _ => b
  }

  function AfterLine(b: Block, line: string): Block {
    if line == "" then b else Feed(b, line)
  }

  function Dispatched(b: Block): Event {
    Event(b.id, if b.event == "" then "message" else b.event, b.data, b.retry)
  }

  // ---------- One call of Next, and all of them ----------

  datatype Pulled = Got(event: Event, rest: string) | EndOfStream | ReadFailed

  /** `failing` says that the reader ends with an error other than EOF. */
  function Pull(input: string, b: Block, failing: bool): (p: Pulled)
    ensures p.Got? ==> |p.rest| < |input| || Dispatchable(b)
    ensures p.Got? ==> |p.rest| <= |input|
    ensures (p.ReadFailed? ==> failing) && (p.EndOfStream? ==> !failing)
    decreases |input|
  {
    var k := IndexOf('\n', input);
    var line := TrimRight(input[..k]);
    var next := AfterLine(b, line);
    if k < |input| then
      if line == "" && Dispatchable(b) then Got(Dispatched(b), input[k + 1..]) else Pull(input[k + 1..], next, failing)
    else if failing then ReadFailed
    else if Dispatchable(next) then Got(Dispatched(next), "") else EndOfStream
  }

  function Newlines(s: string): nat {
    if s == "" then 0 else (if s[0] == '\n' then 1 else 0) + Newlines(s[1..])
  }

  lemma {:induction false} NewlinesSplit(input: string)
    ensures var k := IndexOf('\n', input);
            Newlines(input) == if k < |input| then 1 + Newlines(input[k + 1..]) else 0
  {
    if input != "" && input[0] != '\n' {
      var k := IndexOf('\n', input[1..]);
      NewlinesSplit(input[1..]);
      assert k < |input[1..]| ==> input[1..][k + 1..] == input[k + 2..];
    }
  }

  /** None of the first n looks finds the context done. */
  ghost predicate NotCancelled(cancelled: nat -> bool, n: nat) {
    forall i: nat :: i < n ==> !cancelled(i)
  }

  /** Each line read but the last one of the stream had a newline. */
  ghost predicate Consumed(before: string, after: string, lines: nat) {
    || lines == Newlines(before) - Newlines(after)
    || (after == "" && lines == Newlines(before) + 1)
  }

  function DecodeAll(input: string): seq<Event>
    decreases |input|
  {
    match Pull(input, NEW_BLOCK, false)
    case Got(e, rest) => [e] + DecodeAll(rest)
    case _ => []
  }

  /** The events of a stream whose reader may end with an error. */
  function Delivered(input: string, failing: bool): seq<Event>
    decreases |input|
  {
    match Pull(input, NEW_BLOCK, failing)
    case Got(e, rest) => [e] + Delivered(rest, failing)
    case _ => []
  }

  lemma {:induction false} PullUnlessFailed(input: string, b: Block)
    ensures Pull(input, b, true).Got? ==> Pull(input, b, false) == Pull(input, b, true)
    decreases |input|
  {
    var k := IndexOf('\n', input);
    if k < |input| {
      PullUnlessFailed(input[k + 1..], b);
      if TrimRight(input[..k]) != "" {
        PullUnlessFailed(input[k + 1..], Feed(b, TrimRight(input[..k])));
      }
    }
  }

  /** Without a read error the whole decoding is delivered, with one a prefix of it. */
  lemma {:induction false} DeliveredIsPrefix(input: string, failing: bool)
    ensures Delivered(input, failing) <= DecodeAll(input)
    ensures !failing ==> Delivered(input, failing) == DecodeAll(input)
    decreases |input|
  {
    PullUnlessFailed(input, NEW_BLOCK);
    match Pull(input, NEW_BLOCK, failing)
    case Got(_, rest) => DeliveredIsPrefix(rest, failing);
    case _ =>
  }

  lemma DeliveredStep(input: string, failing: bool, e: Event, rest: string)
    requires Pull(input, NEW_BLOCK, failing) == Got(e, rest)
    ensures Delivered(input, failing) == [e] + Delivered(rest, failing)
  {
  }

  lemma Shift(got: seq<Event>, e: Event, rest: seq<Event>)
    ensures got + ([e] + rest) == (got + [e]) + rest
  {
  }

  /** One sample of the event metrics. */
  datatype Sample = Sample(event: string, latency: int)

  function TotalLatency(samples: seq<Sample>): int {
    if samples == [] then 0 else TotalLatency(samples[..|samples| - 1]) + samples[|samples| - 1].latency
  }

  lemma TotalLatencyAppend(samples: seq<Sample>, s: Sample)
    ensures TotalLatency(samples + [s]) == TotalLatency(samples) + s.latency
  {
    assert (samples + [s])[..|samples|] == samples;
  }

  class SSEStream {
    var unread: string
    const failing: bool
    const startTime: int
    var current: Event
    var err: bool
    var closed: bool
    /** None is the zero time. */
    var lastEvent: Option<int>
    var samples: seq<Sample>
    var errors: nat

    constructor (body: string, failing: bool, startTime: int, lastEvent: Option<int>)
      ensures unread == body && this.failing == failing && this.startTime == startTime && this.lastEvent == lastEvent
      ensures !err && !closed && samples == [] && errors == 0
    {
      unread := body;
      this.failing, this.startTime, this.lastEvent := failing, startTime, lastEvent;
      current := Event("", "", "", 0);
      err, closed := false, false;
      samples, errors := [], 0;
    }

    /** When the last event was dispatched, or else when the stream began. */
    ghost function Since(): int
      reads this`lastEvent
    {
      if lastEvent.Some? then lastEvent.value else startTime
    }

    /** bufio.Reader.ReadString('\n'): a line with its newline, or the rest of the stream and its final error. */
    method ReadString() returns (line: string, complete: bool)
      modifies this`unread
      ensures var k := IndexOf('\n', old(unread));
              && complete == (k < |old(unread)|)
              && line == (if complete then old(unread)[..k + 1] else old(unread))
              && unread == (if complete then old(unread)[k + 1..] else "")
    {
      var k := IndexOf('\n', unread);
      if k < |unread| {
        line, unread, complete := unread[..k + 1], unread[k + 1..], true;
      } else {
        line, unread, complete := unread, "", false;
      }
    }

    method ReadTrimmed() returns (trimmed: string, complete: bool)
      modifies this`unread
      ensures var k := IndexOf('\n', old(unread));
              && complete == (k < |old(unread)|)
              && trimmed == TrimRight(old(unread)[..k])
              && unread == (if complete then old(unread)[k + 1..] else "")
      ensures Newlines(unread) + (if complete then 1 else 0) == Newlines(old(unread))
    {
      ghost var before := unread;
      NewlinesSplit(before);
      var line;
      line, complete := ReadString();
      TrimLine(before);
      trimmed := TrimRight(line);
    }

    /**
     `cancelled(i)` is the i-th look at the stream's context during this call, one before each line and one more
     after a failed read; `now` is the clock at dispatch.  The call reads `lines` lines, and stops early
     exactly at the first look that finds the context done.
     */
    method Next(cancelled: nat -> bool, now: int) returns (ok: bool, ghost lines: nat)
      modifies this`unread, this`current, this`err, this`lastEvent, this`samples, this`errors
      ensures old(err) || old(closed) ==> !ok && unread == old(unread) && err == old(err)
      ensures ok ==> Pull(old(unread), NEW_BLOCK, failing) == Got(current, unread) && lastEvent == Some(now) && !err
      ensures ok ==> samples == old(samples) + [Sample(current.event, if old(lastEvent).Some? then now - old(lastEvent).value else now - startTime)]
      ensures !ok ==> current == old(current) && lastEvent == old(lastEvent) && samples == old(samples)
      ensures errors == old(errors) + (if err && !old(err) then 1 else 0)
      ensures NotCancelled(cancelled, lines)
      ensures Consumed(old(unread), unread, lines)
      ensures err && !old(err) ==> !cancelled(lines)
      ensures !ok && !old(err) && !old(closed) && !cancelled(lines) ==>
                var p := Pull(old(unread), NEW_BLOCK, failing);
                !p.Got? && (err <==> p.ReadFailed?)
    {
      lines := 0;
      if err || closed {
        return false, lines;
      }
      var b, looks := NEW_BLOCK, 0;
      ghost var newlines := Newlines(unread);
      ghost var pulled := Pull(unread, NEW_BLOCK, failing);
      while true
        invariant !err && current == old(current) && lastEvent == old(lastEvent)
        invariant samples == old(samples) && errors == old(errors)
        invariant Pull(unread, b, failing) == pulled
        invariant looks == lines && NotCancelled(cancelled, lines)
        invariant lines + Newlines(unread) == newlines
        decreases |unread|
      {
        if cancelled(looks) {
          return false, lines;
        }
        looks, lines := looks + 1, lines + 1;
        var trimmed, complete := ReadTrimmed();
        if !complete && failing {
          if cancelled(looks) {
            return false, lines;
          }
          err := true;
          errors := errors + 1;
          return false, lines;
        }
        var over;
        b, over, ok := Digest(b, trimmed, complete, now);
        if over {
          return;
        }
      }
    }

    /** What the loop does with a line: end the block, end the stream, or take the field. */
    method Digest(b: Block, trimmed: string, complete: bool, now: int) returns (next: Block, over: bool, ok: bool)
      modifies this`current, this`lastEvent, this`samples
      ensures next == AfterLine(b, trimmed)
      ensures over == (!complete || (trimmed == "" && Dispatchable(b))) && ok == (over && Dispatchable(next))
      ensures ok ==> current == Dispatched(next) && lastEvent == Some(now)
      ensures ok ==> samples == old(samples) + [Sample(current.event, if old(lastEvent).Some? then now - old(lastEvent).value else now - startTime)]
      ensures !ok ==> current == old(current) && lastEvent == old(lastEvent) && samples == old(samples)
    {
      next := b;
      if trimmed == "" {
        if Dispatchable(next) {
          Dispatch(next, now);
          return next, true, true;
        }
        return next, !complete, false;
      }
      next := Feed(next, trimmed);
      if !complete {
        if Dispatchable(next) {
          Dispatch(next, now);
          return next, true, true;
        }
        return next, true, false;
      }
      return next, false, false;
    }

    method Dispatch(b: Block, now: int)
      modifies this`current, this`lastEvent, this`samples
      ensures current == Dispatched(b) && lastEvent == Some(now)
      ensures samples == old(samples) + [Sample(current.event, if old(lastEvent).Some? then now - old(lastEvent).value else now - startTime)]
    {
      var event := b.event;
      if event == "" {
        event := "message";
      }
      current := Event(b.id, event, b.data, b.retry);
      var latency;
      if lastEvent.Some? {
        latency := now - lastEvent.value;
      } else {
        latency := now - startTime;
      }
      lastEvent := Some(now);
      samples := samples + [Sample(current.event, latency)];
    }

    /**
     The goroutine behind Events(): call Next until it reports the end, and send each event unless the
     context is done first.  `cancelled(c)(i)` is the i-th look at the context in the c-th call, `unsent(c)` the
     outcome of the select after it, `clock(c)` the time of its dispatch.  The latencies sampled add up to the
     time from the beginning of the stream, or the event before, to the last event.
     */
    method Events(cancelled: nat -> nat -> bool, unsent: nat -> bool, clock: nat -> int) returns (es: seq<Event>)
      requires !err && !closed
      modifies this
      ensures es <= Delivered(old(unread), failing)
      ensures (forall c, i :: !cancelled(c)(i)) && (forall c :: !unsent(c)) ==>
                es == Delivered(old(unread), failing) && (err <==> failing) && |samples| == |old(samples)| + |es|
      ensures TotalLatency(samples) == TotalLatency(old(samples)) + (Since() - old(Since()))
    {
      es := [];
      var calls, ok := 0, true;
      while ok
        invariant (ok ==> !err) && !closed
        invariant ok ==> es + Delivered(unread, failing) == Delivered(old(unread), failing)
        invariant ok ==> |samples| == |old(samples)| + |es|
        invariant TotalLatency(samples) == TotalLatency(old(samples)) + (Since() - old(Since()))
        invariant !ok ==> es <= Delivered(old(unread), failing)
        invariant !ok && (forall c, i :: !cancelled(c)(i)) && (forall c :: !unsent(c)) ==>
                    es == Delivered(old(unread), failing) && (err <==> failing) && |samples| == |old(samples)| + |es|
        decreases ok, |unread|
      {
        ghost var before, got, sampled := unread, es, samples;
        ghost var lines;
        ok, lines := Next(cancelled(calls), clock(calls));
        if ok {
          DeliveredStep(before, failing, current, unread);
          TotalLatencyAppend(sampled, samples[|samples| - 1]);
          if unsent(calls) {
            return;
          }
          es := es + [current];
          Shift(got, current, Delivered(unread, failing));
        }
        calls := calls + 1;
      }
    }
  }

  /** Trimming removes the newline that ReadString keeps. */
  lemma TrimLine(input: string)
    ensures var k := IndexOf('\n', input); k < |input| ==> TrimRight(input[..k + 1]) == TrimRight(input[..k])
    ensures IndexOf('\n', input) == |input| ==> input[..|input|] == input
  {
    var k := IndexOf('\n', input);
    if k < |input| {
      TrimNewline(input[..k + 1]);
      assert input[..k + 1][..k] == input[..k];
    }
  }

  lemma TrimNewline(line: string)
    requires line != "" && line[|line| - 1] == '\n'
    ensures TrimRight(line) == TrimRight(line[..|line| - 1])
  {
  }
}
