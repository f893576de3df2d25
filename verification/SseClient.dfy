/** The JavaScript SDK's event-stream loop, on the bytes its text decoder accepts. */
module SseClient {
  import opened Common
  import opened Bytes
  import opened SseDecoder

  const MAX_SSE_EVENT_BYTES: nat := 1024 * 1024

  /** What parsing one event's text gives: no JSON object, an error object, or an event for the caller. */
  datatype Reading = Garbage | ErrorObject | Object

  type Reader = seq<Byte> -> Reading

  datatype Client = Client(dataLines: seq<seq<Byte>>, eventBytes: nat, events: seq<seq<Byte>>)

  const START := Client([], 0, [])

  datatype LineResult = Goes(client: Client) | Finishes(client: Client) | Throws(events: seq<seq<Byte>>)

  /** The inner loop's end: out of lines, [DONE] seen, or an exception. */
  datatype Scanned = Waiting(client: Client, rest: seq<Byte>) | Closed(client: Client, rest: seq<Byte>) | Thrown(events: seq<seq<Byte>>)

  /** The whole loop: the events handed to the caller, and whether it then ended well. */
  datatype Outcome = Success(events: seq<seq<Byte>>) | Failure(events: seq<seq<Byte>>)

  function OnClientLine(read: Reader, c: Client, raw: seq<Byte>): LineResult {
    var line := StripCr(raw);
    if |raw| + 1 > MAX_SSE_EVENT_BYTES then Throws(c.events)
    else if line == [] then
      if c.dataLines == [] then Goes(c.(eventBytes := 0))
      else
        var text := Join(c.dataLines);
        if text == DONE_TEXT then Finishes(Client([], 0, c.events))
        else if read(text).Object? then Goes(Client([], 0, c.events + [text]))
        else Throws(c.events)
    else if line[0] == COLON then (if c.dataLines != [] then Throws(c.events) else Goes(c))
    else if !StartsWith(line, DATA) || c.eventBytes + |raw| + 1 > MAX_SSE_EVENT_BYTES then Throws(c.events)
    else Goes(Client(c.dataLines + [Value(line)], c.eventBytes + |raw| + 1, c.events))
  }

  function Scan(read: Reader, c: Client, buffer: seq<Byte>): Scanned
    decreases |buffer|
  {
    var n := Find(buffer, LF);
    if n == |buffer| then Waiting(c, buffer)
    else
      match OnClientLine(read, c, buffer[..n])
      case Throws(events) => Thrown(events)
      case Finishes(c1) => Closed(c1, buffer[n + 1..])
      case Goes(c1) => Scan(read, c1, buffer[n + 1..])
  }

  /** The reads in order, from a client state and unread text; past the last one the stream has ended. */
  function Read(read: Reader, c: Client, buffer: seq<Byte>, chunks: seq<seq<Byte>>): Outcome
    decreases |chunks|
  {
    match Scan(read, c, buffer + (if chunks == [] then [] else chunks[0]))
    case Thrown(events) => Failure(events)
    case Closed(c1, rest) => if rest == [] && c1.dataLines == [] then Success(c1.events) else Failure(c1.events)
    case Waiting(c1, rest) =>
      if |rest| > MAX_SSE_EVENT_BYTES || chunks == [] then Failure(c1.events)
      else Read(read, c1, rest, chunks[1..])
  }

  /** streamChatCompletions' loop over the chunks its reader returns. */
  method StreamEvents(read: Reader, chunks: seq<seq<Byte>>) returns (o: Outcome)
    ensures o == Read(read, START, [], chunks)
  {
    var buffer: seq<Byte> := [];
    var dataLines: seq<seq<Byte>> := [];
    var eventBytes: nat := 0;
    var events: seq<seq<Byte>> := [];
    var k := 0;
    while true
      invariant k <= |chunks|
      invariant Read(read, Client(dataLines, eventBytes, events), buffer, chunks[k..]) == Read(read, START, [], chunks)
      decreases |chunks| - k
    {
      var ended := k == |chunks|;
      ghost var at := Client(dataLines, eventBytes, events);
      assert !ended ==> chunks[k..][0] == chunks[k] && chunks[k..][1..] == chunks[k + 1..];
      buffer := buffer + if ended then [] else chunks[k];
      ghost var whole := Scan(read, at, buffer);
      var done := false;
      while true
        invariant !done && Scan(read, Client(dataLines, eventBytes, events), buffer) == whole
        decreases |buffer|
      {
        var newline := Find(buffer, LF);
        if newline == |buffer| { break; }
        var step := OnClientLine(read, Client(dataLines, eventBytes, events), buffer[..newline]);
        buffer := buffer[newline + 1..];
        if step.Throws? { return Failure(step.events); }
        dataLines, eventBytes, events := step.client.dataLines, step.client.eventBytes, step.client.events;
        if step.Finishes? {
          done := true;
          break;
        }
      }
      if done {
        return if buffer != [] || dataLines != [] then Failure(events) else Success(events);
      }
      if |buffer| > MAX_SSE_EVENT_BYTES || ended { return Failure(events); }
      k := k + 1;
    }
  }

  // ---------------------------------------------------------------- chunking

  lemma {:induction false} ScanAppend(read: Reader, c: Client, buffer: seq<Byte>, tail: seq<Byte>)
    ensures Scan(read, c, buffer + tail)
         == match Scan(read, c, buffer)
            case Thrown(events) => Thrown(events)
            case Closed(c1, rest) => Closed(c1, rest + tail)
            case Waiting(c1, rest) => Scan(read, c1, rest + tail)
    decreases |buffer|
  {
    var n := Find(buffer, LF);
    FindAppend(buffer, tail, LF);
    if n < |buffer| {
      assert (buffer + tail)[..n] == buffer[..n];
      assert (buffer + tail)[n + 1..] == buffer[n + 1..] + tail;
      var step := OnClientLine(read, c, buffer[..n]);
      if step.Goes? { ScanAppend(read, step.client, buffer[n + 1..], tail); }
    }
  }

  lemma {:induction false} ScanRest(read: Reader, c: Client, buffer: seq<Byte>)
    requires Scan(read, c, buffer).Waiting?
    ensures LF !in Scan(read, c, buffer).rest
    decreases |buffer|
  {
    var n := Find(buffer, LF);
    if n < |buffer| {
      ScanRest(read, OnClientLine(read, c, buffer[..n]).client, buffer[n + 1..]);
    }
  }

  /** However the bytes are cut, a stream that closes exactly at its end is read to the same events. */
  lemma {:induction false} AnyChunking(read: Reader, c: Client, buffer: seq<Byte>, chunks: seq<seq<Byte>>, c1: Client)
    requires Scan(read, c, buffer + Concat(chunks)) == Closed(c1, []) && LF !in buffer && c1.dataLines == []
    ensures Read(read, c, buffer, chunks) == Success(c1.events)
    decreases |chunks|
  {
    hide OnClientLine;
    assert buffer + [] == buffer;
    if chunks != [] {
      var tail := Concat(chunks[1..]);
      ConcatFirst(chunks);
      assert buffer + Concat(chunks) == (buffer + chunks[0]) + tail;
      ScanAppend(read, c, buffer + chunks[0], tail);
      var mid := Scan(read, c, buffer + chunks[0]);
      if mid.Waiting? {
        ScanRest(read, c, buffer + chunks[0]);
        RestFits(read, mid.client, mid.rest, tail);
        AnyChunking(read, mid.client, mid.rest, chunks[1..], c1);
      }
    }
  }

  /** However its bytes were cut, a stream read well has handed over what one scan of it hands over. */
  lemma {:induction false} ReadIsScanned(read: Reader, c: Client, buffer: seq<Byte>, chunks: seq<seq<Byte>>)
    requires Read(read, c, buffer, chunks).Success?
    ensures Scan(read, c, buffer + Concat(chunks)).Closed?
    ensures Scan(read, c, buffer + Concat(chunks)).client.events == Read(read, c, buffer, chunks).events
    decreases |chunks|
  {
    hide OnClientLine;
    if chunks == [] {
      assert buffer + Concat(chunks) == buffer + [];
    } else {
      var tail := Concat(chunks[1..]);
      ConcatFirst(chunks);
      assert buffer + Concat(chunks) == (buffer + chunks[0]) + tail;
      ScanAppend(read, c, buffer + chunks[0], tail);
      var mid := Scan(read, c, buffer + chunks[0]);
      if mid.Waiting? { ReadIsScanned(read, mid.client, mid.rest, chunks[1..]); }
    }
  }

  /** An unfinished line that will still be accepted is within the limit. */
  lemma RestFits(read: Reader, c: Client, rest: seq<Byte>, tail: seq<Byte>)
    requires LF !in rest && Scan(read, c, rest + tail).Closed?
    ensures |rest| < MAX_SSE_EVENT_BYTES
  {
    FindAppend(rest, tail, LF);
    var n := Find(rest + tail, LF);
    assert |(rest + tail)[..n]| == n >= |rest|;
  }
}
