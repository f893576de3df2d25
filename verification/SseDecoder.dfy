/** The gateway's incremental decoder of the provider's event stream, a subset of the event-stream format of
    the WHATWG HTML Living Standard, sections 9.2.5 and 9.2.6. */
module SseDecoder {
  import opened Common
  import opened Bytes

  const MAX_SSE_LINE_BYTES: nat := 1024 * 1024

  const DATA: seq<Byte> := [100, 97, 116, 97, 58]                       // data:
  const DONE_TEXT: seq<Byte> := [91, 68, 79, 78, 69, 93]                // [DONE]

  datatype Usage = Usage(prompt: nat, completion: nat)

  /** What validation says of one event's text: not an acceptable chunk, or a chunk that may carry usage. */
  datatype Verdict = Invalid | Chunk(usage: Option<Usage>)

  type Judge = seq<Byte> -> Verdict

  datatype Frame = Payload(text: seq<Byte>) | Done

  function FrameBytes(f: Frame): seq<Byte> {
    DATA + [SPACE] + (if f.Done? then DONE_TEXT else f.text) + [LF, LF]
  }

  /** The decoder apart from its unread bytes. */
  datatype Core = Core(dataLines: seq<seq<Byte>>, done: bool, usage: Option<Usage>)

  /** A protocol error keeps the state reached: the failure path still reads the usage. */
  datatype Step = Went(core: Core, frames: seq<Frame>) | Broke(core: Core)

  datatype Drained = Drained(core: Core, rest: seq<Byte>, frames: seq<Frame>) | Stuck(core: Core)

  datatype Decoder = Decoder(core: Core, buffer: seq<Byte>)

  const FRESH := Decoder(Core([], false, None), [])

  datatype Fed = Fed(decoder: Decoder, frames: seq<Frame>) | Refused(core: Core)

  function FinishEvent(judge: Judge, c: Core): Step {
    if c.dataLines == [] then Went(c, [])
    else
      var text := Join(c.dataLines);
      var cleared := c.(dataLines := []);
      if text == DONE_TEXT then
        if c.done || c.usage.None? then Broke(cleared) else Went(cleared.(done := true), [Done])
      else if c.done then Broke(cleared)
      else
        match judge(text)
        case Invalid => Broke(cleared)
        case Chunk(usage) =>
          if usage.None? then Went(cleared, [Payload(text)])
          else if c.usage.Some? then Broke(cleared)
          else Went(cleared.(usage := usage), [Payload(text)])
  }

  function Value(line: seq<Byte>): seq<Byte>
    requires StartsWith(line, DATA)
  {
    if |line| > 5 && line[5] == SPACE then line[6..] else line[5..]
  }

  /** One complete line, without its line feed. */
  function OnLine(judge: Judge, c: Core, raw: seq<Byte>): (s: Step)
    ensures s.Went? ==> |s.frames| <= 1
  {
    var line := StripCr(raw);
    if |line| > MAX_SSE_LINE_BYTES then Broke(c)
    else if c.done && line != [] then Broke(c)
    else if line == [] then FinishEvent(judge, c)
    else if line[0] == COLON then Went(c, [])
    else if !StartsWith(line, DATA) then Broke(c)
    else Went(c.(dataLines := c.dataLines + [Value(line)]), [])
  }

  /** All complete lines of the buffer, after the frames already sent. */
  function Drain(judge: Judge, c: Core, buffer: seq<Byte>, sent: seq<Frame>): Drained
    decreases |buffer|
  {
    var n := Find(buffer, LF);
    if n == |buffer| then Drained(c, buffer, sent)
    else
      match OnLine(judge, c, buffer[..n])
      case Broke(c1) => Stuck(c1)
      case Went(c1, frames) => Drain(judge, c1, buffer[n + 1..], sent + frames)
  }

  /** Draining takes the first complete line, if there is one. */
  lemma DrainStep(judge: Judge, c: Core, buffer: seq<Byte>, sent: seq<Frame>, n: nat, step: Step)
    requires n == Find(buffer, LF) && (n < |buffer| ==> step == OnLine(judge, c, buffer[..n]))
    ensures Drain(judge, c, buffer, sent)
         == if n >= |buffer| then Drained(c, buffer, sent)
            else if step.Broke? then Stuck(step.core)
            else Drain(judge, step.core, buffer[n + 1..], sent + step.frames)
  {
    hide OnLine, Find;
  }

  lemma DrainLine(judge: Judge, c: Core, line: seq<Byte>, tail: seq<Byte>, sent: seq<Frame>)
    requires LF !in line
    ensures var s := OnLine(judge, c, line);
            Drain(judge, c, line + [LF] + tail, sent)
            == if s.Broke? then Stuck(s.core) else Drain(judge, s.core, tail, sent + s.frames)
  {
    hide OnLine;
    FirstLine(line, tail);
  }

  /** The size check made once per call: a long buffer must hold a line feed. */
  predicate Fits(buffer: seq<Byte>) { |buffer| <= MAX_SSE_LINE_BYTES || LF in buffer }

  function Feed(judge: Judge, d: Decoder, chunk: seq<Byte>): Fed {
    if chunk == [] || d.core.done || !Fits(d.buffer + chunk) then Refused(d.core)
    else
      match Drain(judge, d.core, d.buffer + chunk, [])
      case Stuck(c) => Refused(c)
      case Drained(c, rest, frames) => Fed(Decoder(c, rest), frames)
  }

  /** A fresh decoder fed bytes with a line feed drains just those. */
  lemma FeedAtOnce(judge: Judge, bytes: seq<Byte>)
    requires LF in bytes
    ensures var d := Drain(judge, FRESH.core, bytes, []);
            Feed(judge, FRESH, bytes) == if d.Stuck? then Refused(d.core) else Fed(Decoder(d.core, d.rest), d.frames)
  {
    hide Drain;
    assert FRESH.buffer + bytes == bytes;
  }

  function FeedAll(judge: Judge, d: Decoder, chunks: seq<seq<Byte>>): Fed {
    if chunks == [] then Fed(d, [])
    else
      match FeedAll(judge, d, chunks[..|chunks| - 1])
      case Refused(c) => Refused(c)
      case Fed(d1, frames) =>
        match Feed(judge, d1, chunks[|chunks| - 1])
        case Refused(c) => Refused(c)
        case Fed(d2, more) => Fed(d2, frames + more)
  }

  /** The check made when the provider's stream ends. */
  predicate MayFinish(d: Decoder) {
    d.buffer == [] && d.core.dataLines == [] && d.core.done && d.core.usage.Some?
  }

  // ---------------------------------------------------------------- the decoder as the code keeps it

  function Wire(frames: seq<Frame>): seq<seq<Byte>> {
    seq(|frames|, i requires 0 <= i < |frames| => FrameBytes(frames[i]))
  }

  lemma OneFrame(step: Step, sent: seq<Frame>)
    requires step.Went? && |step.frames| <= 1
    ensures Wire(sent + step.frames) == Wire(sent) + if step.frames == [] then [] else [FrameBytes(step.frames[0])]
  {
  }

  class OpenAIStreamDecoder {
    const judge: Judge
    var buffer: seq<Byte>
    var dataLines: seq<seq<Byte>>
    var done: bool
    var usage: Option<Usage>

    ghost function State(): Decoder
      reads this
    {
      Decoder(Core(dataLines, done, usage), buffer)
    }

    constructor (judge: Judge)
      ensures this.judge == judge && State() == FRESH
    {
      this.judge := judge;
      buffer, dataLines, done, usage := [], [], false, None;
    }

    /** Ends an event: None when there is none, an error, or one frame's bytes. */
    method FinishPendingEvent() returns (ok: bool, frame: Option<seq<Byte>>)
      modifies this`dataLines, this`done, this`usage
      ensures var s := FinishEvent(judge, old(State().core));
              && State().core == s.core && ok == s.Went?
              && (ok ==> frame == if s.frames == [] then None else Some(FrameBytes(s.frames[0])))
    {
      frame := None;
      if dataLines == [] { return true, None; }
      var text := Join(dataLines);
      dataLines := [];
      if text == DONE_TEXT {
        if done || usage.None? { return false, None; }
        done := true;
        return true, Some(FrameBytes(Done));
      }
      if done { return false, None; }
      var verdict := judge(text);
      if verdict.Invalid? { return false, None; }
      if verdict.usage.Some? {
        if usage.Some? { return false, None; }
        usage := verdict.usage;
      }
      return true, Some(FrameBytes(Payload(text)));
    }

    /** One complete line. */
    method TakeLine(raw: seq<Byte>) returns (ok: bool, frame: Option<seq<Byte>>)
      modifies this`dataLines, this`done, this`usage
      ensures var s := OnLine(judge, old(State().core), raw);
              && State().core == s.core && ok == s.Went?
              && (ok ==> frame == if s.frames == [] then None else Some(FrameBytes(s.frames[0])))
    {
      var line := StripCr(raw);
      if |line| > MAX_SSE_LINE_BYTES { return false, None; }
      if done && line != [] { return false, None; }
      if line == [] {
        ok, frame := FinishPendingEvent();
        return;
      }
      if line[0] == COLON { return true, None; }
      if !StartsWith(line, DATA) { return false, None; }
      dataLines := dataLines + [Value(line)];
      return true, None;
    }

    /** One call of feed: the frames of every line it completes, or a protocol error. */
    method FeedChunk(chunk: seq<Byte>) returns (ok: bool, frames: seq<seq<Byte>>)
      modifies this`buffer, this`dataLines, this`done, this`usage
      ensures var fed := Feed(judge, old(State()), chunk);
              && ok == fed.Fed?
              && (ok ==> State() == fed.decoder && frames == Wire(fed.frames))
              && (!ok ==> State().core == fed.core)
    {
      frames := [];
      if chunk == [] || done { return false, []; }
      buffer := buffer + chunk;
      if |buffer| > MAX_SSE_LINE_BYTES && LF !in buffer { return false, []; }
      ghost var whole := Drain(judge, State().core, buffer, []);
      ghost var sent: seq<Frame> := [];
      while true
        invariant frames == Wire(sent) && Drain(judge, State().core, buffer, sent) == whole
        decreases |buffer|
      {
        var newline := Find(buffer, LF);
        if newline == |buffer| { break; }
        var raw := buffer[..newline];
        ghost var step := OnLine(judge, State().core, raw);
        buffer := buffer[newline + 1..];
        var ok, frame := TakeLine(raw);
        if !ok { return false, []; }
        OneFrame(step, sent);
        frames := frames + if frame.Some? then [frame.value] else [];
        sent := sent + step.frames;
      }
      return true, frames;
    }
  }
}
