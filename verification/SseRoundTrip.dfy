/** What the gateway's decoder prints, the SDK's loop reads back. */
module SseRoundTrip {
  import opened Common
  import opened Bytes
  import opened SseDecoder
  import opened SseChunking
  import opened SseClient

  const HEARTBEAT: seq<Byte> := [COLON, SPACE, 104, 101, 97, 114, 116, 98, 101, 97, 116, LF, LF]

  /** What the gateway yields: heartbeat comments between the decoder's frames. */
  datatype Item = Beat | Out(frame: Frame)

  function ItemBytes(i: Item): seq<Byte> {
    if i.Beat? then HEARTBEAT else FrameBytes(i.frame)
  }

  function Sent(items: seq<Item>): seq<Byte> {
    if items == [] then [] else ItemBytes(items[0]) + Sent(items[1..])
  }

  function FramesOf(items: seq<Item>): seq<Frame> {
    if items == [] then [] else (if items[0].Out? then [items[0].frame] else []) + FramesOf(items[1..])
  }

  function Texts(frames: seq<Frame>): seq<seq<Byte>> {
    if frames == [] then []
    else (if frames[0].Payload? then [frames[0].text] else []) + Texts(frames[1..])
  }

  /** The exact condition under which a payload text survives the wire. */
  predicate Survives(text: seq<Byte>) {
    && LF !in text
    && (text == [] || text[|text| - 1] != CR)
    && |text| + 7 <= MAX_SSE_EVENT_BYTES
  }

  // ---------------------------------------------------------------- one line, one item

  lemma ScanLine(read: Reader, c: Client, line: seq<Byte>, tail: seq<Byte>)
    requires LF !in line
    ensures var r := OnClientLine(read, c, line);
            Scan(read, c, line + [LF] + tail)
            == if r.Throws? then Thrown(r.events) else if r.Finishes? then Closed(r.client, tail) else Scan(read, r.client, tail)
  {
    FirstLine(line, tail);
  }

  lemma ScanBeat(read: Reader, events: seq<seq<Byte>>, tail: seq<Byte>)
    ensures Scan(read, Client([], 0, events), HEARTBEAT + tail) == Scan(read, Client([], 0, events), tail)
  {
    var line := HEARTBEAT[..11];
    assert HEARTBEAT + tail == line + [LF] + ([] + [LF] + tail);
    ScanLine(read, Client([], 0, events), line, [] + [LF] + tail);
    ScanLine(read, Client([], 0, events), [], tail);
  }

  lemma TextLine(read: Reader, events: seq<seq<Byte>>, text: seq<Byte>)
    requires Survives(text)
    ensures OnClientLine(read, Client([], 0, events), DATA + [SPACE] + text) == Goes(Client([text], |text| + 7, events))
  {
    var line := DATA + [SPACE] + text;
    assert StripCr(line) == line && line[0] != COLON;
    assert StartsWith(line, DATA) && Value(line) == text;
    assert [] + [text] == [text];
  }

  lemma BlankLine(read: Reader, events: seq<seq<Byte>>, text: seq<Byte>, size: nat)
    ensures OnClientLine(read, Client([text], size, events), [])
         == if text == DONE_TEXT then Finishes(Client([], 0, events))
            else if read(text).Object? then Goes(Client([], 0, events + [text]))
            else Throws(events)
  {
    assert Join([text]) == text;
  }

  /** A data line and a blank line hand the text over. */
  lemma ScanText(read: Reader, events: seq<seq<Byte>>, text: seq<Byte>, tail: seq<Byte>)
    requires Survives(text)
    ensures Scan(read, Client([], 0, events), DATA + [SPACE] + text + [LF, LF] + tail)
         == if text == DONE_TEXT then Closed(Client([], 0, events), tail)
            else if read(text).Object? then Scan(read, Client([], 0, events + [text]), tail)
            else Thrown(events)
  {
    var line := DATA + [SPACE] + text;
    assert line + [LF, LF] + tail == line + [LF] + ([] + [LF] + tail);
    TextLine(read, events, text);
    BlankLine(read, events, text, |text| + 7);
    ScanLine(read, Client([], 0, events), line, [] + [LF] + tail);
    ScanLine(read, Client([text], |text| + 7, events), [], tail);
  }

  lemma ScanItem(read: Reader, events: seq<seq<Byte>>, f: Frame, tail: seq<Byte>)
    requires f.Payload? ==> Survives(f.text) && f.text != DONE_TEXT && read(f.text).Object?
    ensures Scan(read, Client([], 0, events), FrameBytes(f) + tail)
         == if f.Done? then Closed(Client([], 0, events), tail) else Scan(read, Client([], 0, events + [f.text]), tail)
  {
    ScanText(read, events, if f.Done? then DONE_TEXT else f.text, tail);
  }

  // ---------------------------------------------------------------- the round trip

  predicate Readable(read: Reader, frames: seq<Frame>) {
    forall i | 0 <= i < |frames| && frames[i].Payload? ::
      Survives(frames[i].text) && frames[i].text != DONE_TEXT && read(frames[i].text).Object?
  }

  /** Items ending in the only [DONE]. */
  predicate EndsInDone(items: seq<Item>) {
    && items != [] && items[|items| - 1] == Out(Done)
    && forall i | 0 <= i < |items| - 1 :: items[i] != Out(Done)
  }

  lemma {:induction false} ScanSent(read: Reader, events: seq<seq<Byte>>, items: seq<Item>)
    requires EndsInDone(items) && Readable(read, FramesOf(items))
    ensures Scan(read, Client([], 0, events), Sent(items)) == Closed(Client([], 0, events + Texts(FramesOf(items))), [])
    decreases |items|
  {
    hide Scan, OnClientLine;
    var item, rest := items[0], items[1..];
    FramesOfFirst(items);
    if item.Beat? {
      ScanBeat(read, events, Sent(rest));
      ScanSent(read, events, rest);
    } else {
      assert FramesOf(items)[0] == item.frame;
      ScanItem(read, events, item.frame, Sent(rest));
      if item.frame.Done? {
        assert rest == [] && Texts([Done]) == [] && events + [] == events;
      } else {
        ReadableTail(read, FramesOf(items));
        ScanSent(read, events + [item.frame.text], rest);
        assert (events + [item.frame.text]) + Texts(FramesOf(rest)) == events + Texts(FramesOf(items));
      }
    }
  }

  lemma FramesOfFirst(items: seq<Item>)
    requires EndsInDone(items)
    ensures var rest := items[1..];
            && (items[0].Beat? ==> FramesOf(items) == FramesOf(rest))
            && (items[0].Out? ==> FramesOf(items) == [items[0].frame] + FramesOf(rest))
            && (items[0] != Out(Done) ==> EndsInDone(rest))
            && (items[0] == Out(Done) ==> rest == [])
            && (items[0].Out? ==> FramesOf(items)[1..] == FramesOf(rest))
  {
    var rest := items[1..];
    if rest != [] { assert items[|items| - 1] == rest[|rest| - 1]; }
  }

  lemma ReadableTail(read: Reader, frames: seq<Frame>)
    requires Readable(read, frames) && frames != []
    ensures Readable(read, frames[1..])
  {
  }

  /** Accepted payloads, with any heartbeats between their frames and under any cutting of the bytes, reach
      the caller as exactly those texts in order. */
  lemma RoundTrip(read: Reader, items: seq<Item>, chunks: seq<seq<Byte>>)
    requires EndsInDone(items) && Readable(read, FramesOf(items)) && Concat(chunks) == Sent(items)
    ensures Read(read, START, [], chunks) == Success(Texts(FramesOf(items)))
  {
    ScanSent(read, [], items);
    assert [] + Texts(FramesOf(items)) == Texts(FramesOf(items));
    assert [] + Concat(chunks) == Sent(items);
    AnyChunking(read, START, [], chunks, Client([], 0, Texts(FramesOf(items))));
  }

  /** From the provider's bytes to the SDK's caller: whatever chunks the gateway read and whatever chunks the
      SDK read, the caller gets the accepted texts. */
  lemma EndToEnd(judge: Judge, read: Reader, incoming: seq<seq<Byte>>, items: seq<Item>, chunks: seq<seq<Byte>>)
    requires incoming != [] && FeedAll(judge, FRESH, incoming).Fed? && FeedAll(judge, FRESH, incoming).decoder.core.done
    requires FramesOf(items) == FeedAll(judge, FRESH, incoming).frames && items != [] && items[|items| - 1].Out?
    requires Readable(read, FramesOf(items)) && Concat(chunks) == Sent(items)
    ensures Feed(judge, FRESH, Concat(incoming)).Fed?
    ensures Read(read, START, [], chunks) == Success(Texts(Feed(judge, FRESH, Concat(incoming)).frames))
  {
    ChunkingIsIrrelevant(judge, FRESH, incoming);
    DoneComesLast(judge, Concat(incoming));
    LastOutIsDone(items, FeedAll(judge, FRESH, incoming).decoder.core);
    RoundTrip(read, items, chunks);
  }

  lemma {:induction false} LastOutIsDone(items: seq<Item>, c: Core)
    requires items != [] && items[|items| - 1].Out? && c.done && FramesEnd(c, FramesOf(items))
    ensures EndsInDone(items)
    decreases |items|
  {
    var frames, rest := FramesOf(items), items[1..];
    if rest == [] {
      assert FramesOf(rest) == [] && frames == [items[0].frame];
    } else {
      assert items[|items| - 1] == rest[|rest| - 1];
      OutLeavesFrame(rest);
      assert frames == (if items[0].Out? then [items[0].frame] else []) + FramesOf(rest);
      FramesEndTail(c, frames, FramesOf(rest));
      LastOutIsDone(rest, c);
      forall i | 0 <= i < |items| - 1 ensures items[i] != Out(Done) {
        if 0 < i { assert items[i] == rest[i - 1]; }
        else if items[0].Out? { assert frames[0] == items[0].frame; }
      }
    }
  }

  lemma {:induction false} OutLeavesFrame(items: seq<Item>)
    requires items != [] && items[|items| - 1].Out?
    ensures FramesOf(items) != []
    decreases |items|
  {
    if |items| > 1 { OutLeavesFrame(items[1..]); }
  }

  lemma FramesEndTail(c: Core, frames: seq<Frame>, tail: seq<Frame>)
    requires FramesEnd(c, frames) && c.done && tail != [] && |tail| <= |frames| && frames[|frames| - |tail|..] == tail
    ensures FramesEnd(c, tail)
  {
    forall i | 0 <= i < |tail| ensures tail[i].Done? ==> i == |tail| - 1 {
      assert tail[i] == frames[|frames| - |tail| + i];
    }
    assert tail[|tail| - 1] == frames[|frames| - 1];
  }
}
