/** Which printed streams the gateway's decoder accepts: what it sends, it would take again. */
module SseAcceptance {
  import opened Common
  import opened Bytes
  import opened SseDecoder
  import opened SseRoundTrip

  /** A payload that a line of its own can carry. */
  predicate Printable(text: seq<Byte>) {
    LF !in text && (text == [] || text[|text| - 1] != CR) && |text| + 6 <= MAX_SSE_LINE_BYTES
  }

  predicate AllPrintable(frames: seq<Frame>) { forall i | 0 <= i < |frames| && frames[i].Payload? :: Printable(frames[i].text) }

  /** Every payload passes validation as a chunk. */
  predicate AllChunks(judge: Judge, frames: seq<Frame>) {
    forall i | 0 <= i < |frames| && frames[i].Payload? :: frames[i].text != DONE_TEXT && judge(frames[i].text).Chunk?
  }

  /** How many payloads carry usage. */
  function UsageCount(judge: Judge, frames: seq<Frame>): nat {
    if frames == [] then 0
    else (if frames[0].Payload? && judge(frames[0].text).Chunk? && judge(frames[0].text).usage.Some? then 1 else 0)
         + UsageCount(judge, frames[1..])
  }

  function Known(usage: Option<Usage>): nat { if usage.Some? then 1 else 0 }

  // ---------------------------------------------------------------- one line, one item

  lemma BeatPasses(judge: Judge, c: Core, tail: seq<Byte>, sent: seq<Frame>)
    requires c.dataLines == [] && !c.done
    ensures Drain(judge, c, HEARTBEAT + tail, sent) == Drain(judge, c, tail, sent)
  {
    var line := HEARTBEAT[..11];
    assert HEARTBEAT + tail == line + [LF] + ([] + [LF] + tail);
    assert line[0] == COLON && StripCr(line) == line;
    DrainLine(judge, c, line, [] + [LF] + tail, sent);
    DrainLine(judge, c, [], tail, sent + []);
    assert sent + [] + [] == sent;
  }

  function FrameText(f: Frame): seq<Byte> { if f.Done? then DONE_TEXT else f.text }

  lemma DataLine(judge: Judge, c: Core, text: seq<Byte>)
    requires !c.done && Printable(text)
    ensures OnLine(judge, c, DATA + [SPACE] + text) == Went(c.(dataLines := c.dataLines + [text]), [])
  {
    var line := DATA + [SPACE] + text;
    assert StripCr(line) == line && StartsWith(line, DATA) && Value(line) == text;
  }

  lemma DrainFrame(judge: Judge, c: Core, f: Frame, tail: seq<Byte>, sent: seq<Frame>)
    requires c.dataLines == [] && !c.done && (f.Payload? ==> Printable(f.text))
    ensures var s := FinishEvent(judge, c.(dataLines := [FrameText(f)]));
            Drain(judge, c, FrameBytes(f) + tail, sent)
            == if s.Broke? then Stuck(s.core) else Drain(judge, s.core, tail, sent + s.frames)
  {
    var text := FrameText(f);
    assert FrameBytes(f) + tail == DATA + [SPACE] + text + [LF] + ([] + [LF] + tail);
    DataLine(judge, c, text);
    assert [] + [text] == [text];
    DrainLine(judge, c, DATA + [SPACE] + text, [] + [LF] + tail, sent);
    DrainLine(judge, c.(dataLines := [text]), [], tail, sent + []);
    assert sent + [] == sent;
  }

  /** Past [DONE] any further item stops the decoder. */
  lemma DoneIsFinal(judge: Judge, c: Core, item: Item, tail: seq<Byte>, sent: seq<Frame>)
    requires c.done && (item.Out? && item.frame.Payload? ==> Printable(item.frame.text))
    ensures Drain(judge, c, ItemBytes(item) + tail, sent).Stuck?
  {
    if item.Beat? {
      var line := HEARTBEAT[..11];
      assert HEARTBEAT + tail == line + [LF] + ([LF] + tail);
      assert StripCr(line) == line;
      DrainLine(judge, c, line, [LF] + tail, sent);
    } else {
      var line := DATA + [SPACE] + FrameText(item.frame);
      assert FrameBytes(item.frame) + tail == line + [LF] + ([LF] + tail);
      assert StripCr(line) == line;
      DrainLine(judge, c, line, [LF] + tail, sent);
    }
  }

  // ---------------------------------------------------------------- whole streams

  lemma EventOf(judge: Judge, usage: Option<Usage>, f: Frame)
    ensures var s := FinishEvent(judge, Core([FrameText(f)], false, usage));
            && (FrameText(f) == DONE_TEXT ==>
                  if usage.None? then s.Broke? else s == Went(Core([], true, usage), [Done]))
            && (FrameText(f) != DONE_TEXT ==>
                  var v := judge(FrameText(f));
                  if v.Invalid? || (v.usage.Some? && usage.Some?) then s.Broke?
                  else s == Went(Core([], false, if v.usage.Some? then v.usage else usage), [Payload(FrameText(f))]))
  {
    assert Join([FrameText(f)]) == FrameText(f);
  }

  /** What draining printed frames, from known usage, must come to. */
  predicate Right(judge: Judge, usage: Option<Usage>, frames: seq<Frame>, sent: seq<Frame>, d: Drained) {
    && (d.Drained? <==> AllChunks(judge, frames) && UsageCount(judge, frames) + Known(usage) == 1)
    && (d.Drained? ==> d.frames == sent + frames && d.rest == [] && d.core.done && d.core.dataLines == [] && d.core.usage.Some?)
  }

  lemma Carries(judge: Judge, usage: Option<Usage>, frames: seq<Frame>, sent: seq<Frame>, d: Drained)
    requires frames != [] && frames[0].Payload? && frames[0].text != DONE_TEXT && judge(frames[0].text).Chunk?
    requires judge(frames[0].text).usage.None? || usage.None?
    requires Right(judge, if judge(frames[0].text).usage.Some? then judge(frames[0].text).usage else usage, frames[1..], sent + [frames[0]], d)
    ensures Right(judge, usage, frames, sent, d)
  {
    ChunkAdds(judge, frames);
    assert sent + [frames[0]] + frames[1..] == sent + frames;
  }

  lemma Refuses(judge: Judge, usage: Option<Usage>, frames: seq<Frame>, sent: seq<Frame>, d: Drained)
    requires frames != [] && frames[0].Payload? && d.Stuck?
    requires frames[0].text == DONE_TEXT || judge(frames[0].text).Invalid? || (judge(frames[0].text).usage.Some? && usage.Some?)
    ensures Right(judge, usage, frames, sent, d)
  {
    if frames[0].text != DONE_TEXT { ChunkAdds(judge, frames); }
  }

  lemma Ends(judge: Judge, usage: Option<Usage>, sent: seq<Frame>)
    ensures Right(judge, usage, [Done], sent, Drain(judge, Core([], false, usage), FrameBytes(Done) + [], sent))
  {
    hide FinishEvent, FrameBytes;
    DrainFrame(judge, Core([], false, usage), Done, [], sent);
    EventOf(judge, usage, Done);
    assert [Done][1..] == [];
    assert UsageCount(judge, [Done]) == 0;
  }

  /** A payload in front of the rest. */
  lemma PayloadStep(judge: Judge, usage: Option<Usage>, items: seq<Item>, sent: seq<Frame>)
    requires EndsInDone(items) && AllPrintable(FramesOf(items)) && items[0].Out? && items[0].frame.Payload?
    requires var v := judge(items[0].frame.text);
      v.Chunk? && items[0].frame.text != DONE_TEXT && (v.usage.None? || usage.None?) ==>
        Right(judge, if v.usage.Some? then v.usage else usage, FramesOf(items[1..]), sent + [items[0].frame],
              Drain(judge, Core([], false, if v.usage.Some? then v.usage else usage), Sent(items[1..]), sent + [items[0].frame]))
    ensures Right(judge, usage, FramesOf(items), sent, Drain(judge, Core([], false, usage), Sent(items), sent))
  {
    hide Right, OnLine, FinishEvent, FrameBytes;
    var c, f, rest := Core([], false, usage), items[0].frame, items[1..];
    FramesOfFirst(items);
    assert FramesOf(items)[0] == f && Printable(f.text);
    assert Sent(items) == FrameBytes(f) + Sent(rest);
    DrainFrame(judge, c, f, Sent(rest), sent);
    EventOf(judge, usage, f);
    hide Drain;
    if f.text == DONE_TEXT {
      if usage.Some? { DoneThenMore(judge, usage, rest, FramesOf(items), sent + [Done]); }
      Refuses(judge, usage, FramesOf(items), sent, Drain(judge, c, Sent(items), sent));
    } else if judge(f.text).Invalid? || (judge(f.text).usage.Some? && usage.Some?) {
      Refuses(judge, usage, FramesOf(items), sent, Drain(judge, c, Sent(items), sent));
    } else {
      Carries(judge, usage, FramesOf(items), sent, Drain(judge, c, Sent(items), sent));
    }
  }

  lemma DoneThenMore(judge: Judge, usage: Option<Usage>, rest: seq<Item>, frames: seq<Frame>, sent: seq<Frame>)
    requires EndsInDone(rest) && AllPrintable(frames) && frames != [] && frames[1..] == FramesOf(rest)
    ensures Drain(judge, Core([], true, usage), Sent(rest), sent).Stuck?
  {
    FramesOfFirst(rest);
    if rest[0].Out? { assert frames[1] == FramesOf(rest)[0] == rest[0].frame; }
    DoneIsFinal(judge, Core([], true, usage), rest[0], Sent(rest[1..]), sent);
  }

  lemma {:induction false} AcceptedExactlyWhen(judge: Judge, usage: Option<Usage>, items: seq<Item>, sent: seq<Frame>)
    requires EndsInDone(items) && AllPrintable(FramesOf(items))
    ensures Right(judge, usage, FramesOf(items), sent, Drain(judge, Core([], false, usage), Sent(items), sent))
    decreases |items|
  {
    hide Drain, Right, FrameBytes;
    var item, rest := items[0], items[1..];
    FramesOfFirst(items);
    if item.Beat? {
      BeatPasses(judge, Core([], false, usage), Sent(rest), sent);
      AcceptedExactlyWhen(judge, usage, rest, sent);
    } else if item == Out(Done) {
      assert FramesOf(rest) == [] && Sent(rest) == [] && FramesOf(items) == [Done];
      Ends(judge, usage, sent);
    } else {
      var v := judge(item.frame.text);
      PrintableTail(FramesOf(items));
      AcceptedExactlyWhen(judge, if v.Chunk? && v.usage.Some? then v.usage else usage, rest, sent + [item.frame]);
      PayloadStep(judge, usage, items, sent);
    }
  }

  lemma PrintableTail(frames: seq<Frame>)
    requires AllPrintable(frames) && frames != []
    ensures AllPrintable(frames[1..])
  {
  }

  /** The first payload's share in validation and usage. */
  lemma ChunkAdds(judge: Judge, frames: seq<Frame>)
    requires frames != [] && frames[0].Payload? && frames[0].text != DONE_TEXT
    ensures AllChunks(judge, frames) <==> judge(frames[0].text).Chunk? && AllChunks(judge, frames[1..])
    ensures UsageCount(judge, frames)
         == UsageCount(judge, frames[1..]) + if judge(frames[0].text).Chunk? then Known(judge(frames[0].text).usage) else 0
  {
    forall i | 1 <= i < |frames| ensures frames[i] == frames[1..][i - 1] {}
  }

  /** A printed stream, with any heartbeats, is accepted in one call exactly when every payload is a valid chunk and
      exactly one carries usage; the decoder then sends those very frames again and may finish. */
  lemma PrintedIsAcceptedExactlyWhen(judge: Judge, items: seq<Item>)
    requires EndsInDone(items) && AllPrintable(FramesOf(items))
    ensures var fed := Feed(judge, FRESH, Sent(items));
            && (fed.Fed? <==> AllChunks(judge, FramesOf(items)) && UsageCount(judge, FramesOf(items)) == 1)
            && (fed.Fed? ==> fed.frames == FramesOf(items) && MayFinish(fed.decoder))
  {
    hide Drain, FramesOf, Sent, AllChunks, UsageCount, Feed;
    AcceptedExactlyWhen(judge, None, items, []);
    assert [] + FramesOf(items) == FramesOf(items);
    HasLine(items);
    FeedAtOnce(judge, Sent(items));
  }

  lemma HasLine(items: seq<Item>)
    requires items != []
    ensures LF in Sent(items)
  {
    var b := ItemBytes(items[0]);
    assert b[|b| - 1] == LF;
    assert Sent(items)[|b| - 1] == LF;
  }
}
