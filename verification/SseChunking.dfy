/** How the decoder's answer depends on where its input is cut. */
module SseChunking {
  import opened Common
  import opened Bytes
  import opened SseDecoder

  /** More bytes behind the buffer wait for what the buffer already settles. */
  lemma {:induction false} DrainAppend(judge: Judge, c: Core, buffer: seq<Byte>, sent: seq<Frame>, tail: seq<Byte>)
    ensures Drain(judge, c, buffer + tail, sent)
         == match Drain(judge, c, buffer, sent)
            case Stuck(c1) => Stuck(c1)
            case Drained(c1, rest, sent1) => Drain(judge, c1, rest + tail, sent1)
    decreases |buffer|
  {
    var n := Find(buffer, LF);
    FindAppend(buffer, tail, LF);
    var step := if n < |buffer| then OnLine(judge, c, buffer[..n]) else Broke(c);
    DrainStep(judge, c, buffer, sent, n, step);
    if n < |buffer| {
      hide OnLine, Drain, Find;
      assert (buffer + tail)[..n] == buffer[..n];
      assert (buffer + tail)[n + 1..] == buffer[n + 1..] + tail;
      DrainStep(judge, c, buffer + tail, sent, n, step);
      if step.Went? { DrainAppend(judge, step.core, buffer[n + 1..], sent + step.frames, tail); }
    }
  }

  lemma Regroup(a: seq<Frame>, b: seq<Frame>, c: seq<Frame>)
    ensures (a + b) + c == a + (b + c)
  {
  }

  /** Frames already sent are only carried along. */
  lemma {:induction false} DrainCarries(judge: Judge, c: Core, buffer: seq<Byte>, before: seq<Frame>, sent: seq<Frame>)
    ensures Drain(judge, c, buffer, before + sent)
         == match Drain(judge, c, buffer, sent)
            case Stuck(c1) => Stuck(c1)
            case Drained(c1, rest, frames) => Drained(c1, rest, before + frames)
    decreases |buffer|
  {
    var n := Find(buffer, LF);
    var step := if n < |buffer| then OnLine(judge, c, buffer[..n]) else Broke(c);
    hide OnLine, Drain, Find;
    DrainStep(judge, c, buffer, sent, n, step);
    DrainStep(judge, c, buffer, before + sent, n, step);
    if n < |buffer| {
      if step.Went? {
        Regroup(before, sent, step.frames);
        DrainCarries(judge, step.core, buffer[n + 1..], before, sent + step.frames);
      }
    }
  }

  /** What is left undrained is what follows the last line feed. */
  lemma {:induction false} DrainRest(judge: Judge, c: Core, buffer: seq<Byte>, sent: seq<Frame>)
    requires Drain(judge, c, buffer, sent).Drained?
    ensures var rest := Drain(judge, c, buffer, sent).rest;
            LF !in rest && |rest| <= |buffer| && buffer[|buffer| - |rest|..] == rest && (LF !in buffer ==> rest == buffer)
    decreases |buffer|
  {
    var n := Find(buffer, LF);
    var step := if n < |buffer| then OnLine(judge, c, buffer[..n]) else Broke(c);
    hide OnLine, Drain, Find;
    DrainStep(judge, c, buffer, sent, n, step);
    if n < |buffer| {
      DrainRest(judge, step.core, buffer[n + 1..], sent + step.frames);
    }
  }

  lemma DrainTwice(judge: Judge, c: Core, buffer: seq<Byte>, tail: seq<Byte>)
    requires Drain(judge, c, buffer, []).Drained?
    ensures var d1 := Drain(judge, c, buffer, []);
            Drain(judge, c, buffer + tail, [])
            == match Drain(judge, d1.core, d1.rest + tail, [])
               case Stuck(c2) => Stuck(c2)
               case Drained(c2, rest, more) => Drained(c2, rest, d1.frames + more)
  {
    var d1 := Drain(judge, c, buffer, []);
    DrainAppend(judge, c, buffer, [], tail);
    DrainCarries(judge, d1.core, d1.rest + tail, d1.frames, []);
    assert d1.frames + [] == d1.frames;
  }

  /** Two accepted calls are one accepted call on the joined bytes. */
  lemma FeedMerges(judge: Judge, d: Decoder, a: seq<Byte>, b: seq<Byte>)
    requires Feed(judge, d, a).Fed? && Feed(judge, Feed(judge, d, a).decoder, b).Fed?
    ensures var first := Feed(judge, d, a); var second := Feed(judge, first.decoder, b);
            Feed(judge, d, a + b) == Fed(second.decoder, first.frames + second.frames)
  {
    var first := Feed(judge, d, a);
    assert d.buffer + (a + b) == (d.buffer + a) + b;
    DrainTwice(judge, d.core, d.buffer + a, b);
    DrainRest(judge, d.core, d.buffer + a, []);
  }

  /** Chunking independence: any accepted sequence of calls gives the frames, usage and final state of one
      call on the concatenated bytes. */
  lemma {:induction false} ChunkingIsIrrelevant(judge: Judge, d: Decoder, chunks: seq<seq<Byte>>)
    requires chunks != [] && FeedAll(judge, d, chunks).Fed?
    ensures Feed(judge, d, Concat(chunks)) == FeedAll(judge, d, chunks)
    decreases |chunks|
  {
    var n := |chunks| - 1;
    if n == 0 {
      assert chunks[..n] == [] && [] + chunks[0] == chunks[0];
      assert FeedAll(judge, d, chunks[..n]) == Fed(d, []);
      var only := Feed(judge, d, chunks[0]);
      if only.Fed? { assert [] + only.frames == only.frames; }
    } else {
      ChunkingIsIrrelevant(judge, d, chunks[..n]);
      FeedMerges(judge, d, Concat(chunks[..n]), chunks[n]);
    }
  }

  /** The converse, exactly: one accepted call may be cut in two if and only if the first part does not end the
      stream and each part's own size check passes; and then nothing else changes. */
  lemma FeedSplitsExactlyWhen(judge: Judge, d: Decoder, a: seq<Byte>, b: seq<Byte>)
    requires a != [] && b != [] && Feed(judge, d, a + b).Fed?
    ensures Drain(judge, d.core, d.buffer + a, []).Drained?
    ensures var d1 := Drain(judge, d.core, d.buffer + a, []);
            FeedAll(judge, d, [a, b]).Fed? <==> !d1.core.done && Fits(d.buffer + a) && Fits(d1.rest + b)
    ensures FeedAll(judge, d, [a, b]).Fed? ==> FeedAll(judge, d, [a, b]) == Feed(judge, d, a + b)
  {
    assert d.buffer + (a + b) == (d.buffer + a) + b;
    DrainAppend(judge, d.core, d.buffer + a, [], b);
    DrainTwice(judge, d.core, d.buffer + a, b);
    TwoCalls(judge, d, a, b);
    if FeedAll(judge, d, [a, b]).Fed? { FeedMerges(judge, d, a, b); }
  }

  lemma TwoCalls(judge: Judge, d: Decoder, a: seq<Byte>, b: seq<Byte>)
    ensures FeedAll(judge, d, [a, b])
         == match Feed(judge, d, a)
            case Refused(c) => Refused(c)
            case Fed(d1, f1) =>
              match Feed(judge, d1, b)
              case Refused(c) => Refused(c)
              case Fed(d2, f2) => Fed(d2, f1 + f2)
  {
    var chunks := [a, b];
    assert chunks[..1] == [a] && [a][..0] == [];
    var first := Feed(judge, d, a);
    if first.Fed? { assert [] + first.frames == first.frames; }
    assert FeedAll(judge, d, [a]) == first;
  }

  /** Neither condition is idle: a blank line after [DONE] passes only in the same call. */
  lemma BlankAfterDone(judge: Judge, usage: Usage)
    ensures var d := Decoder(Core([DONE_TEXT], false, Some(usage)), []);
            Feed(judge, d, [LF] + [LF]).Fed? && FeedAll(judge, d, [[LF], [LF]]).Refused?
  {
    var d := Decoder(Core([DONE_TEXT], false, Some(usage)), []);
    var c := Core([], true, Some(usage));
    assert [LF, LF][1..] == [LF] && [LF][1..] == [];
    assert [LF, LF][..0] == [] == [LF][..0];
    assert OnLine(judge, d.core, []) == Went(c, [Done]) && OnLine(judge, c, []) == Went(c, []);
    assert [] + [LF] + [LF] == [LF, LF];
    assert d.buffer + ([LF] + [LF]) == [LF, LF] && d.buffer + [LF] == [LF];
    assert Drain(judge, c, [], [Done] + []) == Drained(c, [], [Done] + []);
    assert Drain(judge, c, [LF], [] + [Done]) == Drain(judge, c, [], [] + [Done] + []);
    assert Drain(judge, d.core, [LF, LF], []) == Drain(judge, c, [LF], [] + [Done]);
    assert Drain(judge, d.core, [LF], []) == Drain(judge, c, [], [] + [Done]);
    assert Feed(judge, d, [LF]).decoder.core.done;
    TwoCalls(judge, d, [LF], [LF]);
  }

  /** A comment line one byte over the limit, ending in a carriage return, passes only with its line feed. */
  lemma LongLineNeedsItsEnd(judge: Judge, line: seq<Byte>)
    requires |line| == MAX_SSE_LINE_BYTES + 1 && line[0] == COLON && line[MAX_SSE_LINE_BYTES] == CR && LF !in line
    ensures Feed(judge, FRESH, line + [LF]).Fed? && FeedAll(judge, FRESH, [line, [LF]]).Refused?
  {
    hide Drain;
    LongComment(judge, FRESH.core, line);
    assert (line + [LF])[|line|] == LF && line + [LF] + [] == line + [LF];
    FeedAtOnce(judge, line + [LF]);
    DrainLine(judge, FRESH.core, line, [], []);
    var none: seq<Frame> := [];
    assert none + none == none;
    DrainStep(judge, FRESH.core, [], none, 0, Broke(FRESH.core));
    assert FRESH.buffer + line == line && !Fits(line);
    hide OnLine;
    TwoCalls(judge, FRESH, line, [LF]);
  }

  lemma LongComment(judge: Judge, c: Core, line: seq<Byte>)
    requires |line| == MAX_SSE_LINE_BYTES + 1 && line[0] == COLON && line[MAX_SSE_LINE_BYTES] == CR && !c.done
    ensures OnLine(judge, c, line) == Went(c, [])
  {
  }

  /** An unfinished line may reach the limit in a first call and pass it only within that call. */
  lemma LongTailNeedsItsLine(judge: Judge, tail: seq<Byte>)
    requires |tail| == MAX_SSE_LINE_BYTES && LF !in tail
    ensures var a: seq<Byte>, b: seq<Byte> := [COLON, LF] + tail, [COLON];
            && Feed(judge, FRESH, a).Fed? && Feed(judge, FRESH, a + b).Fed? && FeedAll(judge, FRESH, [a, b]).Refused?
  {
    var a: seq<Byte>, b: seq<Byte> := [COLON, LF] + tail, [COLON];
    LineThenTail(judge, tail);
    LineThenTail(judge, tail + b);
    assert [COLON, LF] + (tail + b) == a + b;
    hide OnLine, Drain;
    TwoCalls(judge, FRESH, a, b);
  }

  lemma LineThenTail(judge: Judge, tail: seq<Byte>)
    requires LF !in tail
    ensures Feed(judge, FRESH, [COLON, LF] + tail) == Fed(Decoder(FRESH.core, tail), [])
  {
    var line: seq<Byte>, bytes := [COLON], [COLON, LF] + tail;
    assert bytes == line + [LF] + tail && FRESH.buffer + bytes == bytes && bytes[1] == LF;
    assert StripCr(line) == line;
    DrainLine(judge, FRESH.core, line, tail, []);
    FindIs(tail, LF, |tail|);
  }

  // ---------------------------------------------------------------- what accepted streams look like

  /** [DONE] has been sent, as the last frame, exactly when the decoder is done, and then usage is known. */
  predicate FramesEnd(c: Core, sent: seq<Frame>) {
    && (forall i | 0 <= i < |sent| :: sent[i].Done? ==> i == |sent| - 1 && c.done)
    && (c.done ==> sent != [] && sent[|sent| - 1].Done? && c.usage.Some? && c.dataLines == [])
  }

  lemma {:induction false} DrainEnds(judge: Judge, c: Core, buffer: seq<Byte>, sent: seq<Frame>)
    requires FramesEnd(c, sent) && Drain(judge, c, buffer, sent).Drained?
    ensures var d := Drain(judge, c, buffer, sent); FramesEnd(d.core, d.frames)
    decreases |buffer|
  {
    var n := Find(buffer, LF);
    var step := if n < |buffer| then OnLine(judge, c, buffer[..n]) else Broke(c);
    hide OnLine, Drain, Find, FramesEnd;
    DrainStep(judge, c, buffer, sent, n, step);
    if n < |buffer| {
      LineEnds(judge, c, buffer[..n], sent);
      DrainEnds(judge, step.core, buffer[n + 1..], sent + step.frames);
    }
  }

  lemma LineEnds(judge: Judge, c: Core, raw: seq<Byte>, sent: seq<Frame>)
    requires FramesEnd(c, sent) && OnLine(judge, c, raw).Went?
    ensures var s := OnLine(judge, c, raw); FramesEnd(s.core, sent + s.frames)
  {
  }

  /** A fresh decoder's accepted stream sends [DONE] at most once, last, and only after usage. */
  lemma DoneComesLast(judge: Judge, bytes: seq<Byte>)
    requires Feed(judge, FRESH, bytes).Fed?
    ensures var fed := Feed(judge, FRESH, bytes); FramesEnd(fed.decoder.core, fed.frames)
  {
    assert FRESH.buffer + bytes == bytes;
    DrainEnds(judge, FRESH.core, bytes, []);
  }
}
