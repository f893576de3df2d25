/** Exactly which payload texts come back from the wire as themselves. */
module SseSurvival {
  import opened Common
  import opened Bytes
  import opened SseDecoder
  import opened SseClient
  import opened SseRoundTrip
  import opened SseAcceptance

  predicate ClosesWith(s: Scanned, end: Client) { s.Closed? && s.client == end }

  // ---------------------------------------------------------------- data lines only ever grow into the event

  /** The whole is the opening, or goes on after it with a line feed. */
  predicate Opens(opening: seq<Byte>, whole: seq<Byte>) { opening == whole || opening + [LF] <= whole }

  lemma OpensFurther(a: seq<Byte>, b: seq<Byte>, whole: seq<Byte>)
    requires Opens(a, b) && Opens(b, whole)
    ensures Opens(a, whole)
  {
  }

  lemma {:induction false} JoinSnoc(lines: seq<seq<Byte>>, line: seq<Byte>)
    requires lines != []
    ensures Join(lines + [line]) == Join(lines) + [LF] + line
    decreases |lines|
  {
    assert (lines + [line])[1..] == lines[1..] + [line];
    if |lines| > 1 { JoinSnoc(lines[1..], line); }
  }

  /** From collected data lines and no event yet, a line adds data or hands over exactly what was collected. */
  lemma GoesShape(read: Reader, c: Client, raw: seq<Byte>)
    requires c.events == [] && c.dataLines != []
    ensures var r := OnClientLine(read, c, raw);
            && (r.Finishes? ==> r.client.events == [])
            && (r.Goes? && r.client.events == [] ==>
                  r.client.dataLines != [] && Opens(Join(c.dataLines), Join(r.client.dataLines)))
            && (r.Goes? && r.client.events != [] ==> r.client.events == [Join(c.dataLines)])
  {
    if StartsWith(StripCr(raw), DATA) { JoinSnoc(c.dataLines, Value(StripCr(raw))); }
  }

  lemma LineKeepsEvents(read: Reader, c: Client, raw: seq<Byte>)
    ensures var r := OnClientLine(read, c, raw); !r.Throws? ==> c.events <= r.client.events
  {
  }

  /** Events already handed over are never taken back. */
  lemma {:induction false} EventsStay(read: Reader, c: Client, buffer: seq<Byte>)
    ensures Scan(read, c, buffer).Closed? ==> c.events <= Scan(read, c, buffer).client.events
    decreases |buffer|
  {
    hide OnClientLine;
    var n := Find(buffer, LF);
    if n < |buffer| {
      var step := OnClientLine(read, c, buffer[..n]);
      LineKeepsEvents(read, c, buffer[..n]);
      if step.Goes? { EventsStay(read, step.client, buffer[n + 1..]); }
    }
  }

  /** A scan that closes takes its first line. */
  lemma ScanStep(read: Reader, c: Client, buffer: seq<Byte>, n: nat, step: LineResult)
    requires n == Find(buffer, LF) && Scan(read, c, buffer).Closed?
    requires n < |buffer| ==> step == OnClientLine(read, c, buffer[..n])
    ensures n < |buffer| && !step.Throws?
    ensures if step.Goes? then Scan(read, c, buffer) == Scan(read, step.client, buffer[n + 1..])
            else Scan(read, c, buffer) == Closed(step.client, buffer[n + 1..])
  {
    hide OnClientLine, Find;
  }

  /** The next event begins with the data lines already collected. */
  lemma {:induction false} NextEvent(read: Reader, c: Client, buffer: seq<Byte>, end: Client)
    requires c.events == [] && c.dataLines != []
    requires Scan(read, c, buffer).Closed? && Scan(read, c, buffer).client == end && end.events != []
    ensures Opens(Join(c.dataLines), end.events[0])
    decreases |buffer|
  {
    var n := Find(buffer, LF);
    assert n < |buffer|;
    var step := OnClientLine(read, c, buffer[..n]);
    ScanStep(read, c, buffer, n, step);
    GoesShape(read, c, buffer[..n]);
    assert step.Goes?;
    if step.client.events == [] {
      NextEvent(read, step.client, buffer[n + 1..], end);
      OpensFurther(Join(c.dataLines), Join(step.client.dataLines), end.events[0]);
    } else {
      EventsStay(read, step.client, buffer[n + 1..]);
    }
  }

  // ---------------------------------------------------------------- two lines

  /** The loop's state after the first line of a printed payload. */
  lemma AfterFirstLine(read: Reader, head: seq<Byte>)
    requires LF !in head && OnClientLine(read, START, DATA + [SPACE] + head).Goes?
    ensures var c := OnClientLine(read, START, DATA + [SPACE] + head).client;
            && |head| + 7 <= MAX_SSE_EVENT_BYTES
            && |c.dataLines| == 1 && c.events == [] && c.dataLines[0] == StripCr(head)
  {
    var line := DATA + [SPACE] + head;
    assert StripCr(line) == DATA + [SPACE] + StripCr(head);
    assert StartsWith(StripCr(line), DATA) && StripCr(line)[0] != COLON;
  }

  /** A later line that leaves the event open adds a value shorter than itself. */
  lemma SecondValue(read: Reader, c: Client, raw: seq<Byte>)
    requires |c.dataLines| == 1 && c.events == [] && LF !in raw
    requires OnClientLine(read, c, raw).Goes? && OnClientLine(read, c, raw).client.events == []
    ensures exists v :: LF !in v && |v| < |raw| && OnClientLine(read, c, raw).client.dataLines == [c.dataLines[0], v]
  {
    var v := Value(StripCr(raw));
    assert c.dataLines + [v] == [c.dataLines[0], v];
  }

  /** What opens a text before a line feed ends where the text's first line ends. */
  lemma OpensLine(line: seq<Byte>, text: seq<Byte>)
    requires LF !in line && Opens(line, text)
    ensures Find(text, LF) == |line| && text[..|line|] == line
  {
    if line + [LF] <= text { assert text[|line|] == (line + [LF])[|line|]; }
    FindIs(text, LF, |line|);
  }

  lemma OpensTwo(first: seq<Byte>, second: seq<Byte>, text: seq<Byte>)
    requires Opens(first + [LF] + second, text)
    ensures first + [LF] <= text && Opens(second, text[|first| + 1..])
  {
    var both := first + [LF] + second;
    assert both == (first + [LF]) + second;
    if both != text { assert text == both + text[|both|..]; }
  }

  /** A text with a line feed is opened by no two lines whose second is shorter than its own. */
  lemma NotOpened(first: seq<Byte>, second: seq<Byte>, text: seq<Byte>)
    requires LF !in first && LF !in second && LF in text
    requires |second| < Find(text[Find(text, LF) + 1..], LF)
    ensures !Opens(first + [LF] + second, text)
  {
    if Opens(first + [LF] + second, text) {
      OpensTwo(first, second, text);
      OpensLine(first, text);
      OpensLine(second, text[|first| + 1..]);
    }
  }

  lemma SecondStep(read: Reader, c: Client, raw: seq<Byte>, rest: seq<Byte>, text: seq<Byte>, end: Client)
    requires |c.dataLines| == 1 && c.events == [] && LF !in c.dataLines[0] && LF in text && LF !in raw
    requires |raw| == Find(text[Find(text, LF) + 1..], LF)
    requires OnClientLine(read, c, raw).Goes? && OnClientLine(read, c, raw).client.events == []
    requires ClosesWith(Scan(read, OnClientLine(read, c, raw).client, rest), end) && end.events != []
    ensures end.events[0] != text
  {
    SecondValue(read, c, raw);
    var c1 := OnClientLine(read, c, raw).client;
    var v :| LF !in v && |v| < |raw| && c1.dataLines == [c.dataLines[0], v];
    NextEvent(read, c1, rest, end);
    assert Join([c.dataLines[0], v]) == c.dataLines[0] + [LF] + v;
    NotOpened(c.dataLines[0], v, text);
  }

  lemma EndsEarly(read: Reader, c: Client, raw: seq<Byte>, rest: seq<Byte>, end: Client)
    requires |c.dataLines| == 1 && c.events == []
    requires OnClientLine(read, c, raw).Goes? && OnClientLine(read, c, raw).client.events != []
    requires ClosesWith(Scan(read, OnClientLine(read, c, raw).client, rest), end)
    ensures end.events != [] && end.events[0] == c.dataLines[0]
  {
    GoesShape(read, c, raw);
    EventsStay(read, OnClientLine(read, c, raw).client, rest);
  }

  /** From the first data line on, the event handed over is not a text with that second line. */
  lemma SecondLineLost(read: Reader, c: Client, raw: seq<Byte>, buffer: seq<Byte>, text: seq<Byte>, end: Client)
    requires |c.dataLines| == 1 && c.events == [] && LF !in c.dataLines[0] && LF in text && LF !in raw
    requires |raw| == Find(text[Find(text, LF) + 1..], LF) == Find(buffer, LF) && raw == buffer[..|raw|]
    requires ClosesWith(Scan(read, c, buffer), end) && end.events != []
    ensures end.events[0] != text
  {
    var step := OnClientLine(read, c, raw);
    ScanStep(read, c, buffer, |raw|, step);
    GoesShape(read, c, raw);
    if step.client.events != [] {
      EndsEarly(read, c, raw, buffer[|raw| + 1..], end);
    } else {
      SecondStep(read, c, raw, buffer[|raw| + 1..], text, end);
    }
  }

  lemma PrintedLine(text: seq<Byte>, tail: seq<Byte>)
    ensures FrameBytes(Payload(text)) + tail == DATA + [SPACE] + text + [LF] + ([LF] + tail)
  {
    assert [LF, LF] == [LF] + [LF];
  }

  /** The loop, one printed first line in. */
  lemma ScanFirst(read: Reader, head: seq<Byte>, buffer: seq<Byte>, end: Client) returns (c: Client)
    requires LF !in head && ClosesWith(Scan(read, START, DATA + [SPACE] + head + [LF] + buffer), end)
    ensures |head| + 7 <= MAX_SSE_EVENT_BYTES
    ensures c.dataLines == [StripCr(head)] && c.events == [] && ClosesWith(Scan(read, c, buffer), end)
  {
    hide OnClientLine, Scan, StripCr, Find;
    var line := DATA + [SPACE] + head;
    ScanLine(read, START, line, buffer);
    DataNeverFinishes(read, head);
    AfterFirstLine(read, head);
    c := OnClientLine(read, START, line).client;
  }

  lemma DataNeverFinishes(read: Reader, head: seq<Byte>)
    ensures !OnClientLine(read, START, DATA + [SPACE] + head).Finishes?
  {
    var line := DATA + [SPACE] + head;
    assert StripCr(line) == DATA + [SPACE] + StripCr(head);
  }

  lemma FindBefore(q: seq<Byte>, tail: seq<Byte>)
    ensures Find(q + [LF] + tail, LF) == Find(q, LF) && (q + [LF] + tail)[..Find(q, LF)] == q[..Find(q, LF)]
  {
    FindIs(q + [LF] + tail, LF, Find(q, LF));
  }

  lemma Regroup(p: seq<Byte>, head: seq<Byte>, q: seq<Byte>, tail: seq<Byte>)
    ensures p + (head + [LF] + q) + [LF] + tail == p + head + [LF] + (q + [LF] + tail)
  {
  }

  lemma FirstCut(text: seq<Byte>)
    requires LF in text
    ensures var n := Find(text, LF); text == text[..n] + [LF] + text[n + 1..] && LF !in text[..n]
  {
  }

  /** A payload with an inner line feed never comes back: its second line stops the loop, ends the event
      early, or loses its data: prefix. */
  lemma TwoLinesLost(read: Reader, text: seq<Byte>, tail: seq<Byte>, end: Client)
    requires LF in text && ClosesWith(Scan(read, START, FrameBytes(Payload(text)) + tail), end) && end.events != []
    ensures end.events[0] != text
  {
    var n := Find(text, LF);
    var head, q, rest := text[..n], text[n + 1..], [LF] + tail;
    FirstCut(text);
    PrintedLine(text, tail);
    Regroup(DATA + [SPACE], head, q, rest);
    var c := ScanFirst(read, head, q + [LF] + rest, end);
    FindBefore(q, rest);
    SecondLineLost(read, c, q[..Find(q, LF)], q + [LF] + rest, text, end);
  }

  // ---------------------------------------------------------------- one line

  /** A blank line after one data line hands over that line, or nothing. */
  lemma HandsOver(read: Reader, c: Client, v: seq<Byte>, tail: seq<Byte>, end: Client)
    requires c.dataLines == [v] && c.events == [] && ClosesWith(Scan(read, c, [LF] + tail), end)
    ensures end.events == [] || end.events[0] == v
  {
    hide Scan;
    assert ([LF] + tail)[..0] == [];
    var step := OnClientLine(read, c, []);
    ScanStep(read, c, [LF] + tail, 0, step);
    GoesShape(read, c, []);
    assert Join([v]) == v;
    if step.Goes? { EventsStay(read, step.client, ([LF] + tail)[1..]); }
  }

  /** One line that loses its last byte hands over something else; one that is too long stops the loop. */
  lemma OneLineLost(read: Reader, text: seq<Byte>, tail: seq<Byte>, end: Client)
    requires LF !in text && !Survives(text) && ClosesWith(Scan(read, START, FrameBytes(Payload(text)) + tail), end)
    ensures end.events == [] || end.events[0] != text
  {
    PrintedLine(text, tail);
    var c := ScanFirst(read, text, [LF] + tail, end);
    HandsOver(read, c, StripCr(text), tail, end);
  }

  // ---------------------------------------------------------------- whole streams

  function Shifted(s: Scanned, before: seq<seq<Byte>>): Scanned {
    match s
    case Waiting(c, rest) => Waiting(c.(events := before + c.events), rest)
    case Closed(c, rest) => Closed(c.(events := before + c.events), rest)
    case Thrown(events) => Thrown(before + events)
  }

  lemma LineShifts(read: Reader, c: Client, raw: seq<Byte>, before: seq<seq<Byte>>)
    ensures var r, q := OnClientLine(read, c, raw), OnClientLine(read, c.(events := before + c.events), raw);
            && (r.Goes? ==> q == Goes(r.client.(events := before + r.client.events)))
            && (r.Finishes? ==> q == Finishes(r.client.(events := before + r.client.events)))
            && (r.Throws? ==> q == Throws(before + r.events))
  {
    var text := Join(c.dataLines);
    assert before + (c.events + [text]) == (before + c.events) + [text];
  }

  lemma ScanOne(read: Reader, c: Client, buffer: seq<Byte>, n: nat)
    requires n == Find(buffer, LF)
    ensures Scan(read, c, buffer) ==
            if n >= |buffer| then Waiting(c, buffer)
            else
              match OnClientLine(read, c, buffer[..n])
              case Throws(events) => Thrown(events)
              case Finishes(c1) => Closed(c1, buffer[n + 1..])
              case Goes(c1) => Scan(read, c1, buffer[n + 1..])
  {
    hide OnClientLine, Find;
  }

  /** Events handed over earlier play no part in what follows. */
  lemma {:induction false} EventsShift(read: Reader, c: Client, buffer: seq<Byte>, before: seq<seq<Byte>>)
    ensures Scan(read, c.(events := before + c.events), buffer) == Shifted(Scan(read, c, buffer), before)
    decreases |buffer|
  {
    hide OnClientLine, Scan;
    var n := Find(buffer, LF);
    hide Find;
    ScanOne(read, c, buffer, n);
    ScanOne(read, c.(events := before + c.events), buffer, n);
    if n < |buffer| {
      var step := OnClientLine(read, c, buffer[..n]);
      LineShifts(read, c, buffer[..n], before);
      if step.Goes? { EventsShift(read, step.client, buffer[n + 1..], before); }
    }
  }

  /** Every payload is an event of its own for the caller. */
  predicate AllObjects(read: Reader, frames: seq<Frame>) {
    forall i | 0 <= i < |frames| && frames[i].Payload? :: frames[i].text != DONE_TEXT && read(frames[i].text).Object?
  }

  predicate AllSurvive(frames: seq<Frame>) {
    forall i | 0 <= i < |frames| && frames[i].Payload? :: Survives(frames[i].text)
  }

  lemma Tails(read: Reader, frames: seq<Frame>)
    requires frames != [] && AllObjects(read, frames)
    ensures AllObjects(read, frames[1..])
    ensures (frames[0].Payload? ==> Survives(frames[0].text)) ==> (AllSurvive(frames) <==> AllSurvive(frames[1..]))
  {
    forall i | 1 <= i < |frames| ensures frames[i] == frames[1..][i - 1] {}
  }

  /** The first payload that does not survive is not among the events where it belongs. */
  lemma LostAtOnce(read: Reader, events: seq<seq<Byte>>, text: seq<Byte>, tail: seq<Byte>, end: Client)
    requires !Survives(text) && ClosesWith(Scan(read, Client([], 0, events), FrameBytes(Payload(text)) + tail), end)
    ensures |events| < |end.events| ==> end.events[|events|] != text
  {
    hide Scan, Survives;
    EventsShift(read, START, FrameBytes(Payload(text)) + tail, events);
    assert events + [] == events;
    var s := Scan(read, START, FrameBytes(Payload(text)) + tail);
    if s.Closed? && s.client.events != [] {
      if LF in text { TwoLinesLost(read, text, tail, s.client); } else { OneLineLost(read, text, tail, s.client); }
    }
  }

  lemma {:induction false} LostInScan(read: Reader, events: seq<seq<Byte>>, items: seq<Item>, end: Client)
    requires EndsInDone(items) && AllObjects(read, FramesOf(items)) && !AllSurvive(FramesOf(items))
    requires ClosesWith(Scan(read, Client([], 0, events), Sent(items)), end)
    ensures end.events != events + Texts(FramesOf(items))
    decreases |items|
  {
    hide Scan, Survives, FrameBytes;
    var item, rest := items[0], items[1..];
    assert items == [item] + rest;
    FramesOfFirst(items);
    if item.Beat? {
      ScanBeat(read, events, Sent(rest));
      LostInScan(read, events, rest, end);
    } else {
      assert FramesOf(items)[0] == item.frame;
      Tails(read, FramesOf(items));
      if item.frame.Payload? && !Survives(item.frame.text) {
        LostAtOnce(read, events, item.frame.text, Sent(rest), end);
      } else if item.frame.Payload? {
        ScanItem(read, events, item.frame, Sent(rest));
        LostInScan(read, events + [item.frame.text], rest, end);
        OneMoreText(events, item, rest);
      }
    }
  }

  lemma OneMoreText(events: seq<seq<Byte>>, item: Item, rest: seq<Item>)
    requires !item.Beat? && item.frame.Payload?
    ensures (events + [item.frame.text]) + Texts(FramesOf(rest)) == events + Texts(FramesOf([item] + rest))
  {
    assert ([item] + rest)[1..] == rest;
    assert ([item.frame] + FramesOf(rest))[1..] == FramesOf(rest);
  }

  /** A printed stream of payloads that are each an event of its own, with any heartbeats and under any cutting,
      is read back as exactly its payloads if and only if each of them is one line, does not end in a carriage
      return, and leaves room for its prefix and line feed within the SDK's limit. */
  lemma SurvivesExactlyWhen(read: Reader, items: seq<Item>, chunks: seq<seq<Byte>>)
    requires EndsInDone(items) && AllObjects(read, FramesOf(items)) && Concat(chunks) == Sent(items)
    ensures Read(read, START, [], chunks) == Success(Texts(FramesOf(items))) <==> AllSurvive(FramesOf(items))
  {
    hide Scan, Read, Survives;
    if AllSurvive(FramesOf(items)) {
      RoundTrip(read, items, chunks);
    } else if Read(read, START, [], chunks) == Success(Texts(FramesOf(items))) {
      ReadIsScanned(read, START, [], chunks);
      assert [] + Concat(chunks) == Sent(items) && [] + Texts(FramesOf(items)) == Texts(FramesOf(items));
      LostInScan(read, [], items, Scan(read, START, Sent(items)).client);
    }
  }

  // ---------------------------------------------------------------- accepted, printed, lost

  lemma LongLine(judge: Judge, text: seq<Byte>)
    requires |text| == MAX_SSE_LINE_BYTES - 5 && text[0] != SPACE && text[|text| - 1] != CR
    ensures OnLine(judge, FRESH.core, DATA + text) == Went(Core([text], false, None), [])
  {
    var line := DATA + text;
    assert StripCr(line) == line && StartsWith(line, DATA) && Value(line) == text && [] + [text] == [text];
  }

  lemma LongDrain(judge: Judge, text: seq<Byte>)
    requires |text| == MAX_SSE_LINE_BYTES - 5 && LF !in text && text[0] != SPACE && text[|text| - 1] != CR
    requires judge(text) == Chunk(None) && LF !in DATA + text
    ensures Drain(judge, FRESH.core, (DATA + text) + [LF] + ([] + [LF] + []), []) == Drained(Core([], false, None), [], [Payload(text)])
  {
    LongLine(judge, text);
    NotLongDone(text);
    hide OnLine, Drain;
    assert Join([text]) == text;
    DrainLine(judge, FRESH.core, DATA + text, [] + [LF] + [], []);
    var none: seq<Frame> := [];
    assert none + none == none;
    TakesBlank(judge, Core([text], false, None), text, none);
  }

  lemma NotLongDone(text: seq<Byte>)
    requires |text| == MAX_SSE_LINE_BYTES - 5
    ensures text != DONE_TEXT
  {
  }

  /** A line of the full limit without the optional space is accepted, and its frame is too long for the SDK. */
  lemma LongestLineIsLost(judge: Judge, text: seq<Byte>)
    requires |text| == MAX_SSE_LINE_BYTES - 5 && LF !in text && text[0] != SPACE && text[|text| - 1] != CR
    requires judge(text) == Chunk(None)
    ensures Feed(judge, FRESH, DATA + text + [LF, LF]) == Fed(FRESH, [Payload(text)]) && !Survives(text)
  {
    var line := DATA + text;
    hide Drain, Feed, OnLine;
    assert LF !in DATA;
    assert line + [LF, LF] == line + [LF] + ([] + [LF] + []) && (line + [LF, LF])[|line|] == LF;
    LongDrain(judge, text);
    FeedAtOnce(judge, line + [LF, LF]);
  }

  lemma TwoLinesDrain(judge: Judge, a: seq<Byte>, b: seq<Byte>, first: seq<Byte>, second: seq<Byte>)
    requires Printable(a) && Printable(b) && judge(a + [LF] + b) == Chunk(None)
    requires first == DATA + [SPACE] + a && second == DATA + [SPACE] + b && LF !in first && LF !in second
    ensures Drain(judge, FRESH.core, first + [LF] + (second + [LF] + ([] + [LF] + [])), [])
         == Drained(Core([], false, None), [], [Payload(a + [LF] + b)])
  {
    var one, two := Core([a], false, None), Core([a, b], false, None);
    DataLine(judge, FRESH.core, a);
    DataLine(judge, one, b);
    assert [] + [a] == [a] && [a] + [b] == [a, b];
    hide OnLine, Drain, Printable;
    DrainLine(judge, FRESH.core, first, second + [LF] + ([] + [LF] + []), []);
    DrainLine(judge, one, second, [] + [LF] + [], [] + []);
    NotDone(a, b);
    TakesBlank(judge, two, a + [LF] + b, [] + [] + []);
  }

  /** Two data lines are one event with an inner line feed, which is printed as it is. */
  lemma TwoDataLinesAreLost(judge: Judge, a: seq<Byte>, b: seq<Byte>)
    requires Printable(a) && Printable(b) && judge(a + [LF] + b) == Chunk(None)
    ensures Feed(judge, FRESH, (DATA + [SPACE] + a) + [LF] + (DATA + [SPACE] + b) + [LF, LF]) == Fed(FRESH, [Payload(a + [LF] + b)])
    ensures !Survives(a + [LF] + b)
  {
    hide Drain, Feed, Printable;
    var first, second := DATA + [SPACE] + a, DATA + [SPACE] + b;
    assert (a + [LF] + b)[|a|] == LF;
    NoFeed(a);
    NoFeed(b);
    Assemble(first, second);
    TwoLinesDrain(judge, a, b, first, second);
    FeedAtOnce(judge, first + [LF] + second + [LF, LF]);
  }

  lemma NoFeed(a: seq<Byte>)
    ensures Printable(a) ==> LF !in DATA + [SPACE] + a
  {
  }

  lemma Assemble(first: seq<Byte>, second: seq<Byte>)
    ensures first + [LF] + second + [LF, LF] == first + [LF] + (second + [LF] + ([] + [LF] + []))
    ensures LF in first + [LF] + second + [LF, LF]
  {
    assert (first + [LF] + second + [LF, LF])[|first|] == LF;
  }

  lemma NotDone(a: seq<Byte>, b: seq<Byte>)
    ensures a + [LF] + b != DONE_TEXT
  {
    assert (a + [LF] + b)[|a|] == LF;
  }

  lemma TakesBlank(judge: Judge, c: Core, text: seq<Byte>, sent: seq<Frame>)
    requires c.dataLines != [] && Join(c.dataLines) == text != DONE_TEXT && !c.done && c.usage.None? && judge(text) == Chunk(None) && sent == []
    ensures Drain(judge, c, [] + [LF] + [], sent) == Drained(Core([], false, None), [], [Payload(text)])
  {
    DrainLine(judge, c, [], [], sent);
    assert sent + [Payload(text)] == [Payload(text)];
  }
}
