/** What the canonical form keeps of a request, and what it forgets. */
module CanonicalProof {
  import opened Common
  import opened Sequences
  import opened Texts
  import opened Canonical
  import B = Bytes
  import Utf8

  // ---------------------------------------------------------------- one component there and back

  predicate Safe(c: char) { Unreserved(c as int) || c == '%' }

  lemma {:induction false} QuoteIsSafe(b: seq<B.Byte>)
    ensures forall i | 0 <= i < |Quote(b)| :: Safe(Quote(b)[i])
  {
    if b != [] {
      QuoteIsSafe(b[1..]);
      var head, tail := QuoteByte(b[0]), Quote(b[1..]);
      forall i | 0 <= i < |head + tail| ensures Safe((head + tail)[i]) {
        if i >= |head| { assert (head + tail)[i] == tail[i - |head|]; } else { HexIsSafe(b[0]); }
      }
    }
  }

  lemma HexIsSafe(b: B.Byte)
    ensures forall i | 0 <= i < |QuoteByte(b)| :: Safe(QuoteByte(b)[i])
  {
  }

  lemma QuotedByteFirst(b: B.Byte, tail: string)
    ensures UnquoteToBytes(QuoteByte(b) + tail) == [b] + UnquoteToBytes(tail)
  {
    var s := QuoteByte(b) + tail;
    if Unreserved(b) {
      assert s[1..] == tail && s[0] == b as char;
    } else {
      assert s[3..] == tail && EscapeAt(s, 0);
    }
  }

  lemma {:induction false} UnquoteQuote(b: seq<B.Byte>)
    ensures UnquoteToBytes(Quote(b)) == b
  {
    if b != [] {
      QuotedByteFirst(b[0], Quote(b[1..]));
      UnquoteQuote(b[1..]);
    }
  }

  lemma {:induction false} QuoteIsWellFormed(b: seq<B.Byte>)
    ensures !Malformed(Quote(b))
  {
    if b != [] {
      QuoteIsWellFormed(b[1..]);
      var head, tail := QuoteByte(b[0]), Quote(b[1..]);
      var s := head + tail;
      forall i | 0 <= i < |s| && s[i] == '%' ensures EscapeAt(s, i) {
        if i >= |head| {
          assert tail[i - |head|] == '%';
          assert EscapeAt(tail, i - |head|);
        }
      }
    }
  }

  /** A text that decoding may return is returned for its own encoding. */
  lemma DecodeAfterEncode(s: string, reject: bool)
    requires Clean(s, reject)
    ensures DecodeComponent(EncodeComponent(s), reject) == Ok(s)
  {
    var b := Utf8.Encode(s);
    UnquoteQuote(b);
    QuoteIsWellFormed(b);
    Utf8.DecodeEncode(s);
  }

  lemma EncodedHasNo(s: string, c: char)
    requires !Safe(c)
    ensures c !in EncodeComponent(s)
  {
    QuoteIsSafe(Utf8.Encode(s));
  }

  // ---------------------------------------------------------------- paths

  predicate GoodSegment(s: string) { Clean(s, true) && !Ambiguous(s) }

  /** What the segments of an accepted path are. */
  predicate GoodPath(segments: seq<string>) {
    |segments| >= 2 && segments[0] == "" && forall i | 0 <= i < |segments| :: GoodSegment(segments[i])
  }

  lemma {:induction false} SegmentsAreGood(parts: seq<string>)
    requires DecodeSegments(parts).Ok?
    ensures var r := DecodeSegments(parts).value;
            |r| == |parts| && (forall i | 0 <= i < |r| :: GoodSegment(r[i])) && (parts != [] && parts[0] == "" ==> r[0] == "")
  {
    if parts != [] {
      SegmentsAreGood(parts[1..]);
      EmptyDecodes();
    }
  }

  lemma EmptyDecodes()
    ensures DecodeComponent("", true) == Ok("")
  {
  }

  lemma PathIsGood(raw: string)
    requires PathSegments(raw).Ok?
    ensures GoodPath(PathSegments(raw).value)
  {
    IndexOfIs(raw, '/', 0);
    assert raw[..0] == "";
    SegmentsAreGood(Split(raw, '/'));
  }

  lemma {:induction false} SegmentsRoundTrip(segments: seq<string>)
    requires forall i | 0 <= i < |segments| :: GoodSegment(segments[i])
    ensures DecodeSegments(Map(EncodeComponent, segments)) == Ok(segments)
    decreases |segments|
  {
    if segments != [] {
      DecodeAfterEncode(segments[0], true);
      SegmentsRoundTrip(segments[1..]);
      assert Map(EncodeComponent, segments)[1..] == Map(EncodeComponent, segments[1..]);
      assert [segments[0]] + segments[1..] == segments;
    }
  }

  lemma {:induction false} JoinHas(parts: seq<string>, sep: char, c: char)
    requires c != sep && forall i | 0 <= i < |parts| :: c !in parts[i]
    ensures c !in Join(parts, sep)
    decreases |parts|
  {
    if |parts| > 1 { JoinHas(parts[1..], sep, c); }
  }

  lemma PathOfShape(segments: seq<string>)
    requires GoodPath(segments)
    ensures PathShape(PathOf(segments)) && '\n' !in PathOf(segments)
  {
    var encoded := Map(EncodeComponent, segments);
    forall i | 0 <= i < |encoded| ensures '?' !in encoded[i] && '#' !in encoded[i] && '\n' !in encoded[i] {
      EncodedHasNo(segments[i], '?');
      EncodedHasNo(segments[i], '#');
      EncodedHasNo(segments[i], '\n');
    }
    JoinHas(encoded, '/', '?');
    JoinHas(encoded, '/', '#');
    JoinHas(encoded, '/', '\n');
    assert encoded[0] == "";
  }

  /** The canonical path decodes to the very segments it was built from. */
  lemma PathRoundTrip(segments: seq<string>)
    requires GoodPath(segments)
    ensures PathSegments(PathOf(segments)) == Ok(segments)
  {
    var encoded := Map(EncodeComponent, segments);
    forall i | 0 <= i < |encoded| ensures '/' !in encoded[i] { EncodedHasNo(segments[i], '/'); }
    SplitJoin(encoded, '/');
    PathOfShape(segments);
    SegmentsRoundTrip(segments);
  }

  lemma PathIsIdempotent(raw: string)
    requires CanonicalPath(raw).Ok?
    ensures CanonicalPath(CanonicalPath(raw).value) == CanonicalPath(raw)
  {
    PathIsGood(raw);
    PathRoundTrip(PathSegments(raw).value);
  }

  /** Two paths have one canonical form exactly when they decode to the same segments. */
  lemma PathsAgreeExactlyWhen(a: string, b: string)
    requires PathSegments(a).Ok? && PathSegments(b).Ok?
    ensures CanonicalPath(a) == CanonicalPath(b) <==> PathSegments(a) == PathSegments(b)
  {
    PathIsGood(a);
    PathIsGood(b);
    PathRoundTrip(PathSegments(a).value);
    PathRoundTrip(PathSegments(b).value);
  }

  // ---------------------------------------------------------------- queries

  predicate GoodPair(p: Pair) { Clean(p.key, false) && Clean(p.value, false) }

  predicate GoodPairs(pairs: seq<Pair>) { forall i | 0 <= i < |pairs| :: GoodPair(pairs[i]) }

  lemma {:induction false} PairsAreGood(parts: seq<string>)
    requires DecodePairs(parts).Ok?
    ensures GoodPairs(DecodePairs(parts).value) && |DecodePairs(parts).value| == |parts|
  {
    if parts != [] { PairsAreGood(parts[1..]); }
  }

  lemma QueryIsGood(raw: string)
    requires QueryPairs(raw).Ok?
    ensures GoodPairs(QueryPairs(raw).value)
  {
    if raw != "" { PairsAreGood(Split(raw, '&')); }
  }

  lemma PairRoundTrip(p: Pair)
    requires GoodPair(p)
    ensures DecodePair(PairText(EncodePair(p))) == Ok(p)
  {
    var e := EncodePair(p);
    var s := PairText(e);
    EncodedHasNo(p.key, '=');
    IndexOfIs(s, '=', |e.key|);
    assert s[..|e.key|] == e.key && s[|e.key| + 1..] == e.value;
    DecodeAfterEncode(p.key, false);
    DecodeAfterEncode(p.value, false);
  }

  lemma DecodesFirst(text: string, rest: seq<string>, p: Pair)
    requires DecodePair(text) == Ok(p)
    ensures DecodePairs([text] + rest) == Prepend([p], DecodePairs(rest))
  {
    assert ([text] + rest)[1..] == rest;
  }

  lemma {:induction false} PairsRoundTrip(pairs: seq<Pair>)
    requires GoodPairs(pairs)
    ensures DecodePairs(Map(PairText, Map(EncodePair, pairs))) == Ok(pairs)
    decreases |pairs|
  {
    hide EncodePair, DecodePair, PairText, GoodPair;
    if pairs != [] {
      var rest := Map(PairText, Map(EncodePair, pairs[1..]));
      PairRoundTrip(pairs[0]);
      PairsRoundTrip(pairs[1..]);
      DecodesFirst(PairText(EncodePair(pairs[0])), rest, pairs[0]);
      hide DecodePairs;
      assert Map(PairText, Map(EncodePair, pairs)) == [PairText(EncodePair(pairs[0]))] + rest;
      assert [pairs[0]] + pairs[1..] == pairs;
    }
  }

  /** The pair an encoded pair stands for. */
  function Unpair(e: Pair): Pair {
    var r := DecodePair(PairText(e));
    if r.Ok? then r.value else e
  }

  lemma UnpairAll(pairs: seq<Pair>)
    requires GoodPairs(pairs)
    ensures Map(Unpair, Map(EncodePair, pairs)) == pairs
  {
    forall i | 0 <= i < |pairs| ensures Unpair(EncodePair(pairs[i])) == pairs[i] { PairRoundTrip(pairs[i]); }
  }

  /** The pairs in the order the canonical query puts them. */
  function Arranged(pairs: seq<Pair>): seq<Pair> { Map(Unpair, Sort(Before, Map(EncodePair, pairs))) }

  lemma ArrangedIsGood(pairs: seq<Pair>)
    requires GoodPairs(pairs)
    ensures GoodPairs(Arranged(pairs)) && multiset(Arranged(pairs)) == multiset(pairs)
    ensures Map(EncodePair, Arranged(pairs)) == Sort(Before, Map(EncodePair, pairs))
  {
    var encoded := Map(EncodePair, pairs);
    var sorted := Sort(Before, encoded);
    MapPermutes(Unpair, sorted, encoded);
    UnpairAll(pairs);
    forall i | 0 <= i < |sorted| ensures EncodePair(Unpair(sorted[i])) == sorted[i] && GoodPair(Unpair(sorted[i])) {
      var j := Holds(sorted, encoded, i);
      PairRoundTrip(pairs[j]);
    }
  }

  lemma PairTextShape(p: Pair)
    ensures var text := PairText(EncodePair(p)); '&' !in text && '\n' !in text && text != ""
  {
    EncodedHasNo(p.key, '&');
    EncodedHasNo(p.value, '&');
    EncodedHasNo(p.key, '\n');
    EncodedHasNo(p.value, '\n');
  }

  lemma QueryOfShape(pairs: seq<Pair>)
    requires GoodPairs(pairs)
    ensures '\n' !in QueryOf(pairs) && (pairs != [] ==> QueryOf(pairs) != "")
    ensures pairs != [] ==> Split(QueryOf(pairs), '&') == Map(PairText, Map(EncodePair, Arranged(pairs)))
  {
    ArrangedIsGood(pairs);
    var texts := Map(PairText, Map(EncodePair, Arranged(pairs)));
    hide EncodePair, PairText;
    forall i | 0 <= i < |texts| ensures '&' !in texts[i] && '\n' !in texts[i] && texts[i] != "" {
      PairTextShape(Arranged(pairs)[i]);
    }
    JoinHas(texts, '&', '\n');
    assert |multiset(pairs)| == |multiset(Arranged(pairs))|;
    if pairs != [] { SplitJoin(texts, '&'); }
  }

  /** The canonical query decodes to the very pairs it was built from, rearranged. */
  lemma QueryRoundTrip(pairs: seq<Pair>)
    requires GoodPairs(pairs)
    ensures QueryPairs(QueryOf(pairs)) == Ok(Arranged(pairs)) && multiset(Arranged(pairs)) == multiset(pairs)
  {
    ArrangedIsGood(pairs);
    QueryOfShape(pairs);
    if pairs == [] {
      assert Map(EncodePair, pairs) == [] && Sort(Before, []) == [];
    } else {
      PairsRoundTrip(Arranged(pairs));
    }
  }

  lemma SamePairsSameQuery(a: seq<Pair>, b: seq<Pair>)
    requires multiset(a) == multiset(b)
    ensures QueryOf(a) == QueryOf(b)
  {
    MapPermutes(EncodePair, a, b);
    BeforeOrders();
    SortSorts(Before, Map(EncodePair, a));
    SortSorts(Before, Map(EncodePair, b));
    SortedIsUnique(Before, Sort(Before, Map(EncodePair, a)), Sort(Before, Map(EncodePair, b)));
  }

  lemma QueryIsIdempotent(raw: string)
    requires CanonicalQuery(raw).Ok?
    ensures CanonicalQuery(CanonicalQuery(raw).value) == CanonicalQuery(raw)
  {
    QueryIsGood(raw);
    var pairs := QueryPairs(raw).value;
    QueryRoundTrip(pairs);
    SamePairsSameQuery(Arranged(pairs), pairs);
  }

  /** Two queries have one canonical form exactly when they decode to the same pairs, each as often. */
  lemma QueriesAgreeExactlyWhen(a: string, b: string)
    requires QueryPairs(a).Ok? && QueryPairs(b).Ok?
    ensures CanonicalQuery(a) == CanonicalQuery(b) <==> multiset(QueryPairs(a).value) == multiset(QueryPairs(b).value)
  {
    QueryIsGood(a);
    QueryIsGood(b);
    QueryRoundTrip(QueryPairs(a).value);
    QueryRoundTrip(QueryPairs(b).value);
    if multiset(QueryPairs(a).value) == multiset(QueryPairs(b).value) {
      SamePairsSameQuery(QueryPairs(a).value, QueryPairs(b).value);
    }
  }

  // ---------------------------------------------------------------- the order of the raw pairs

  predicate Decodes(part: string) { DecodePair(part).Ok? }

  function PairOr(part: string): Pair { if Decodes(part) then DecodePair(part).value else Pair("", "") }

  lemma {:induction false} DecodePairsIsMap(parts: seq<string>)
    ensures DecodePairs(parts).Ok? <==> forall i | 0 <= i < |parts| :: Decodes(parts[i])
    ensures DecodePairs(parts).Ok? ==> DecodePairs(parts).value == Map(PairOr, parts)
    decreases |parts|
  {
    if parts != [] {
      DecodePairsIsMap(parts[1..]);
      if DecodePairs(parts).Ok? {
        forall i | 0 <= i < |parts| ensures Decodes(parts[i]) { if 0 < i { assert parts[i] == parts[1..][i - 1]; } }
      }
      assert (forall i | 0 <= i < |parts| :: Decodes(parts[i])) ==> forall i | 0 <= i < |parts[1..]| :: Decodes(parts[1..][i]);
    }
  }

  lemma EmptySplit(raw: string, sep: char)
    ensures raw == "" <==> multiset(Split(raw, sep)) == multiset{""}
  {
    if multiset(Split(raw, sep)) == multiset{""} {
      assert |multiset(Split(raw, sep))| == 1;
      assert Split(raw, sep)[0] in multiset(Split(raw, sep));
    }
  }

  /** Rearranging the raw pairs around the ampersands changes nothing. */
  lemma OrderIsForgotten(a: string, b: string)
    requires multiset(Split(a, '&')) == multiset(Split(b, '&'))
    ensures CanonicalQuery(a).Ok? == CanonicalQuery(b).Ok?
    ensures CanonicalQuery(a).Ok? ==> CanonicalQuery(a) == CanonicalQuery(b)
  {
    EmptySplit(a, '&');
    EmptySplit(b, '&');
    var x, y := Split(a, '&'), Split(b, '&');
    DecodePairsIsMap(x);
    DecodePairsIsMap(y);
    SameDecodes(x, y);
    SameDecodes(y, x);
    if a != "" && CanonicalQuery(a).Ok? {
      MapPermutes(PairOr, x, y);
      SamePairsSameQuery(Map(PairOr, x), Map(PairOr, y));
    }
  }

  lemma SameDecodes(x: seq<string>, y: seq<string>)
    requires multiset(x) == multiset(y)
    ensures (forall i | 0 <= i < |x| :: Decodes(x[i])) ==> (forall i | 0 <= i < |y| :: Decodes(y[i]))
  {
    forall i | 0 <= i < |y| ensures exists j :: 0 <= j < |x| && x[j] == y[i] { var j := Holds(y, x, i); }
  }

  // ---------------------------------------------------------------- whole requests

  predicate OneLine(s: string) { '\n' !in s }

  lemma FieldsAreOneLine(r: Request)
    requires FieldProblem(r).None?
    ensures OneLine(Upper(r.verb)) && OneLine(r.bodyHash) && OneLine(r.keyId) && OneLine(r.timestamp) && OneLine(r.nonce) && OneLine(r.requestId)
  {
  }

  lemma PathIsOneLine(raw: string)
    requires CanonicalPath(raw).Ok?
    ensures OneLine(CanonicalPath(raw).value)
  {
    PathIsGood(raw);
    PathOfShape(PathSegments(raw).value);
  }

  lemma QueryIsOneLine(raw: string)
    requires CanonicalQuery(raw).Ok?
    ensures OneLine(CanonicalQuery(raw).value)
  {
    QueryIsGood(raw);
    QueryOfShape(QueryPairs(raw).value);
  }

  lemma LinesAreOneLine(r: Request)
    requires FieldProblem(r).None? && CanonicalPath(r.path).Ok? && CanonicalQuery(r.query).Ok?
    ensures var lines := RequestLines(r, CanonicalPath(r.path).value, CanonicalQuery(r.query).value);
            forall i | 0 <= i < |lines| :: '\n' !in lines[i]
  {
    hide CanonicalPath, CanonicalQuery, FieldProblem;
    FieldsAreOneLine(r);
    PathIsOneLine(r.path);
    QueryIsOneLine(r.query);
    assert OneLine("ZANGPU-HMAC-SHA256") && OneLine("1");
  }

  lemma PartsAreOk(r: Request)
    requires CanonicalRequest(r).Ok?
    ensures FieldProblem(r).None? && CanonicalPath(r.path).Ok? && CanonicalQuery(r.query).Ok?
    ensures PathSegments(r.path).Ok? && QueryPairs(r.query).Ok?
    ensures CanonicalRequest(r).value == Join(RequestLines(r, CanonicalPath(r.path).value, CanonicalQuery(r.query).value), '\n')
  {
  }

  lemma LinesAgree(x: seq<string>, y: seq<string>)
    requires x != [] && (forall i | 0 <= i < |x| :: '\n' !in x[i])
    requires y != [] && (forall i | 0 <= i < |y| :: '\n' !in y[i])
    ensures Join(x, '\n') == Join(y, '\n') <==> x == y
  {
    SplitJoin(x, '\n');
    SplitJoin(y, '\n');
  }

  /** Two accepted requests have one canonical form exactly when their methods agree up to case, their paths
      decode to the same segments, their queries to the same pairs each as often, and all else is the same. */
  lemma RequestsAgreeExactlyWhen(a: Request, b: Request)
    requires CanonicalRequest(a).Ok? && CanonicalRequest(b).Ok?
    ensures CanonicalRequest(a) == CanonicalRequest(b) <==>
            && Upper(a.verb) == Upper(b.verb)
            && PathSegments(a.path) == PathSegments(b.path)
            && multiset(QueryPairs(a.query).value) == multiset(QueryPairs(b.query).value)
            && a.bodyHash == b.bodyHash && a.keyId == b.keyId && a.timestamp == b.timestamp
            && a.nonce == b.nonce && a.requestId == b.requestId
  {
    hide CanonicalPath, CanonicalQuery, CanonicalRequest, PathSegments, QueryPairs, FieldProblem, Upper, Join;
    PartsAreOk(a);
    PartsAreOk(b);
    var x := RequestLines(a, CanonicalPath(a.path).value, CanonicalQuery(a.query).value);
    var y := RequestLines(b, CanonicalPath(b.path).value, CanonicalQuery(b.query).value);
    LinesAreOneLine(a);
    LinesAreOneLine(b);
    LinesAgree(x, y);
    PathsAgreeExactlyWhen(a.path, b.path);
    QueriesAgreeExactlyWhen(a.query, b.query);
    assert x == y <==> forall i | 0 <= i < 10 :: x[i] == y[i];
  }
}
