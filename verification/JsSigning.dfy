/** The JavaScript signer, which decodes, encodes and sorts in its own way. */
module JsSigning {
  import opened Common
  import opened Sequences
  import opened Texts
  import opened Canonical
  import opened CanonicalProof
  import B = Bytes
  import Utf8

  // ---------------------------------------------------------------- decodeURIComponent

  /** The bytes of the first n escapes. */
  function Octets(s: string, n: nat): seq<B.Byte>
    requires EscapesAt(s, n)
  {
    if n == 0 then [] else [EscapedByte(s)] + Octets(s[3..], n - 1)
  }

  predicate EscapesAt(s: string, n: nat) { n == 0 || (EscapeAt(s, 0) && EscapesAt(s[3..], n - 1)) }

  lemma {:induction false} EscapesFit(s: string, n: nat)
    requires EscapesAt(s, n)
    ensures 3 * n <= |s| && |Octets(s, n)| == n && (n > 0 ==> Octets(s, n)[0] == EscapedByte(s))
  {
    if n > 0 { EscapesFit(s[3..], n - 1); }
  }

  /** The Decode operation of ECMAScript, section 19.2.6, with no reserved characters: every escape that is not a
      single byte must be followed by as many as its lead byte asks for, together one valid character. */
  function DecodeUriComponent(s: string): Option<string>
    decreases |s|
  {
    if s == "" then Some("")
    else if s[0] != '%' then
      var rest := DecodeUriComponent(s[1..]);
      if rest.None? then None else Some([s[0]] + rest.value)
    else if !EscapeAt(s, 0) then None
    else
      var n := Utf8.Width(EscapedByte(s));
      if n == 0 || !EscapesAt(s, n) then None
      else
        EscapesFit(s, n);
        if !Utf8.Begins(Octets(s, n)) then None
        else
          var rest := DecodeUriComponent(s[3 * n..]);
          if rest.None? then None else Some([Utf8.DecodeChar(Octets(s, n))] + rest.value)
  }

  // ---------------------------------------------------------------- encodeURIComponent and its correction

  predicate UriUnreserved(c: char) {
    IsLetter(c) || IsDigit(c) || c in "-_.!~*'()"
  }

  function EncodeUriComponent(s: string): string {
    if s == "" then "" else (if UriUnreserved(s[0]) then [s[0]] else Escapes(Utf8.EncodeChar(s[0]))) + EncodeUriComponent(s[1..])
  }

  function Escapes(b: seq<B.Byte>): string {
    if b == [] then "" else ['%', HexDigit(b[0] / 16), HexDigit(b[0] % 16)] + Escapes(b[1..])
  }

  predicate Corrected(c: char) { c in "!'()*" }

  function Correct(s: string): string {
    if s == "" then ""
    else (if Corrected(s[0]) then ['%', HexDigit(s[0] as int / 16), HexDigit(s[0] as int % 16)] else [s[0]]) + Correct(s[1..])
  }

  function JsEncodeComponent(s: string): string { Correct(EncodeUriComponent(s)) }

  function JsDecodeComponent(s: string, rejectDoubleEncoding: bool): Canon<string> {
    if Malformed(s) then Err(MalformedPercent)
    else
      var decoded := DecodeUriComponent(s);
      if decoded.None? then Err(NotUtf8)
      else if HasControl(decoded.value) then Err(ControlCharacter)
      else if rejectDoubleEncoding && HasEscape(decoded.value) then Err(DoubleEncoding)
      else Ok(decoded.value)
  }

  // ---------------------------------------------------------------- both decode alike

  lemma UnquoteFirst(s: string)
    requires s != ""
    ensures UnquoteToBytes(s) != []
    ensures !EscapeAt(s, 0) ==> !Utf8.Continues(UnquoteToBytes(s)[0])
    ensures EscapeAt(s, 0) ==> UnquoteToBytes(s)[0] == EscapedByte(s) && UnquoteToBytes(s)[1..] == UnquoteToBytes(s[3..])
  {
    if !EscapeAt(s, 0) { Utf8.CharBegins(s[0], []); }
  }

  /** Continuation bytes come only from escapes. */
  lemma {:induction false} TrailsAreEscapes(s: string, n: nat)
    requires n <= |UnquoteToBytes(s)| && forall i | 0 <= i < n :: Utf8.Continues(UnquoteToBytes(s)[i])
    ensures EscapesAt(s, n) && Octets(s, n) == UnquoteToBytes(s)[..n]
    decreases n
  {
    if n > 0 {
      var b := UnquoteToBytes(s);
      UnquoteFirst(s);
      assert forall i | 0 <= i < n - 1 :: b[1..][i] == b[i + 1];
      TrailsAreEscapes(s[3..], n - 1);
      assert b[..n] == [b[0]] + b[1..][..n - 1];
    }
  }

  lemma {:induction false} UnquoteEscapes(s: string, n: nat)
    requires EscapesAt(s, n)
    ensures 3 * n <= |s| && UnquoteToBytes(s) == Octets(s, n) + UnquoteToBytes(s[3 * n..])
    decreases n
  {
    EscapesFit(s, n);
    if n > 0 {
      UnquoteEscapes(s[3..], n - 1);
      assert s[3..][3 * (n - 1)..] == s[3 * n..];
    } else {
      assert s[0..] == s;
    }
  }

  /** Whether bytes begin with a character depends on its own bytes only. */
  lemma BeginsLocally(b: seq<B.Byte>, tail: seq<B.Byte>)
    requires b != [] && Utf8.Width(b[0]) == |b|
    ensures Utf8.Begins(b + tail) <==> Utf8.Begins(b)
    ensures Utf8.Begins(b) ==> Utf8.DecodeChar(b + tail) == Utf8.DecodeChar(b)
  {
  }

  /** Where the bytes after an escaped lead byte begin with a character, its bytes are escapes. */
  lemma BeginsWithEscapes(s: string)
    requires s != "" && EscapeAt(s, 0) && Utf8.Begins(UnquoteToBytes(s))
    ensures EscapesAt(s, Utf8.Width(EscapedByte(s)))
  {
    var b := UnquoteToBytes(s);
    UnquoteFirst(s);
    var n := Utf8.Width(b[0]);
    assert forall i | 0 <= i < n - 1 :: b[1..][i] == b[i + 1] && Utf8.Continues(b[i + 1]);
    TrailsAreEscapes(s[3..], n - 1);
  }

  lemma Shorter(s: string, i: nat)
    requires i <= |s| && !Malformed(s)
    ensures !Malformed(s[i..])
  {
    var t := s[i..];
    forall k | 0 <= k < |t| && t[k] == '%' ensures EscapeAt(t, k) { assert s[i + k] == '%' && EscapeAt(s, i + k); }
  }

  /** Decoding character by character and decoding all bytes at once accept the same texts. */
  lemma {:induction false} DecodersAgree(s: string)
    requires !Malformed(s)
    ensures DecodeUriComponent(s) == Utf8.Decode(UnquoteToBytes(s))
    decreases |s|
  {
    if s == "" {
    } else if s[0] != '%' {
      Shorter(s, 1);
      Utf8.CharBegins(s[0], UnquoteToBytes(s[1..]));
      DecodersAgree(s[1..]);
    } else {
      assert EscapeAt(s, 0);
      UnquoteFirst(s);
      var n := Utf8.Width(EscapedByte(s));
      if n > 0 && EscapesAt(s, n) {
        EscapeAgrees(s, n);
        Shorter(s, 3 * n);
        DecodersAgree(s[3 * n..]);
      } else if Utf8.Begins(UnquoteToBytes(s)) {
        BeginsWithEscapes(s);
      }
    }
  }

  lemma EscapeAgrees(s: string, n: nat)
    requires n > 0 && EscapesAt(s, n) && n == Utf8.Width(EscapedByte(s))
    ensures 3 * n <= |s| && |Octets(s, n)| == n
    ensures var b := UnquoteToBytes(s);
            && b != [] && n <= |b| && Utf8.Width(b[0]) == n && b[n..] == UnquoteToBytes(s[3 * n..])
            && (Utf8.Begins(b) <==> Utf8.Begins(Octets(s, n)))
            && (Utf8.Begins(b) ==> Utf8.DecodeChar(b) == Utf8.DecodeChar(Octets(s, n)))
  {
    EscapesFit(s, n);
    UnquoteEscapes(s, n);
    BeginsLocally(Octets(s, n), UnquoteToBytes(s[3 * n..]));
  }

  lemma JsDecodesAlike(s: string, reject: bool)
    ensures JsDecodeComponent(s, reject) == DecodeComponent(s, reject)
  {
    if !Malformed(s) { DecodersAgree(s); }
  }

  // ---------------------------------------------------------------- both encode alike

  lemma {:induction false} CorrectConcat(a: string, b: string)
    ensures Correct(a + b) == Correct(a) + Correct(b)
    decreases |a|
  {
    if a == "" {
      assert a + b == b;
    } else {
      assert (a + b)[1..] == a[1..] + b;
      CorrectConcat(a[1..], b);
    }
  }

  lemma {:induction false} QuoteConcat(a: seq<B.Byte>, b: seq<B.Byte>)
    ensures Quote(a + b) == Quote(a) + Quote(b)
    decreases |a|
  {
    if a == [] {
      assert a + b == b;
    } else {
      assert (a + b)[1..] == a[1..] + b;
      QuoteConcat(a[1..], b);
    }
  }

  /** Escapes of bytes that are never left alone need no correction. */
  lemma {:induction false} EscapesAreQuotes(b: seq<B.Byte>)
    requires forall i | 0 <= i < |b| :: !Unreserved(b[i])
    ensures Correct(Escapes(b)) == Quote(b)
    decreases |b|
  {
    if b != [] {
      var head := ['%', HexDigit(b[0] / 16), HexDigit(b[0] % 16)];
      CorrectConcat(head, Escapes(b[1..]));
      EscapesAreQuotes(b[1..]);
      HexStays(head);
    }
  }

  lemma HexStays(head: string)
    requires |head| == 3 && head[0] == '%' && IsHex(head[1]) && IsHex(head[2])
    ensures Correct(head) == head
  {
    assert head[1..][1..] == head[2..] && head[2..][1..] == "";
    assert Correct(head[2..]) == [head[2]];
    assert Correct(head[1..]) == [head[1]] + [head[2]];
  }

  lemma CharEncodesAlike(c: char)
    ensures Correct(if UriUnreserved(c) then [c] else Escapes(Utf8.EncodeChar(c))) == Quote(Utf8.EncodeChar(c))
  {
    var b := Utf8.EncodeChar(c);
    if UriUnreserved(c) {
      assert b == [c as int];
      assert Quote(b[1..]) == "" && [c][1..] == "";
      assert Unreserved(c as int) <==> !Corrected(c);
    } else {
      assert |b| > 1 ==> forall i | 0 <= i < |b| :: b[i] >= 0x80;
      EscapesAreQuotes(b);
    }
  }

  /** The corrected encodeURIComponent leaves alone exactly the unreserved characters of RFC 3986, section 2.3. */
  lemma {:induction false} JsEncodesAlike(s: string)
    ensures JsEncodeComponent(s) == EncodeComponent(s)
    decreases |s|
  {
    if s != "" {
      CharEncodesAlike(s[0]);
      CorrectConcat(if UriUnreserved(s[0]) then [s[0]] else Escapes(Utf8.EncodeChar(s[0])), EncodeUriComponent(s[1..]));
      QuoteConcat(Utf8.EncodeChar(s[0]), Utf8.Encode(s[1..]));
      JsEncodesAlike(s[1..]);
    }
  }

  // ---------------------------------------------------------------- paths, queries and requests

  function JsSegments(parts: seq<string>): Canon<seq<string>> {
    if parts == [] then Ok([])
    else
      match JsDecodeComponent(parts[0], true)
      case Err(e) => Err(e)
      case Ok(segment) =>
        if Ambiguous(segment) then Err(AmbiguousSegment) else Prepend([JsEncodeComponent(segment)], JsSegments(parts[1..]))
  }

  function JsCanonicalPath(raw: string): Canon<string> {
    if !PathShape(raw) then Err(BadPath)
    else
      match JsSegments(Split(raw, '/'))
      case Err(e) => Err(e)
      case Ok(segments) => Ok(Join(segments, '/'))
  }

  function JsPair(raw: string): Canon<Pair> {
    var n := IndexOf(raw, '=');
    match JsDecodeComponent(raw[..n], false)
    case Err(e) => Err(e)
    case Ok(key) =>
      match JsDecodeComponent(if n == |raw| then "" else raw[n + 1..], false)
      case Err(e) => Err(e)
      case Ok(value) => Ok(Pair(JsEncodeComponent(key), JsEncodeComponent(value)))
  }

  function JsPairs(parts: seq<string>): Canon<seq<Pair>> {
    if parts == [] then Ok([])
    else
      match JsPair(parts[0])
      case Err(e) => Err(e)
      case Ok(pair) => Prepend([pair], JsPairs(parts[1..]))
  }

  predicate Less(a: string, b: string) { a != b && AtMost(a, b) }

  /** The signer's comparator. */
  function Compare(p: Pair, q: Pair): int {
    if p.key != q.key then (if Less(p.key, q.key) then -1 else 1)
    else if p.value == q.value then 0
    else if Less(p.value, q.value) then -1 else 1
  }

  /** What sorting by a comparator promises: a rearrangement with nothing greater before something less. */
  predicate SortedBy(s: seq<Pair>, r: seq<Pair>) {
    multiset(r) == multiset(s) && forall i, j | 0 <= i < j < |r| :: Compare(r[i], r[j]) <= 0
  }

  /** The engine's sort, which the signer calls with its comparator. */
  type Sorter = seq<Pair> -> seq<Pair>

  ghost predicate Sorts(sort: Sorter) { forall s :: SortedBy(s, sort(s)) }

  function JsCanonicalQuery(sort: Sorter, raw: string): Canon<string> {
    if raw == "" then Ok("")
    else
      match JsPairs(Split(raw, '&'))
      case Err(e) => Err(e)
      case Ok(pairs) => Ok(Join(Map(PairText, sort(pairs)), '&'))
  }

  function JsCanonicalRequest(sort: Sorter, r: Request): Canon<string> {
    var problem := FieldProblem(r);
    if problem.Some? then Err(problem.value)
    else
      match JsCanonicalPath(r.path)
      case Err(e) => Err(e)
      case Ok(path) =>
        match JsCanonicalQuery(sort, r.query)
        case Err(e) => Err(e)
        case Ok(query) => Ok(Join(RequestLines(r, path, query), '\n'))
  }

  lemma {:induction false} SegmentsAgree(parts: seq<string>)
    ensures JsSegments(parts) == match DecodeSegments(parts) case Err(e) => Err(e) case Ok(s) => Ok(Map(EncodeComponent, s))
    decreases |parts|
  {
    if parts != [] {
      JsDecodesAlike(parts[0], true);
      SegmentsAgree(parts[1..]);
      var segment := DecodeComponent(parts[0], true);
      if segment.Ok? {
        JsEncodesAlike(segment.value);
        if DecodeSegments(parts[1..]).Ok? { MapConcat(EncodeComponent, [segment.value], DecodeSegments(parts[1..]).value); }
      }
    }
  }

  lemma PairAgrees(raw: string)
    ensures JsPair(raw) == match DecodePair(raw) case Err(e) => Err(e) case Ok(pair) => Ok(EncodePair(pair))
  {
    var n := IndexOf(raw, '=');
    var rawValue := if n == |raw| then "" else raw[n + 1..];
    JsDecodesAlike(raw[..n], false);
    JsDecodesAlike(rawValue, false);
    if DecodeComponent(raw[..n], false).Ok? { JsEncodesAlike(DecodeComponent(raw[..n], false).value); }
    if DecodeComponent(rawValue, false).Ok? { JsEncodesAlike(DecodeComponent(rawValue, false).value); }
  }

  lemma {:induction false} PairsAgree(parts: seq<string>)
    ensures JsPairs(parts) == match DecodePairs(parts) case Err(e) => Err(e) case Ok(s) => Ok(Map(EncodePair, s))
    decreases |parts|
  {
    hide JsPair, DecodePair, EncodePair;
    if parts != [] {
      PairAgrees(parts[0]);
      PairsAgree(parts[1..]);
      if DecodePair(parts[0]).Ok? && DecodePairs(parts[1..]).Ok? {
        MapConcat(EncodePair, [DecodePair(parts[0]).value], DecodePairs(parts[1..]).value);
      }
    }
  }

  lemma ComparesAlike(p: Pair, q: Pair)
    ensures Compare(p, q) <= 0 <==> Before(p, q)
  {
    AtMostTotal(p.value, q.value);
  }

  /** Whatever algorithm the engine sorts with, it can only arrive at Python's order. */
  lemma AnySortAgrees(s: seq<Pair>, r: seq<Pair>)
    requires SortedBy(s, r)
    ensures r == Sort(Before, s)
  {
    forall i, j | 0 <= i < j < |r| ensures Before(r[i], r[j]) { ComparesAlike(r[i], r[j]); }
    BeforeOrders();
    SortSorts(Before, s);
    SortedIsUnique(Before, r, Sort(Before, s));
  }

  lemma PathAgrees(raw: string)
    ensures JsCanonicalPath(raw) == CanonicalPath(raw)
  {
    SegmentsAgree(Split(raw, '/'));
  }

  lemma QueryAgrees(sort: Sorter, raw: string)
    requires Sorts(sort)
    ensures JsCanonicalQuery(sort, raw) == CanonicalQuery(raw)
  {
    PairsAgree(Split(raw, '&'));
    if raw == "" {
      assert Map(EncodePair, []) == [] && Sort(Before, []) == [];
    } else if DecodePairs(Split(raw, '&')).Ok? {
      var pairs := Map(EncodePair, DecodePairs(Split(raw, '&')).value);
      assert SortedBy(pairs, sort(pairs));
      AnySortAgrees(pairs, sort(pairs));
    }
  }

  /** The signer and the gateway compute the same canonical request, or refuse the same input for the same reason. */
  lemma SignerAgrees(sort: Sorter, r: Request)
    requires Sorts(sort)
    ensures JsCanonicalRequest(sort, r) == CanonicalRequest(r)
  {
    PathAgrees(r.path);
    QueryAgrees(sort, r.query);
  }
}
