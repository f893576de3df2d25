/** The canonical form of a signed request. */
module Canonical {
  import opened Common
  import B = Bytes
  import opened Sequences
  import opened Texts
  import Utf8

  datatype CanonicalizationError =
    | MalformedPercent | NotUtf8 | ControlCharacter | DoubleEncoding | BadPath | AmbiguousSegment
    | BadMethod | BadBodyHash | BadKeyId | BadTimestamp | BadNonce | BadRequestId

  type Canon<T> = Result<T, CanonicalizationError>

  function Prepend<T>(done: seq<T>, r: Canon<seq<T>>): Canon<seq<T>> {
    match r
    case Err(e) => Err(e)
    case Ok(rest) => Ok(done + rest)
  }

  lemma PrependMore<T>(done: seq<T>, x: T, r: Canon<seq<T>>)
    ensures Prepend(done, Prepend([x], r)) == Prepend(done + [x], r)
  {
    if r.Ok? { assert done + ([x] + r.value) == done + [x] + r.value; }
  }

  lemma PrependNone<T>(r: Canon<seq<T>>)
    ensures Prepend([], r) == r
  {
    if r.Ok? { assert [] + r.value == r.value; }
  }

  // ---------------------------------------------------------------- one component

  predicate IsHex(c: char) { '0' <= c <= '9' || 'A' <= c <= 'F' || 'a' <= c <= 'f' }

  function HexValue(c: char): (n: nat)
    requires IsHex(c)
    ensures n < 16
  {
    if c <= '9' then c as int - '0' as int else if c <= 'F' then c as int - 'A' as int + 10 else c as int - 'a' as int + 10
  }

  function HexDigit(n: nat): (c: char)
    requires n < 16
    ensures IsHex(c) && HexValue(c) == n && !('a' <= c <= 'f')
  {
    if n < 10 then (n + 48) as char else (n + 55) as char
  }

  predicate EscapeAt(s: string, i: nat) { i + 2 < |s| && s[i] == '%' && IsHex(s[i + 1]) && IsHex(s[i + 2]) }

  predicate Malformed(s: string) { exists i | 0 <= i < |s| :: s[i] == '%' && !EscapeAt(s, i) }

  predicate HasEscape(s: string) { exists i | 0 <= i < |s| :: EscapeAt(s, i) }

  predicate IsControl(c: char) { c as int < 32 || c as int == 127 }

  predicate HasControl(s: string) { exists i | 0 <= i < |s| :: IsControl(s[i]) }

  function EscapedByte(s: string): B.Byte
    requires EscapeAt(s, 0)
  {
    HexValue(s[1]) * 16 + HexValue(s[2])
  }

  function UnquoteToBytes(s: string): seq<B.Byte> {
    if s == "" then [] else if EscapeAt(s, 0) then [EscapedByte(s)] + UnquoteToBytes(s[3..])
    else Utf8.EncodeChar(s[0]) + UnquoteToBytes(s[1..])
  }

  /** What decoding refuses of a decoded text. */
  predicate Clean(s: string, rejectDoubleEncoding: bool) { !HasControl(s) && !(rejectDoubleEncoding && HasEscape(s)) }

  function DecodeComponent(s: string, rejectDoubleEncoding: bool): (r: Canon<string>)
    ensures r.Ok? ==> Clean(r.value, rejectDoubleEncoding)
  {
    if Malformed(s) then Err(MalformedPercent)
    else
      var decoded := Utf8.Decode(UnquoteToBytes(s));
      if decoded.None? then Err(NotUtf8)
      else if HasControl(decoded.value) then Err(ControlCharacter)
      else if rejectDoubleEncoding && HasEscape(decoded.value) then Err(DoubleEncoding)
      else Ok(decoded.value)
  }

  predicate Unreserved(n: int) {
    48 <= n <= 57 || 65 <= n <= 90 || 97 <= n <= 122 || n == 45 || n == 46 || n == 95 || n == 126
  }

  function QuoteByte(b: B.Byte): string {
    if Unreserved(b) then [b as char] else ['%', HexDigit(b / 16), HexDigit(b % 16)]
  }

  function Quote(b: seq<B.Byte>): string { if b == [] then "" else QuoteByte(b[0]) + Quote(b[1..]) }

  function EncodeComponent(s: string): string { Quote(Utf8.Encode(s)) }

  // ---------------------------------------------------------------- paths

  predicate PathShape(raw: string) { raw != "" && raw[0] == '/' && '?' !in raw && '#' !in raw }

  predicate Ambiguous(segment: string) { segment == "." || segment == ".." || '\\' in segment }

  function DecodeSegment(raw: string): Canon<string> {
    match DecodeComponent(raw, true)
    case Err(e) => Err(e)
    case Ok(segment) => if Ambiguous(segment) then Err(AmbiguousSegment) else Ok(segment)
  }

  function DecodeSegments(parts: seq<string>): Canon<seq<string>> {
    if parts == [] then Ok([])
    else
      match DecodeSegment(parts[0])
      case Err(e) => Err(e)
      case Ok(segment) => Prepend([segment], DecodeSegments(parts[1..]))
  }

  function PathSegments(raw: string): Canon<seq<string>> {
    if !PathShape(raw) then Err(BadPath) else DecodeSegments(Split(raw, '/'))
  }

  function PathOf(segments: seq<string>): string { Join(Map(EncodeComponent, segments), '/') }

  function CanonicalPath(raw: string): Canon<string> {
    match PathSegments(raw)
    case Err(e) => Err(e)
    case Ok(segments) => Ok(PathOf(segments))
  }

  // ---------------------------------------------------------------- queries

  function DecodePair(raw: string): Canon<Pair> {
    var n := IndexOf(raw, '=');
    match DecodeComponent(raw[..n], false)
    case Err(e) => Err(e)
    case Ok(key) =>
      match DecodeComponent(if n == |raw| then "" else raw[n + 1..], false)
      case Err(e) => Err(e)
      case Ok(value) => Ok(Pair(key, value))
  }

  function DecodePairs(parts: seq<string>): Canon<seq<Pair>> {
    if parts == [] then Ok([])
    else
      match DecodePair(parts[0])
      case Err(e) => Err(e)
      case Ok(pair) => Prepend([pair], DecodePairs(parts[1..]))
  }

  function QueryPairs(raw: string): Canon<seq<Pair>> {
    if raw == "" then Ok([]) else DecodePairs(Split(raw, '&'))
  }

  function EncodePair(p: Pair): Pair { Pair(EncodeComponent(p.key), EncodeComponent(p.value)) }

  function PairText(p: Pair): string { p.key + ['='] + p.value }

  function QueryOf(pairs: seq<Pair>): string { Join(Map(PairText, Sort(Before, Map(EncodePair, pairs))), '&') }

  function CanonicalQuery(raw: string): Canon<string> {
    match QueryPairs(raw)
    case Err(e) => Err(e)
    case Ok(pairs) => Ok(QueryOf(pairs))
  }

  // ---------------------------------------------------------------- requests

  datatype Request = Request(
    verb: string, path: string, query: string, bodyHash: string,
    keyId: string, timestamp: string, nonce: string, requestId: string)

  predicate IsDigit(c: char) { '0' <= c <= '9' }
  predicate IsLetter(c: char) { 'A' <= c <= 'Z' || 'a' <= c <= 'z' }
  predicate IsToken(c: char) { IsLetter(c) || IsDigit(c) || c == '_' || c == '-' }

  predicate All(s: string, p: char -> bool) { forall i | 0 <= i < |s| :: p(s[i]) }

  predicate ValidMethod(s: string) { s != "" && All(s, IsLetter) }
  predicate ValidBodyHash(s: string) { |s| == 64 && All(s, c => IsDigit(c) || 'a' <= c <= 'f') }
  predicate ValidKeyId(s: string) { "zpk_" <= s && 8 <= |s| <= 80 && All(s, IsToken) }
  predicate ValidTimestamp(s: string) { 1 <= |s| <= 20 && All(s, IsDigit) && (s[0] == '0' ==> |s| == 1) }
  predicate ValidNonce(s: string) { 16 <= |s| <= 128 && All(s, IsToken) }
  predicate ValidRequestId(s: string) { 16 <= |s| <= 64 && All(s, IsToken) }

  function FieldProblem(r: Request): Option<CanonicalizationError> {
    if !ValidMethod(r.verb) then Some(BadMethod)
    else if !ValidBodyHash(r.bodyHash) then Some(BadBodyHash)
    else if !ValidKeyId(r.keyId) then Some(BadKeyId)
    else if !ValidTimestamp(r.timestamp) then Some(BadTimestamp)
    else if !ValidNonce(r.nonce) then Some(BadNonce)
    else if !ValidRequestId(r.requestId) then Some(BadRequestId)
    else None
  }

  function UpperChar(c: char): char { if 'a' <= c <= 'z' then (c as int - 32) as char else c }

  function Upper(s: string): string { Map(UpperChar, s) }

  function RequestLines(r: Request, path: string, query: string): seq<string> {
    ["ZANGPU-HMAC-SHA256", "1", Upper(r.verb), path, query, r.bodyHash, r.keyId, r.timestamp, r.nonce, r.requestId]
  }

  function CanonicalRequest(r: Request): Canon<string> {
    var problem := FieldProblem(r);
    if problem.Some? then Err(problem.value)
    else
      match CanonicalPath(r.path)
      case Err(e) => Err(e)
      case Ok(path) =>
        match CanonicalQuery(r.query)
        case Err(e) => Err(e)
        case Ok(query) => Ok(Join(RequestLines(r, path, query), '\n'))
  }

  // ---------------------------------------------------------------- the code's loops

  /** The loop over the raw segments. */
  method CanonicalizePath(raw: string) returns (r: Canon<string>)
    ensures r == CanonicalPath(raw)
  {
    if !PathShape(raw) { return Err(BadPath); }
    var parts := Split(raw, '/');
    var encoded: seq<string> := [];
    ghost var decoded: seq<string> := [];
    assert parts[0..] == parts;
    PrependNone(DecodeSegments(parts));
    for i := 0 to |parts|
      invariant encoded == Map(EncodeComponent, decoded)
      invariant DecodeSegments(parts) == Prepend(decoded, DecodeSegments(parts[i..]))
    {
      assert parts[i..][0] == parts[i] && parts[i..][1..] == parts[i + 1..];
      var segment := DecodeComponent(parts[i], true);
      if segment.Err? { return Err(segment.error); }
      if segment.value == "." || segment.value == ".." || '\\' in segment.value { return Err(AmbiguousSegment); }
      MapConcat(EncodeComponent, decoded, [segment.value]);
      PrependMore(decoded, segment.value, DecodeSegments(parts[i + 1..]));
      encoded := encoded + [EncodeComponent(segment.value)];
      decoded := decoded + [segment.value];
    }
    assert decoded + [] == decoded;
    return Ok(Join(encoded, '/'));
  }

  /** One raw pair, cut at its first equals sign. */
  method CanonicalizePair(raw: string) returns (r: Canon<Pair>)
    ensures r == match DecodePair(raw) case Err(e) => Err(e) case Ok(pair) => Ok(EncodePair(pair))
  {
    var n := IndexOf(raw, '=');
    var rawValue := if n == |raw| then "" else raw[n + 1..];
    var key := DecodeComponent(raw[..n], false);
    if key.Err? { return Err(key.error); }
    var value := DecodeComponent(rawValue, false);
    if value.Err? { return Err(value.error); }
    return Ok(Pair(EncodeComponent(key.value), EncodeComponent(value.value)));
  }

  /** The loop over the raw pairs, the sort in place and the join. */
  method CanonicalizeQuery(raw: string) returns (r: Canon<string>)
    ensures r == CanonicalQuery(raw)
  {
    if raw == "" { return Ok(""); }
    var parts := Split(raw, '&');
    var pairs: seq<Pair> := [];
    ghost var decoded: seq<Pair> := [];
    assert parts[0..] == parts;
    PrependNone(DecodePairs(parts));
    for i := 0 to |parts|
      invariant pairs == Map(EncodePair, decoded)
      invariant DecodePairs(parts) == Prepend(decoded, DecodePairs(parts[i..]))
    {
      hide DecodePair, EncodePair;
      assert parts[i..][0] == parts[i] && parts[i..][1..] == parts[i + 1..];
      var pair := CanonicalizePair(parts[i]);
      if pair.Err? { return Err(pair.error); }
      ghost var d := DecodePair(parts[i]).value;
      MapConcat(EncodePair, decoded, [d]);
      PrependMore(decoded, d, DecodePairs(parts[i + 1..]));
      pairs := pairs + [pair.value];
      decoded := decoded + [d];
    }
    assert decoded + [] == decoded;
    pairs := Sort(Before, pairs);
    return Ok(Join(Map(PairText, pairs), '&'));
  }
}
