/** The UTF-8 encoding of Unicode scalar values, sections 3 and 4 of RFC 3629, decoded strictly. */
module Utf8 {
  import opened Common
  import opened Bytes

  function EncodeChar(c: char): (r: seq<Byte>)
    ensures 1 <= |r| <= 4
  {
    var n := c as int;
    if n < 0x80 then [n]
    else if n < 0x800 then [0xC0 + n / 64, 0x80 + n % 64]
    else if n < 0x1_0000 then [0xE0 + n / 4096, 0x80 + n / 64 % 64, 0x80 + n % 64]
    else [0xF0 + n / 262144, 0x80 + n / 4096 % 64, 0x80 + n / 64 % 64, 0x80 + n % 64]
  }

  function Encode(s: string): seq<Byte> {
    if s == "" then [] else EncodeChar(s[0]) + Encode(s[1..])
  }

  predicate Continues(b: Byte) { 0x80 <= b < 0xC0 }

  /** How many bytes a character takes by its first byte; zero when none starts so. */
  function Width(lead: Byte): nat {
    if lead < 0x80 then 1 else if lead < 0xC0 then 0 else if lead < 0xE0 then 2 else if lead < 0xF0 then 3 else if lead < 0xF8 then 4 else 0
  }

  predicate Trails(b: seq<Byte>, width: nat)
    requires width <= |b| && width <= 4
  {
    (width > 1 ==> Continues(b[1])) && (width > 2 ==> Continues(b[2])) && (width > 3 ==> Continues(b[3]))
  }

  /** The number that the first character's bytes spell out. */
  function Spelled(b: seq<Byte>): nat
    requires b != [] && 1 <= Width(b[0]) <= |b|
    requires Trails(b, Width(b[0]))
  {
    match Width(b[0])
    case 1 => b[0]
    case 2 => (b[0] as int - 0xC0) * 64 + (b[1] as int - 0x80)
    case 3 => (b[0] as int - 0xE0) * 4096 + (b[1] as int - 0x80) * 64 + (b[2] as int - 0x80)
    case _ => (b[0] as int - 0xF0) * 262144 + (b[1] as int - 0x80) * 4096 + (b[2] as int - 0x80) * 64 + (b[3] as int - 0x80)
  }

  predicate Scalar(n: nat) { n < 0xD800 || 0xE000 <= n < 0x11_0000 }

  /** Neither overlong nor outside the scalar values. */
  predicate Shortest(n: nat, width: nat) {
    Scalar(n) && (width == 2 ==> n >= 0x80) && (width == 3 ==> n >= 0x800) && (width == 4 ==> n >= 0x1_0000)
  }

  predicate Begins(b: seq<Byte>) {
    && b != [] && 1 <= Width(b[0]) <= |b|
    && Trails(b, Width(b[0]))
    && Shortest(Spelled(b), Width(b[0]))
  }

  function DecodeChar(b: seq<Byte>): char
    requires Begins(b)
  {
    Spelled(b) as char
  }

  function Decode(b: seq<Byte>): Option<string>
    decreases |b|
  {
    if b == [] then Some("")
    else if !Begins(b) then None
    else
      var rest := Decode(b[Width(b[0])..]);
      if rest.None? then None else Some([DecodeChar(b)] + rest.value)
  }

  // ---------------------------------------------------------------- both ways round

  lemma CharBegins(c: char, tail: seq<Byte>)
    ensures var b := EncodeChar(c) + tail;
            && Begins(b) && Width(b[0]) == |EncodeChar(c)| && DecodeChar(b) == c && b[Width(b[0])..] == tail
            && !Continues(EncodeChar(c)[0])
  {
    var n, b := c as int, EncodeChar(c) + tail;
    assert b[..|EncodeChar(c)|] == EncodeChar(c) && b[|EncodeChar(c)|..] == tail;
    assert n == n / 64 * 64 + n % 64;
    assert n / 64 == n / 4096 * 64 + n / 64 % 64;
    assert n / 4096 == n / 262144 * 64 + n / 4096 % 64;
  }

  lemma BeginsWithChar(b: seq<Byte>)
    requires Begins(b)
    ensures b[..Width(b[0])] == EncodeChar(DecodeChar(b))
  {
    match Width(b[0]) {
      case 1 =>
      case 2 => Digits(b[0] as int - 0xC0, b[1] as int - 0x80);
      case 3 => BeginsWithThree(b);
      case _ => BeginsWithFour(b);
    }
  }

  lemma BeginsWithThree(b: seq<Byte>)
    requires Begins(b) && Width(b[0]) == 3
    ensures b[..3] == EncodeChar(DecodeChar(b))
  {
    Digits((b[0] as int - 0xE0) * 64 + (b[1] as int - 0x80), b[2] as int - 0x80);
    Digits(b[0] as int - 0xE0, b[1] as int - 0x80);
  }

  lemma BeginsWithFour(b: seq<Byte>)
    requires Begins(b) && Width(b[0]) == 4
    ensures b[..4] == EncodeChar(DecodeChar(b))
  {
    Digits(((b[0] as int - 0xF0) * 64 + (b[1] as int - 0x80)) * 64 + (b[2] as int - 0x80), b[3] as int - 0x80);
    Digits((b[0] as int - 0xF0) * 64 + (b[1] as int - 0x80), b[2] as int - 0x80);
    Digits(b[0] as int - 0xF0, b[1] as int - 0x80);
  }

  lemma Digits(high: nat, low: nat)
    requires low < 64
    ensures var n := high * 64 + low; n / 64 == high && n % 64 == low && n / 4096 == high / 64 && n / 262144 == high / 4096
  {
  }

  lemma {:induction false} DecodeEncode(s: string)
    ensures Decode(Encode(s)) == Some(s)
    decreases |s|
  {
    if s != "" {
      CharBegins(s[0], Encode(s[1..]));
      DecodeEncode(s[1..]);
      assert [s[0]] + s[1..] == s;
    }
  }

  /** Only one byte sequence decodes to a text. */
  lemma {:induction false} EncodeDecode(b: seq<Byte>)
    requires Decode(b).Some?
    ensures Encode(Decode(b).value) == b
    decreases |b|
  {
    if b != [] {
      var w := Width(b[0]);
      var head, tail := b[..w], b[w..];
      assert b == head + tail;
      BeginsWithChar(b);
      EncodeDecode(tail);
      assert Decode(b).value == [DecodeChar(b)] + Decode(tail).value;
    }
  }
}
