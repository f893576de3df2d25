/** Bytes, and cutting a buffer at its line feeds. */
module Bytes {
  type Byte = b: int | 0 <= b < 256

  const LF: Byte := 10
  const CR: Byte := 13
  const COLON: Byte := 58
  const SPACE: Byte := 32

  /** The position of the first c, or the length. */
  function Find(s: seq<Byte>, c: Byte): (n: nat)
    ensures n <= |s| && (n < |s| ==> s[n] == c) && (forall i | 0 <= i < n :: s[i] != c)
    ensures n == |s| <==> c !in s
  {
    if s == [] then 0 else if s[0] == c then 0 else 1 + Find(s[1..], c)
  }

  lemma {:induction false} FindIs(s: seq<Byte>, c: Byte, n: nat)
    requires n <= |s| && (n < |s| ==> s[n] == c) && forall i | 0 <= i < n :: s[i] != c
    ensures Find(s, c) == n
    decreases n
  {
    if 0 < n { FindIs(s[1..], c, n - 1); }
  }

  /** More bytes behind a line feed do not move it. */
  lemma FindAppend(s: seq<Byte>, t: seq<Byte>, c: Byte)
    ensures c in s ==> Find(s + t, c) == Find(s, c)
    ensures c !in s ==> Find(s + t, c) == |s| + Find(t, c)
  {
    FindIs(s + t, c, if c in s then Find(s, c) else |s| + Find(t, c));
  }

  /** A line without a line feed is cut off whole. */
  lemma FirstLine(line: seq<Byte>, tail: seq<Byte>)
    requires LF !in line
    ensures Find(line + [LF] + tail, LF) == |line|
    ensures (line + [LF] + tail)[..|line|] == line && (line + [LF] + tail)[|line| + 1..] == tail
  {
    FindIs(line + [LF] + tail, LF, |line|);
  }

  function StripCr(line: seq<Byte>): seq<Byte> {
    if line != [] && line[|line| - 1] == CR then line[..|line| - 1] else line
  }

  predicate StartsWith(s: seq<Byte>, prefix: seq<Byte>) { prefix <= s }

  /** The lines joined by line feeds. */
  function Join(lines: seq<seq<Byte>>): seq<Byte> {
    if lines == [] then [] else if |lines| == 1 then lines[0] else lines[0] + [LF] + Join(lines[1..])
  }

  function Concat(chunks: seq<seq<Byte>>): seq<Byte> {
    if chunks == [] then [] else Concat(chunks[..|chunks| - 1]) + chunks[|chunks| - 1]
  }

  lemma {:induction false} ConcatFirst(chunks: seq<seq<Byte>>)
    requires chunks != []
    ensures Concat(chunks) == chunks[0] + Concat(chunks[1..])
    decreases |chunks|
  {
    var n := |chunks| - 1;
    if n > 0 {
      assert chunks[..n][1..] == chunks[1..][..n - 1];
      ConcatFirst(chunks[..n]);
    }
  }
}
