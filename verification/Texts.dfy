/** Texts: splitting, joining and order. */
module Texts {
  import opened Common
  import opened Sequences

  function IndexOf(s: string, c: char): (n: nat)
    ensures n <= |s| && (n < |s| ==> s[n] == c) && (forall i | 0 <= i < n :: s[i] != c)
  {
    if s == "" || s[0] == c then 0 else 1 + IndexOf(s[1..], c)
  }

  /** The parts between separators; a text without any is one part. */
  function Split(s: string, sep: char): (r: seq<string>)
    ensures r != [] && forall i | 0 <= i < |r| :: sep !in r[i]
    decreases |s|
  {
    var n := IndexOf(s, sep);
    if n == |s| then [s] else [s[..n]] + Split(s[n + 1..], sep)
  }

  function Join(parts: seq<string>, sep: char): string {
    if parts == [] then "" else if |parts| == 1 then parts[0] else parts[0] + [sep] + Join(parts[1..], sep)
  }

  lemma {:induction false} IndexOfIs(s: string, c: char, n: nat)
    requires n <= |s| && (n < |s| ==> s[n] == c) && forall i | 0 <= i < n :: s[i] != c
    ensures IndexOf(s, c) == n
    decreases n
  {
    if 0 < n { IndexOfIs(s[1..], c, n - 1); }
  }

  lemma SplitFirst(head: string, tail: string, sep: char)
    requires sep !in head
    ensures Split(head + [sep] + tail, sep) == [head] + Split(tail, sep)
  {
    var s := head + [sep] + tail;
    IndexOfIs(s, sep, |head|);
    assert s[..|head|] == head && s[|head| + 1..] == tail;
  }

  /** Joining is unambiguous: the parts can be read off the joined text. */
  lemma {:induction false} SplitJoin(parts: seq<string>, sep: char)
    requires parts != [] && forall i | 0 <= i < |parts| :: sep !in parts[i]
    ensures Split(Join(parts, sep), sep) == parts
    decreases |parts|
  {
    if |parts| == 1 {
      IndexOfIs(parts[0], sep, |parts[0]|);
    } else {
      SplitFirst(parts[0], Join(parts[1..], sep), sep);
      SplitJoin(parts[1..], sep);
    }
  }

  // ---------------------------------------------------------------- order

  predicate AtMost(a: string, b: string) {
    if a == "" then true else if b == "" then false else if a[0] != b[0] then a[0] < b[0] else AtMost(a[1..], b[1..])
  }

  lemma {:induction false} AtMostTotal(a: string, b: string)
    ensures AtMost(a, b) || AtMost(b, a)
    ensures AtMost(a, b) && AtMost(b, a) ==> a == b
    decreases |a|
  {
    if a != "" && b != "" && a[0] == b[0] {
      AtMostTotal(a[1..], b[1..]);
      assert a == [a[0]] + a[1..] && b == [b[0]] + b[1..];
    }
  }

  lemma {:induction false} AtMostTransitive(a: string, b: string, c: string)
    requires AtMost(a, b) && AtMost(b, c)
    ensures AtMost(a, c)
    decreases |a|
  {
    if a != "" && b != "" && c != "" && a[0] == b[0] == c[0] { AtMostTransitive(a[1..], b[1..], c[1..]); }
  }

  datatype Pair = Pair(key: string, value: string)

  /** Python's order on tuples of two texts. */
  predicate Before(p: Pair, q: Pair) {
    if p.key != q.key then AtMost(p.key, q.key) else AtMost(p.value, q.value)
  }

  lemma BeforeTotal(p: Pair, q: Pair)
    ensures Before(p, q) || Before(q, p)
    ensures Before(p, q) && Before(q, p) ==> p == q
  {
    AtMostTotal(p.key, q.key);
    AtMostTotal(p.value, q.value);
  }

  lemma BeforeTransitive(p: Pair, q: Pair, r: Pair)
    requires Before(p, q) && Before(q, r)
    ensures Before(p, r)
  {
    if p.key == q.key == r.key {
      AtMostTransitive(p.value, q.value, r.value);
    } else {
      AtMostTotal(p.key, p.key);
      AtMostTotal(q.key, r.key);
      AtMostTotal(p.key, q.key);
      AtMostTransitive(p.key, q.key, r.key);
    }
  }

  lemma BeforeOrders()
    ensures Orders(Before)
  {
    forall p, q ensures (Before(p, q) || Before(q, p)) && (Before(p, q) && Before(q, p) ==> p == q) { BeforeTotal(p, q); }
    forall p, q, r | Before(p, q) && Before(q, r) ensures Before(p, r) { BeforeTransitive(p, q, r); }
  }
}
