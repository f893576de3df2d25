/** The summary loses nothing: buckets partition the rows, and percentiles are least bounds. */
module SummaryProof {
  import opened Common
  import opened Sequences
  import opened Summary

  // ---------------------------------------------------------------- buckets

  lemma {:induction false} StartsAre(rows: seq<Row>, width: nat)
    requires width > 0
    ensures Distinct(Starts(rows, width))
    ensures forall i | 0 <= i < |rows| :: StartOf(width, rows[i]) in Starts(rows, width)
    ensures forall k | 0 <= k < |Starts(rows, width)| ::
      Starts(rows, width)[k] % width == 0 && In(rows, width, Starts(rows, width)[k]) != []
    decreases |rows|
  {
    if rows != [] {
      var front, last := rows[..|rows| - 1], rows[|rows| - 1];
      StartsAre(front, width);
      StartIsMultiple(width, last);
      forall i | 0 <= i < |rows| ensures StartOf(width, rows[i]) in Starts(rows, width) {
        if i < |front| { assert front[i] == rows[i]; }
      }
    }
  }

  lemma StartIsMultiple(width: nat, row: Row)
    requires width > 0
    ensures StartOf(width, row) % width == 0 && StartOf(width, row) <= row.createdAt < StartOf(width, row) + width
  {
    assert row.createdAt == row.createdAt / width * width + row.createdAt % width;
    MultipleMod(row.createdAt / width, width);
  }

  lemma MultipleMod(k: int, width: nat)
    requires width > 0
    ensures (k * width) % width == 0
  {
    var d := k - (k * width) / width;
    assert d * width == (k * width) % width;
    TimesNotZero(d, width);
  }

  lemma TimesNotZero(d: int, width: nat)
    ensures d != 0 ==> d * width >= width || d * width <= -(width as int)
  {
  }

  /** A bucket holds rows of its own time span only. */
  lemma {:induction false} InHolds(rows: seq<Row>, width: nat, start: int)
    requires width > 0
    ensures forall i | 0 <= i < |In(rows, width, start)| ::
      start <= In(rows, width, start)[i].createdAt < start + width
    decreases |rows|
  {
    hide StartOf;
    if rows != [] {
      InHolds(rows[..|rows| - 1], width, start);
      StartIsMultiple(width, rows[|rows| - 1]);
    }
  }

  lemma OrdersInts()
    ensures Orders(IntAtMost)
  {
  }

  /** The trend's buckets start at rising multiples of the width, none is empty, and each holds its own rows. */
  lemma TrendRises(rows: seq<Row>, width: nat)
    requires width > 0
    ensures var trend := TrendOf(rows, width);
            && (forall i, j | 0 <= i < j < |trend| :: trend[i].start < trend[j].start)
            && forall k | 0 <= k < |trend| :: trend[k].start % width == 0 && In(rows, width, trend[k].start) != []
                 && trend[k].totals == Total(In(rows, width, trend[k].start))
                 && forall i | 0 <= i < |In(rows, width, trend[k].start)| ::
                      trend[k].start <= In(rows, width, trend[k].start)[i].createdAt < trend[k].start + width
  {
    var starts, sorted := Starts(rows, width), Sort(IntAtMost, Starts(rows, width));
    StartsAre(rows, width);
    OrdersInts();
    SortSorts(IntAtMost, starts);
    SortedDistinct(starts, sorted);
    forall k | 0 <= k < |sorted|
      ensures sorted[k] % width == 0 && In(rows, width, sorted[k]) != []
      ensures forall i | 0 <= i < |In(rows, width, sorted[k])| :: sorted[k] <= In(rows, width, sorted[k])[i].createdAt < sorted[k] + width
    {
      var j := Holds(sorted, starts, k);
      InHolds(rows, width, sorted[k]);
    }
  }

  lemma SortedDistinct(s: seq<int>, sorted: seq<int>)
    requires Distinct(s) && multiset(sorted) == multiset(s) && Sorted(IntAtMost, sorted)
    ensures Distinct(sorted) && forall i, j | 0 <= i < j < |sorted| :: sorted[i] < sorted[j]
  {
    EachOnce(s);
    forall i, j | 0 <= i < j < |sorted| ensures sorted[i] < sorted[j] {
      assert IntAtMost(sorted[i], sorted[j]);
      if sorted[i] == sorted[j] { CountsTwice(sorted, i, j); }
    }
  }

  lemma {:induction false} EachOnce(s: seq<int>)
    requires Distinct(s)
    ensures forall x :: multiset(s)[x] <= 1
  {
    if s != [] {
      EachOnce(s[1..]);
      assert s == [s[0]] + s[1..];
      assert s[0] !in s[1..];
    }
  }

  lemma CountsTwice(s: seq<int>, i: nat, j: nat)
    requires i < j < |s| && s[i] == s[j]
    ensures multiset(s)[s[i]] >= 2
  {
    assert s == s[..i] + [s[i]] + s[i + 1..];
    assert s[j] == s[i + 1..][j - i - 1];
    assert s[j] in multiset(s[i + 1..]);
  }

  // ---------------------------------------------------------------- conservation

  function SumIn(rows: seq<Row>, width: nat, starts: seq<int>): Totals
    requires width > 0
  {
    if starts == [] then ZERO
    else Plus(SumIn(rows, width, starts[..|starts| - 1]), Total(In(rows, width, starts[|starts| - 1])))
  }

  lemma Shuffle(a: Totals, b: Totals, c: Totals)
    ensures Plus(Plus(a, c), b) == Plus(Plus(a, b), c) && Plus(a, Plus(b, c)) == Plus(Plus(a, b), c)
  {
  }

  lemma {:induction false} OneMoreRow(front: seq<Row>, row: Row, width: nat, starts: seq<int>)
    requires width > 0 && Distinct(starts)
    ensures SumIn(front + [row], width, starts)
         == if StartOf(width, row) in starts then Plus(SumIn(front, width, starts), One(row)) else SumIn(front, width, starts)
    decreases |starts|
  {
    if starts != [] {
      hide In, Total, StartOf, One, Plus;
      var before, last := starts[..|starts| - 1], starts[|starts| - 1];
      assert starts == before + [last] && last !in before;
      OneMoreRow(front, row, width, before);
      BucketGrows(front, row, width, last);
      Shuffle(SumIn(front, width, before), Total(In(front, width, last)), One(row));
    }
  }

  lemma {:induction false} NoRows(width: nat, starts: seq<int>)
    requires width > 0
    ensures SumIn([], width, starts) == ZERO
    decreases |starts|
  {
    if starts != [] {
      var last := starts[|starts| - 1];
      assert In([], width, last) == [] && Total([]) == ZERO;
      NoRows(width, starts[..|starts| - 1]);
    }
  }

  lemma {:induction false} BucketsPartition(rows: seq<Row>, width: nat, starts: seq<int>)
    requires width > 0 && Distinct(starts) && forall i | 0 <= i < |rows| :: StartOf(width, rows[i]) in starts
    ensures SumIn(rows, width, starts) == Total(rows)
    decreases |rows|
  {
    if rows == [] {
      NoRows(width, starts);
    } else {
      var front, last := rows[..|rows| - 1], rows[|rows| - 1];
      assert rows == front + [last];
      forall i | 0 <= i < |front| ensures StartOf(width, front[i]) in starts { assert front[i] == rows[i]; }
      BucketsPartition(front, width, starts);
      OneMoreRow(front, last, width, starts);
    }
  }

  function TrendTotal(trend: seq<Bucket>): Totals {
    if trend == [] then ZERO else Plus(TrendTotal(trend[..|trend| - 1]), trend[|trend| - 1].totals)
  }

  lemma {:induction false} TrendTotalIsSum(rows: seq<Row>, width: nat, starts: seq<int>)
    requires width > 0
    ensures TrendTotal(Map((start: int) => Bucket(start, Total(In(rows, width, start))), starts)) == SumIn(rows, width, starts)
    decreases |starts|
  {
    if starts != [] {
      var f := (start: int) => Bucket(start, Total(In(rows, width, start)));
      var front := starts[..|starts| - 1];
      TrendTotalIsSum(rows, width, front);
      assert Map(f, starts)[..|starts| - 1] == Map(f, front);
    }
  }

  /** Every count, token and charge is in exactly one bucket: the buckets' totals add up to the rows' totals. */
  lemma TrendConserves(rows: seq<Row>, width: nat)
    requires width > 0
    ensures TrendTotal(TrendOf(rows, width)) == Total(rows) && Total(rows).requests == |rows|
            && Total(rows).successes + Total(rows).failures == |rows|
  {
    var starts, sorted := Starts(rows, width), Sort(IntAtMost, Starts(rows, width));
    StartsAre(rows, width);
    OrdersInts();
    SortSorts(IntAtMost, starts);
    SortedDistinct(starts, sorted);
    forall i | 0 <= i < |rows| ensures StartOf(width, rows[i]) in sorted {
      assert StartOf(width, rows[i]) in multiset(starts);
    }
    BucketsPartition(rows, width, sorted);
    TrendTotalIsSum(rows, width, sorted);
    CountsRows(rows);
  }

  lemma {:induction false} CountsRows(rows: seq<Row>)
    ensures Total(rows).requests == |rows| && Total(rows).successes + Total(rows).failures == |rows|
  {
    if rows != [] { CountsRows(rows[..|rows| - 1]); }
  }

  // ---------------------------------------------------------------- percentiles

  function CountAtMost(s: seq<int>, v: int): nat {
    if s == [] then 0 else CountAtMost(s[1..], v) + if s[0] <= v then 1 else 0
  }

  lemma {:induction false} CountConcat(a: seq<int>, b: seq<int>, v: int)
    ensures CountAtMost(a + b, v) == CountAtMost(a, v) + CountAtMost(b, v)
    decreases |a|
  {
    if a == [] {
      assert a + b == b;
    } else {
      assert (a + b)[1..] == a[1..] + b;
      CountConcat(a[1..], b, v);
    }
  }

  lemma CountWithout(s: seq<int>, j: nat, v: int)
    requires j < |s|
    ensures CountAtMost(s, v) == CountAtMost(Without(s, j), v) + if s[j] <= v then 1 else 0
  {
    assert s == s[..j] + ([s[j]] + s[j + 1..]);
    CountConcat(s[..j], [s[j]] + s[j + 1..], v);
    CountConcat(s[..j], s[j + 1..], v);
    assert ([s[j]] + s[j + 1..])[1..] == s[j + 1..];
  }

  lemma {:induction false} CountPermutes(a: seq<int>, b: seq<int>, v: int)
    requires multiset(a) == multiset(b)
    ensures CountAtMost(a, v) == CountAtMost(b, v)
    decreases |a|
  {
    if a == [] {
      assert |multiset(b)| == 0;
    } else {
      var j := Holds(a, b, 0);
      BothWithout(a, b, 0, j);
      CountPermutes(Without(a, 0), Without(b, j), v);
      CountWithout(a, 0, v);
      CountWithout(b, j, v);
    }
  }

  lemma {:induction false} CountAll(s: seq<int>, v: int)
    ensures CountAtMost(s, v) <= |s|
    ensures (forall i | 0 <= i < |s| :: s[i] <= v) ==> CountAtMost(s, v) == |s|
    ensures (forall i | 0 <= i < |s| :: s[i] > v) ==> CountAtMost(s, v) == 0
  {
    if s != [] { CountAll(s[1..], v); }
  }

  /** In sorted values, the one at k is reached by more than k values. */
  lemma CountUpTo(s: seq<int>, k: nat)
    requires Sorted(IntAtMost, s) && k < |s|
    ensures CountAtMost(s, s[k]) >= k + 1
  {
    hide CountAtMost;
    var upTo := s[..k + 1];
    assert s == upTo + s[k + 1..];
    CountConcat(upTo, s[k + 1..], s[k]);
    forall i | 0 <= i < |upTo| ensures upTo[i] <= s[k] { SortedAt(s, i, k); }
    CountAll(upTo, s[k]);
  }

  /** Anything smaller is reached by at most k values. */
  lemma CountBelow(s: seq<int>, k: nat, w: int)
    requires Sorted(IntAtMost, s) && k < |s| && w < s[k]
    ensures CountAtMost(s, w) <= k
  {
    hide CountAtMost;
    var from := s[k..];
    assert s == s[..k] + from;
    CountConcat(s[..k], from, w);
    CountAll(s[..k], w);
    forall i | 0 <= i < |from| ensures from[i] > w { SortedAt(s, k, k + i); }
    CountAll(from, w);
  }

  lemma SortedAt(s: seq<int>, i: nat, j: nat)
    requires Sorted(IntAtMost, s) && i <= j < |s|
    ensures s[i] <= s[j]
  {
    assert i < j ==> IntAtMost(s[i], s[j]);
  }

  lemma TimesGrows(x: int, y: int, d: nat)
    requires x <= y
    ensures x * d <= y * d
  {
  }

  lemma CeilBounds(a: nat, d: nat)
    requires d > 0
    ensures (CeilDiv(a, d) - 1) * d < a <= CeilDiv(a, d) * d
  {
    var x := a + d - 1;
    assert x == x / d * d + x % d;
    assert (CeilDiv(a, d) - 1) * d == x / d * d - d;
  }

  lemma Ceiling(a: nat, d: nat, m: nat)
    requires d > 0
    ensures m >= CeilDiv(a, d) <==> m * d >= a
  {
    CeilBounds(a, d);
    hide CeilDiv;
    if m >= CeilDiv(a, d) { TimesGrows(CeilDiv(a, d), m, d); } else { TimesGrows(m, CeilDiv(a, d) - 1, d); }
  }

  lemma RankInRange(num: nat, den: nat, n: nat)
    requires 0 < num <= den && n > 0
    ensures 1 <= CeilDiv(num * n, den) <= n
  {
    var a := num * n;
    assert a > 0;
    assert n * den >= a by { assert (den - num) * n >= 0; }
    Ceiling(a, den, n);
    Ceiling(a, den, 0);
  }

  lemma LeastAt(all: seq<int>, s: seq<int>, k: nat, a: nat, den: nat, w: int)
    requires multiset(s) == multiset(all) && Sorted(IntAtMost, s) && k < |s| && den > 0 && k + 1 == CeilDiv(a, den)
    ensures s[k] in all && CountAtMost(all, s[k]) * den >= a
    ensures w < s[k] ==> CountAtMost(all, w) * den < a
  {
    hide CeilDiv, CountAtMost;
    var j := Holds(s, all, k);
    CountUpTo(s, k);
    if w < s[k] { CountBelow(s, k, w); }
    CountPermutes(all, s, s[k]);
    CountPermutes(all, s, w);
    Ceiling(a, den, CountAtMost(all, s[k]));
    Ceiling(a, den, CountAtMost(all, w));
  }

  lemma DurationsSorted(rows: seq<Row>)
    ensures Sorted(IntAtMost, Durations(rows)) && multiset(Durations(rows)) == multiset(Map(Duration, rows))
  {
    OrdersInts();
    SortSorts(IntAtMost, Map(Duration, rows));
  }

  lemma RankAt(rows: seq<Row>, num: nat, den: nat) returns (k: nat)
    requires rows != [] && 0 < num <= den
    ensures k < |Durations(rows)| && k + 1 == CeilDiv(num * |rows|, den)
    ensures NearestRank(Durations(rows), num, den) == Some(Durations(rows)[k])
  {
    RankInRange(num, den, |rows|);
    hide CeilDiv, Durations;
    k := CeilDiv(num * |rows|, den) - 1;
  }

  /** The nearest-rank percentile num/den is a duration of the rows, and the least that at least that share of
      the rows do not exceed. */
  lemma PercentileIsLeast(rows: seq<Row>, num: nat, den: nat, w: int)
    requires rows != [] && 0 < num <= den
    ensures var all := Map(Duration, rows);
            var p := NearestRank(Durations(rows), num, den);
            && p.Some? && p.value in all
            && CountAtMost(all, p.value) * den >= num * |rows|
            && (w < p.value ==> CountAtMost(all, w) * den < num * |rows|)
  {
    hide CeilDiv, NearestRank, Map, CountAtMost, Durations, Sorted;
    var k := RankAt(rows, num, den);
    DurationsSorted(rows);
    LeastAt(Map(Duration, rows), Durations(rows), k, num * |rows|, den, w);
  }

  /** A larger share never has a smaller percentile: the three reported ones are in order. */
  lemma PercentilesRise(rows: seq<Row>, a: nat, b: nat, den: nat)
    requires rows != [] && 0 < a <= b <= den
    ensures NearestRank(Durations(rows), a, den).Some? && NearestRank(Durations(rows), b, den).Some?
    ensures NearestRank(Durations(rows), a, den).value <= NearestRank(Durations(rows), b, den).value
  {
    hide CeilDiv, NearestRank, Map, Durations, Sorted;
    var i := RankAt(rows, a, den);
    var j := RankAt(rows, b, den);
    DurationsSorted(rows);
    RanksRise(a, b, den, |rows|);
    SortedAt(Durations(rows), i, j);
  }

  lemma RanksRise(a: nat, b: nat, den: nat, n: nat)
    requires a <= b && den > 0
    ensures CeilDiv(a * n, den) <= CeilDiv(b * n, den)
  {
    var x, y := a * n, b * n;
    assert x <= y by { assert (b - a) * n >= 0; }
    Ceiling(y, den, CeilDiv(y, den));
    Ceiling(x, den, CeilDiv(y, den));
  }
}
