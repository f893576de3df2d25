/** The event summary: trend buckets, totals and percentiles. */
module Summary {
  import opened Common
  import opened Sequences

  datatype Row = Row(createdAt: int, success: bool, durationMs: nat, tokens: nat, charged: nat, overrun: bool)

  datatype Totals = Totals(requests: nat, successes: nat, failures: nat, tokens: nat, charged: nat)

  const ZERO := Totals(0, 0, 0, 0, 0)

  datatype Bucket = Bucket(start: int, totals: Totals)

  datatype EventSummary = EventSummary(
    totals: Totals, averageMs: Option<real>, p50: Option<nat>, p95: Option<nat>, p99: Option<nat>,
    overruns: nat, bucketSeconds: nat, trend: seq<Bucket>)

  datatype SummaryError = BadBucket | TooBroad

  function Plus(a: Totals, b: Totals): Totals {
    Totals(a.requests + b.requests, a.successes + b.successes, a.failures + b.failures, a.tokens + b.tokens, a.charged + b.charged)
  }

  function One(row: Row): Totals {
    Totals(1, if row.success then 1 else 0, if row.success then 0 else 1, row.tokens, row.charged)
  }

  function Total(rows: seq<Row>): Totals {
    if rows == [] then ZERO else Plus(Total(rows[..|rows| - 1]), One(rows[|rows| - 1]))
  }

  function DurationSum(rows: seq<Row>): nat {
    if rows == [] then 0 else DurationSum(rows[..|rows| - 1]) + rows[|rows| - 1].durationMs
  }

  function Overruns(rows: seq<Row>): nat {
    if rows == [] then 0 else Overruns(rows[..|rows| - 1]) + if rows[|rows| - 1].overrun then 1 else 0
  }

  function StartOf(width: nat, row: Row): int
    requires width > 0
  {
    row.createdAt - row.createdAt % width
  }

  /** The rows of one bucket. */
  function In(rows: seq<Row>, width: nat, start: int): seq<Row>
    requires width > 0
  {
    if rows == [] then []
    else
      var last := rows[|rows| - 1];
      In(rows[..|rows| - 1], width, start) + if StartOf(width, last) == start then [last] else []
  }

  /** The bucket starts, as first met. */
  function Starts(rows: seq<Row>, width: nat): seq<int>
    requires width > 0
  {
    if rows == [] then []
    else
      var before, start := Starts(rows[..|rows| - 1], width), StartOf(width, rows[|rows| - 1]);
      if start in before then before else before + [start]
  }

  predicate IntAtMost(a: int, b: int) { a <= b }

  function TrendOf(rows: seq<Row>, width: nat): seq<Bucket>
    requires width > 0
  {
    Map((start: int) => Bucket(start, Total(In(rows, width, start))), Sort(IntAtMost, Starts(rows, width)))
  }

  function CeilDiv(a: nat, d: nat): nat
    requires d > 0
  {
    (a + d - 1) / d
  }

  /** The nearest-rank percentile num/den of sorted values. */
  function NearestRank(values: seq<int>, num: nat, den: nat): Option<nat>
    requires den > 0 && forall i | 0 <= i < |values| :: values[i] >= 0
  {
    if values == [] then None else Some(values[Min(Max(CeilDiv(num * |values|, den) - 1, 0), |values| - 1)])
  }

  function Duration(row: Row): int { row.durationMs }

  function Durations(rows: seq<Row>): (r: seq<int>)
    ensures |r| == |rows| && forall i | 0 <= i < |r| :: r[i] >= 0
  {
    Permuted(Map(Duration, rows));
    Sort(IntAtMost, Map(Duration, rows))
  }

  lemma Permuted(s: seq<int>)
    requires forall i | 0 <= i < |s| :: s[i] >= 0
    ensures var r := Sort(IntAtMost, s); |r| == |s| && forall i | 0 <= i < |r| :: r[i] >= 0
  {
    var r := Sort(IntAtMost, s);
    assert |multiset(r)| == |multiset(s)|;
    forall i | 0 <= i < |r| ensures r[i] >= 0 { var j := Holds(r, s, i); }
  }

  /** What a row adds to its bucket. */
  method AddRow(b: Totals, row: Row) returns (r: Totals)
    ensures r == Plus(b, One(row))
  {
    r := b.(requests := b.requests + 1);
    r := if row.success then r.(successes := r.successes + 1) else r.(failures := r.failures + 1);
    r := r.(tokens := r.tokens + row.tokens);
    r := r.(charged := r.charged + row.charged);
  }

  /** The dictionary's value for a key, zero when it has none. */
  function ValueAt(values: map<int, Totals>, start: int): Totals { if start in values then values[start] else ZERO }

  /** The loop that gathers the rows into buckets, kept in the order first met. */
  method Gather(rows: seq<Row>, width: nat) returns (order: seq<int>, values: map<int, Totals>)
    requires width > 0
    ensures order == Starts(rows, width)
    ensures forall k | 0 <= k < |order| :: order[k] in values && values[order[k]] == Total(In(rows, width, order[k]))
  {
    assert Total([]) == ZERO;
    hide Total, Plus, One;
    order, values := [], map[];
    for i := 0 to |rows|
      invariant order == Starts(rows[..i], width)
      invariant forall start :: start in values <==> start in order
      invariant forall start :: ValueAt(values, start) == Total(In(rows[..i], width, start))
    {
      var row := rows[i];
      assert rows[..i + 1] == rows[..i] + [row] && rows[..i + 1][..i] == rows[..i];
      var start := row.createdAt - row.createdAt % width;
      ghost var was := values;
      if start !in values {
        order := order + [start];
        values := values[start := ZERO];
      }
      var grown := AddRow(values[start], row);
      values := values[start := grown];
      forall other ensures ValueAt(values, other) == Total(In(rows[..i + 1], width, other)) {
        BucketGrows(rows[..i], row, width, other);
        assert ValueAt(was, other) == Total(In(rows[..i], width, other));
      }
    }
    assert rows[..|rows|] == rows;
    forall k | 0 <= k < |order| ensures order[k] in values && values[order[k]] == Total(In(rows, width, order[k])) {
      assert order[k] in order;
      assert ValueAt(values, order[k]) == Total(In(rows, width, order[k]));
    }
  }

  /** The buckets in order of their starts. */
  method Trend(rows: seq<Row>, width: nat) returns (trend: seq<Bucket>)
    requires width > 0
    ensures trend == TrendOf(rows, width)
  {
    hide Starts, In, Total, Sort;
    var order, values := Gather(rows, width);
    var starts := Sort(IntAtMost, order);
    trend := [];
    for k := 0 to |starts|
      invariant |trend| == k && forall j | 0 <= j < k :: trend[j] == Bucket(starts[j], Total(In(rows, width, starts[j])))
    {
      var j := Holds(starts, order, k);
      trend := trend + [Bucket(starts[k], values[starts[k]])];
    }
  }

  /** The sums over all rows. */
  method Sums(rows: seq<Row>) returns (totals: Totals, overruns: nat, durationSum: nat)
    ensures totals == Total(rows) && overruns == Overruns(rows) && durationSum == DurationSum(rows)
  {
    var successCount: nat, tokens: nat, charged: nat := 0, 0, 0;
    overruns, durationSum := 0, 0;
    for i := 0 to |rows|
      invariant successCount <= i && Totals(i, successCount, i - successCount, tokens, charged) == Total(rows[..i])
      invariant overruns == Overruns(rows[..i]) && durationSum == DurationSum(rows[..i])
    {
      var row := rows[i];
      assert rows[..i + 1][..i] == rows[..i];
      successCount := successCount + if row.success then 1 else 0;
      tokens, charged := tokens + row.tokens, charged + row.charged;
      overruns := overruns + if row.overrun then 1 else 0;
      durationSum := durationSum + row.durationMs;
    }
    assert rows[..|rows|] == rows;
    totals := Totals(|rows|, successCount, |rows| - successCount, tokens, charged);
  }

  method Summarize(rows: seq<Row>, bucketSeconds: nat, maxRows: nat) returns (r: Result<EventSummary, SummaryError>)
    ensures r.Err? <==> bucketSeconds !in {300, 3600, 86400} || |rows| > maxRows
    ensures r.Err? ==> r.error == if bucketSeconds !in {300, 3600, 86400} then BadBucket else TooBroad
    ensures r.Ok? ==>
              && r.value.totals == Total(rows) && r.value.overruns == Overruns(rows) && r.value.bucketSeconds == bucketSeconds
              && r.value.trend == TrendOf(rows, bucketSeconds)
              && r.value.p50 == NearestRank(Durations(rows), 50, 100)
              && r.value.p95 == NearestRank(Durations(rows), 95, 100)
              && r.value.p99 == NearestRank(Durations(rows), 99, 100)
              && r.value.averageMs == if rows == [] then None else Some(DurationSum(rows) as real / |rows| as real)
  {
    if bucketSeconds !in {300, 3600, 86400} { return Err(BadBucket); }
    if |rows| > maxRows { return Err(TooBroad); }
    var durations := Durations(rows);
    var totals, overruns, durationSum := Sums(rows);
    var trend := Trend(rows, bucketSeconds);
    r := Ok(EventSummary(
      totals, if durations == [] then None else Some(durationSum as real / |durations| as real),
      NearestRank(durations, 50, 100), NearestRank(durations, 95, 100), NearestRank(durations, 99, 100),
      overruns, bucketSeconds, trend));
  }

  function Grown(front: seq<Row>, row: Row, width: nat, start: int): Totals
    requires width > 0
  {
    if start == StartOf(width, row) then Plus(Total(In(front, width, start)), One(row)) else Total(In(front, width, start))
  }

  /** A row joins its own bucket and no other. */
  lemma BucketGrows(front: seq<Row>, row: Row, width: nat, start: int)
    requires width > 0
    ensures Total(In(front + [row], width, start)) == Grown(front, row, width, start)
  {
    assert (front + [row])[..|front|] == front;
    var was := In(front, width, start);
    assert (was + [row])[..|was|] == was && was + [] == was;
  }
}
