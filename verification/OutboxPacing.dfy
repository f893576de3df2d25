/** How often, and how soon after one another, a row is claimed. */
module OutboxPacing {
  import opened Common
  import opened OutboxSpec
  import opened OutboxRun
  import opened OutboxProof
  import opened OutboxTheorems
  import opened OutboxStepping

  // ---------------------------------------------------------------- the retry delay

  lemma {:induction false} Pow2Grows(m: int, n: int)
    requires m <= n
    ensures 1 <= Pow2(m) <= Pow2(n)
    decreases n
  {
    if n <= 0 {
    } else if m < n {
      Pow2Grows(m, n - 1);
    } else {
      Pow2Grows(m - 1, n - 1);
    }
  }

  lemma TimesGrows(base: nat, x: nat, y: nat)
    requires x <= y
    ensures base * x <= base * y && base * (2 * x) == 2 * (base * x)
  {
  }

  /** The delay starts at the base, doubles up to the maximum, and never shrinks. */
  lemma DelayGrows(c: Config, n: nat, m: nat)
    requires ValidConfig(c) && 1 <= n <= m
    ensures Delay(c, 1) == c.baseRetry <= Delay(c, n) <= Delay(c, m) <= c.maxRetry
    ensures Delay(c, n + 1) == Min(2 * Delay(c, n), c.maxRetry)
  {
    Pow2Grows(0, n - 1);
    Pow2Grows(n - 1, m - 1);
    var one, x, y := Pow2(0), Pow2(n - 1), Pow2(m - 1);
    assert one == 1 && Pow2(n) == 2 * x;
    hide Pow2;
    TimesGrows(c.baseRetry, one, x);
    TimesGrows(c.baseRetry, x, y);
  }

  // ---------------------------------------------------------------- claims are bounded

  /** The claims a row may still take. */
  function Left(c: Config, item: Item): int { if item.status.Completed? then 0 else c.maxAttempts - item.attempts }

  function Measure(c: Config, items: seq<Item>): int {
    if items == [] then 0 else Measure(c, items[..|items| - 1]) + Left(c, items[|items| - 1])
  }

  lemma {:induction false} MeasureUpdate(c: Config, items: seq<Item>, i: nat, item: Item)
    requires i < |items|
    ensures Measure(c, items[i := item]) == Measure(c, items) - Left(c, items[i]) + Left(c, item)
    decreases |items|
  {
    var n := |items| - 1;
    if i < n {
      assert items[i := item][..n] == items[..n][i := item];
      MeasureUpdate(c, items[..n], i, item);
    } else {
      assert items[i := item][..n] == items[..n];
    }
  }

  lemma {:induction false} ClaimMeasure(c: Config, t: Tables, locked: set<nat>, picked: seq<nat>, now: int)
    requires forall k | 0 <= k < |picked| :: Open(c, t.items, locked, now, picked[k])
    requires forall k, l | 0 <= k < l < |picked| :: picked[k] != picked[l]
    requires forall k | 0 <= k < |picked| :: picked[k] < |t.items| && !t.items[picked[k]].status.Completed?
    ensures Measure(c, Claim(t, picked, now).items) == Measure(c, t.items) - |picked|
    decreases |picked|
  {
    if picked == [] {
      assert Claim(t, picked, now).items == t.items;
    } else {
      var front, last := picked[..|picked| - 1], picked[|picked| - 1];
      var before := Claim(t, front, now).items;
      ClaimMeasure(c, t, locked, front, now);
      MeasureUpdate(c, before, last, ClaimedItem(t.items[last], now));
      assert picked == front + [last];
      assert Claim(t, picked, now).items == before[last := ClaimedItem(t.items[last], now)];
    }
  }

  /** A claim of n rows lowers the measure by exactly n. */
  lemma ClaimLowers(c: Config, s: State, locked: set<nat>, picked: seq<nat>, now: int)
    requires Chosen(c, s.tables.items, locked, now, picked)
    ensures Measure(c, Take(c, s, ClaimRows(locked, picked, now)).tables.items) == Measure(c, s.tables.items) - |picked|
  {
    forall k | 0 <= k < |picked| ensures !s.tables.items[picked[k]].status.Completed? {
      assert Open(c, s.tables.items, locked, now, picked[k]);
    }
    ClaimMeasure(c, s.tables, locked, picked, now);
  }

  lemma FinishMeasure(c: Config, s: State, j: nat, sealed: Option<Sealed>)
    requires Inv(c, s) && j < |s.jobs| && s.jobs[j].Returned?
    ensures Measure(c, FinishJob(c, s, j, sealed).tables.items) <= Measure(c, s.tables.items)
  {
    var i := s.jobs[j].item;
    assert JobHolds(s.tables.items, s.jobs[j]);
    assert RowHolds(c, s.tables, s.tables.items[i]);
    var t1 := FinishJob(c, s, j, sealed).tables;
    FinishTouchesOne(c, s, j, sealed);
    MeasureUpdate(c, s.tables.items, i, t1.items[i]);
  }

  lemma FinishTouchesOne(c: Config, s: State, j: nat, sealed: Option<Sealed>)
    requires RowsHold(c, s.tables) && j < |s.jobs| && s.jobs[j].Returned? && s.jobs[j].item < |s.tables.items|
    ensures var i, items := s.jobs[j].item, FinishJob(c, s, j, sealed).tables.items;
            i < |items| && items == s.tables.items[i := items[i]] && Left(c, items[i]) <= Left(c, s.tables.items[i])
  {
    var items := FinishJob(c, s, j, sealed).tables.items;
    var i := s.jobs[j].item;
    assert RowHolds(c, s.tables, s.tables.items[i]);
    assert s.tables.items == s.tables.items[i := s.tables.items[i]];
    assert |items| == |s.tables.items|;
    assert forall k | 0 <= k < |items| && k != i :: items[k] == s.tables.items[k];
  }

  lemma StagingMeasure(c: Config, s: State, step: Step)
    requires step.NewCaller? || step.SyncCaller? || step.StopCaller?
    ensures var items, items1 := s.tables.items, Take(c, s, step).tables.items;
            items1 == items || (|items1| == |items| + 1 && Measure(c, items1) == Measure(c, items) + c.maxAttempts)
  {
    var items, items1 := s.tables.items, Take(c, s, step).tables.items;
    assert items1 == items || (|items1| == |items| + 1 && items1[..|items|] == items && Left(c, items1[|items|]) == c.maxAttempts);
  }

  lemma TakeMeasure(c: Config, s: State, step: Step)
    requires ValidConfig(c) && Inv(c, s)
    ensures var s1 := Take(c, s, step);
            Measure(c, s1.tables.items) + |s1.claims| - c.maxAttempts * |s1.tables.items|
            <= Measure(c, s.tables.items) + |s.claims| - c.maxAttempts * |s.tables.items|
  {
    hide Inv, FinishJob, Measure;
    if step.NewCaller? || step.SyncCaller? || step.StopCaller? {
      StagingMeasure(c, s, step);
      assert c.maxAttempts * (|s.tables.items| + 1) == c.maxAttempts * |s.tables.items| + c.maxAttempts;
    } else if step.ClaimRows? && Chosen(c, s.tables.items, step.locked, step.now, step.picked) {
      ClaimLowers(c, s, step.locked, step.picked, step.now);
    } else if step.Finish? && step.job < |s.jobs| && s.jobs[step.job].Returned? {
      FinishMeasure(c, s, step.job, step.sealed);
      FinishCounts(c, s, step.job, step.sealed);
    }
  }

  lemma FinishCounts(c: Config, s: State, j: nat, sealed: Option<Sealed>)
    requires Inv(c, s) && j < |s.jobs| && s.jobs[j].Returned?
    ensures |FinishJob(c, s, j, sealed).tables.items| == |s.tables.items| && FinishJob(c, s, j, sealed).claims == s.claims
  {
    FinishKeepsRows(c, s, j, sealed);
  }

  lemma {:induction false} MeasureNatural(c: Config, items: seq<Item>)
    requires forall i | 0 <= i < |items| :: items[i].attempts <= c.maxAttempts
    ensures Measure(c, items) >= 0
    decreases |items|
  {
    if items != [] { MeasureNatural(c, items[..|items| - 1]); }
  }

  /** In any run, what is left to claim plus what was claimed is at most the attempts allowed for the rows
      staged: with no further staging the workers run out of claims. */
  lemma {:induction false} ClaimsRunOut(c: Config, steps: seq<Step>)
    requires ValidConfig(c)
    ensures var s := Run(c, INITIAL, steps);
            0 <= Measure(c, s.tables.items) <= c.maxAttempts * |s.tables.items| - |s.claims|
    decreases |steps|
  {
    RunHolds(c, steps);
    var s := Run(c, INITIAL, steps);
    forall i | 0 <= i < |s.tables.items| ensures s.tables.items[i].attempts <= c.maxAttempts {
      assert RowHolds(c, s.tables, s.tables.items[i]);
    }
    MeasureNatural(c, s.tables.items);
    if steps != [] {
      var front := steps[..|steps| - 1];
      ClaimsRunOut(c, front);
      RunHolds(c, front);
      TakeMeasure(c, Run(c, INITIAL, front), steps[|steps| - 1]);
    }
  }

  // ---------------------------------------------------------------- a row's latest claim

  /** Where the row's latest claim stands among the claims; past the end when it has none. */
  function LastAt(claims: seq<Claiming>, i: nat): (n: nat)
    ensures n <= |claims| && (n < |claims| ==> claims[n].item == i)
    ensures forall k | 0 <= k < |claims| && claims[k].item == i :: k <= n < |claims|
  {
    if claims == [] then 0
    else if claims[|claims| - 1].item == i then |claims| - 1
    else
      var n := LastAt(claims[..|claims| - 1], i);
      if n == |claims| - 1 then |claims| else n
  }

  lemma LastAtAppend(claims: seq<Claiming>, added: seq<Claiming>, i: nat)
    requires forall k, l | 0 <= k < l < |added| :: added[k].item != added[l].item
    ensures (forall k | 0 <= k < |added| :: added[k].item != i) && LastAt(claims, i) < |claims| ==>
              LastAt(claims + added, i) == LastAt(claims, i)
    ensures (forall k | 0 <= k < |added| :: added[k].item != i) && LastAt(claims, i) >= |claims| ==>
              LastAt(claims + added, i) == |claims + added|
    ensures forall p | 0 <= p < |added| && added[p].item == i :: LastAt(claims + added, i) == |claims| + p
  {
    var all := claims + added;
    var n := LastAt(claims, i);
    assert n < |claims| ==> all[n].item == i;
    forall p | 0 <= p < |added| && added[p].item == i ensures LastAt(all, i) == |claims| + p {
      assert all[|claims| + p].item == i;
    }
  }

  /** A row under work carries the time and count of its latest claim; one that waits has none. */
  predicate LockRow(item: Item, claims: seq<Claiming>, n: nat) {
    match item.status
    case Waiting => n >= |claims|
    case Processing => n < |claims| && item.lockedAt == Some(claims[n].now) && item.attempts == claims[n].attempts
    case Failed => n < |claims|
    case Completed => true
  }

  predicate LocksHold(s: State) {
    && (forall k | 0 <= k < |s.claims| :: s.claims[k].item < |s.tables.items|)
    && (forall i | 0 <= i < |s.tables.items| :: LockRow(s.tables.items[i], s.claims, LastAt(s.claims, i)))
  }

  /** How long a failed row rests after its latest claim: the whole retry delay, or, when only claims are to be
      spaced, the lesser of that delay and the claim's timeout. */
  function Wait(c: Config, claim: Claiming, whole: bool): nat {
    if whole then Delay(c, claim.attempts) else Min(c.claimTimeout, Delay(c, claim.attempts))
  }

  predicate PaceRow(c: Config, item: Item, claims: seq<Claiming>, n: nat, whole: bool) {
    item.status.Failed? && n < |claims| && item.attempts < c.maxAttempts ==> item.availableAt >= claims[n].now + Wait(c, claims[n], whole)
  }

  predicate PaceHolds(c: Config, s: State, whole: bool) {
    forall i | 0 <= i < |s.tables.items| :: PaceRow(c, s.tables.items[i], s.claims, LastAt(s.claims, i), whole)
  }

  /** A retryable failure that reopens a row no earlier than the wait after its latest claim. A worker whose claim
      has not been taken over always passes; it is a test on the row before the failure. */
  predicate Timely(c: Config, s: State, step: Step, whole: bool) {
    step.Finish? && step.job < |s.jobs| && s.jobs[step.job].Returned? && s.jobs[step.job].ran == Raised(true) ==>
      var i, now := s.jobs[step.job].item, s.jobs[step.job].now;
      i < |s.tables.items| && s.tables.items[i].status.Processing? && s.tables.items[i].lockedAt.Some?
        && s.tables.items[i].attempts < c.maxAttempts ==>
          var row := s.tables.items[i];
          now + Delay(c, row.attempts) >= row.lockedAt.value + Wait(c, Claiming(i, now, row.attempts), whole)
  }

  ghost predicate AllTimely(c: Config, steps: seq<Step>, whole: bool) {
    forall k | 0 <= k < |steps| :: Timely(c, Run(c, INITIAL, steps[..k]), steps[k], whole)
  }

  // ---------------------------------------------------------------- the three kinds of steps

  lemma ClaimLocks(c: Config, s: State, locked: set<nat>, picked: seq<nat>, now: int, whole: bool)
    requires LocksHold(s) && Chosen(c, s.tables.items, locked, now, picked)
    ensures LocksHold(ClaimAll(s, picked, now)) && (PaceHolds(c, s, whole) ==> PaceHolds(c, ClaimAll(s, picked, now), whole))
  {
    forall k | 0 <= k < |picked| ensures picked[k] < |s.tables.items| { assert Open(c, s.tables.items, locked, now, picked[k]); }
    hide Chosen;
    var s1 := ClaimAll(s, picked, now);
    forall i | 0 <= i < |s1.tables.items|
      ensures LockRow(s1.tables.items[i], s1.claims, LastAt(s1.claims, i))
      ensures PaceHolds(c, s, whole) ==> PaceRow(c, s1.tables.items[i], s1.claims, LastAt(s1.claims, i), whole)
    {
      assert LockRow(s.tables.items[i], s.claims, LastAt(s.claims, i));
      assert PaceHolds(c, s, whole) ==> PaceRow(c, s.tables.items[i], s.claims, LastAt(s.claims, i), whole);
      ClaimRow(c, s, picked, now, i, whole);
    }
  }

  lemma ClaimedRow(item: Item, claims: seq<Claiming>, added: seq<Claiming>, i: nat, p: nat, now: int)
    requires forall k, l | 0 <= k < l < |added| :: added[k].item != added[l].item
    requires p < |added| && added[p] == Claiming(i, now, item.attempts + 1)
    ensures LockRow(ClaimedItem(item, now), claims + added, LastAt(claims + added, i))
  {
    hide LastAt;
    LastAtAppend(claims, added, i);
    assert (claims + added)[|claims| + p] == added[p];
  }

  lemma UnclaimedRow(c: Config, item: Item, claims: seq<Claiming>, added: seq<Claiming>, i: nat, whole: bool)
    requires forall k, l | 0 <= k < l < |added| :: added[k].item != added[l].item
    requires LockRow(item, claims, LastAt(claims, i)) && forall k | 0 <= k < |added| :: added[k].item != i
    ensures LockRow(item, claims + added, LastAt(claims + added, i))
    ensures PaceRow(c, item, claims, LastAt(claims, i), whole) ==> PaceRow(c, item, claims + added, LastAt(claims + added, i), whole)
  {
    hide LastAt;
    LastAtAppend(claims, added, i);
  }

  lemma ClaimRow(c: Config, s: State, picked: seq<nat>, now: int, i: nat, whole: bool)
    requires i < |s.tables.items| && LockRow(s.tables.items[i], s.claims, LastAt(s.claims, i))
    requires forall k | 0 <= k < |picked| :: picked[k] < |s.tables.items|
    requires forall k, l | 0 <= k < l < |picked| :: picked[k] != picked[l]
    ensures var s1 := ClaimAll(s, picked, now);
            && LockRow(s1.tables.items[i], s1.claims, LastAt(s1.claims, i))
            && (PaceRow(c, s.tables.items[i], s.claims, LastAt(s.claims, i), whole) ==>
                  PaceRow(c, s1.tables.items[i], s1.claims, LastAt(s1.claims, i), whole))
  {
    var added := NewClaims(s.tables.items, picked, now);
    hide LastAt, NewClaims;
    if i in picked {
      var p :| 0 <= p < |picked| && picked[p] == i;
      ClaimedRow(s.tables.items[i], s.claims, added, i, p, now);
    } else {
      UnclaimedRow(c, s.tables.items[i], s.claims, added, i, whole);
    }
  }

  /** One row changed, the others and the claims as they were. */
  lemma OneRowLocks(c: Config, s: State, s1: State, i: nat, paced: bool, whole: bool)
    requires LocksHold(s) && s1.claims == s.claims && i < |s.tables.items| && |s1.tables.items| == |s.tables.items|
    requires forall k | 0 <= k < |s.tables.items| && k != i :: s1.tables.items[k] == s.tables.items[k]
    requires LockRow(s1.tables.items[i], s.claims, LastAt(s.claims, i))
    requires paced ==> PaceHolds(c, s, whole) && PaceRow(c, s1.tables.items[i], s.claims, LastAt(s.claims, i), whole)
    ensures LocksHold(s1) && (paced ==> PaceHolds(c, s1, whole))
  {
    hide LastAt, LockRow, PaceRow;
    forall k | 0 <= k < |s1.tables.items| ensures LockRow(s1.tables.items[k], s1.claims, LastAt(s1.claims, k)) {
      assert k != i ==> LockRow(s.tables.items[k], s.claims, LastAt(s.claims, k));
    }
    forall k | 0 <= k < |s1.tables.items| && paced ensures PaceRow(c, s1.tables.items[k], s1.claims, LastAt(s1.claims, k), whole) {
      assert k != i ==> PaceRow(c, s.tables.items[k], s.claims, LastAt(s.claims, k), whole);
    }
  }

  lemma FinishLocks(c: Config, s: State, j: nat, sealed: Option<Sealed>, whole: bool)
    requires Inv(c, s) && LocksHold(s) && j < |s.jobs| && s.jobs[j].Returned?
    ensures LocksHold(FinishJob(c, s, j, sealed))
    ensures PaceHolds(c, s, whole) && Timely(c, s, Finish(j, sealed), whole) ==> PaceHolds(c, FinishJob(c, s, j, sealed), whole)
  {
    var i := s.jobs[j].item;
    assert JobHolds(s.tables.items, s.jobs[j]);
    hide FinishJob, Timely, LastAt, Left, LocksHold, PaceHolds, LockRow, PaceRow;
    FinishTouchesOne(c, s, j, sealed);
    FinishCounts(c, s, j, sealed);
    FinishRow(c, s, j, sealed, whole);
    hide Inv;
    OneRowLocks(c, s, FinishJob(c, s, j, sealed), i, PaceHolds(c, s, whole) && Timely(c, s, Finish(j, sealed), whole), whole);
  }

  lemma FinishRow(c: Config, s: State, j: nat, sealed: Option<Sealed>, whole: bool)
    requires LocksHold(s) && j < |s.jobs| && s.jobs[j].Returned? && s.jobs[j].item < |s.tables.items|
    requires s.jobs[j].item < |FinishJob(c, s, j, sealed).tables.items|
    ensures var i, items, n := s.jobs[j].item, FinishJob(c, s, j, sealed).tables.items, LastAt(s.claims, s.jobs[j].item);
            && LockRow(items[i], s.claims, n)
            && (PaceHolds(c, s, whole) && Timely(c, s, Finish(j, sealed), whole) ==> PaceRow(c, items[i], s.claims, n, whole))
  {
    var i := s.jobs[j].item;
    var n := LastAt(s.claims, i);
    assert LockRow(s.tables.items[i], s.claims, n);
    assert PaceHolds(c, s, whole) ==> PaceRow(c, s.tables.items[i], s.claims, n, whole);
    hide LocksHold, PaceHolds, LastAt, Delay;
    if n < |s.claims| { WaitByCount(c, s.claims[n], Claiming(i, s.jobs[j].now, s.claims[n].attempts), whole); }
  }

  lemma WaitByCount(c: Config, a: Claiming, b: Claiming, whole: bool)
    requires a.attempts == b.attempts
    ensures Wait(c, a, whole) == Wait(c, b, whole)
  {
  }

  lemma StagingLocks(c: Config, s: State, step: Step, whole: bool)
    requires LocksHold(s) && (step.NewCaller? || step.SyncCaller? || step.StopCaller?)
    ensures LocksHold(Take(c, s, step)) && (PaceHolds(c, s, whole) ==> PaceHolds(c, Take(c, s, step), whole))
  {
    var s1 := Take(c, s, step);
    StagingKeepsRows(c, s, step);
    forall i | |s.tables.items| <= i < |s1.tables.items| ensures s1.tables.items[i].status.Waiting? && s1.claims == s.claims {
      StagedWaits(c, s, step, i);
    }
    assert s1.claims == s.claims;
    hide Take;
    forall i | 0 <= i < |s1.tables.items|
      ensures LockRow(s1.tables.items[i], s1.claims, LastAt(s1.claims, i))
      ensures PaceHolds(c, s, whole) ==> PaceRow(c, s1.tables.items[i], s1.claims, LastAt(s1.claims, i), whole)
    {
      if i < |s.tables.items| {
        assert s1.tables.items[i] == s.tables.items[i];
        assert LockRow(s.tables.items[i], s.claims, LastAt(s.claims, i));
        assert PaceHolds(c, s, whole) ==> PaceRow(c, s.tables.items[i], s.claims, LastAt(s.claims, i), whole);
      } else {
        assert forall k | 0 <= k < |s.claims| :: s.claims[k].item != i;
      }
    }
  }

  lemma StagedWaits(c: Config, s: State, step: Step, i: nat)
    requires (step.NewCaller? || step.SyncCaller? || step.StopCaller?) && |s.tables.items| <= i < |Take(c, s, step).tables.items|
    ensures Take(c, s, step).tables.items[i].status.Waiting?
  {
  }

  lemma JobStepLocks(c: Config, s: State, step: Step, whole: bool)
    requires LocksHold(s) && (step.Load? || step.Call?)
    ensures LocksHold(Take(c, s, step)) && (PaceHolds(c, s, whole) ==> PaceHolds(c, Take(c, s, step), whole))
  {
    var s1 := Take(c, s, step);
    assert s1.tables == s.tables && s1.claims == s.claims;
  }

  lemma TakeLocks(c: Config, s: State, step: Step, whole: bool)
    requires Inv(c, s) && LocksHold(s)
    ensures LocksHold(Take(c, s, step))
    ensures PaceHolds(c, s, whole) && Timely(c, s, step, whole) ==> PaceHolds(c, Take(c, s, step), whole)
  {
    hide Inv, FinishJob, PaceHolds, LocksHold, ClaimAll, Timely;
    if step.NewCaller? || step.SyncCaller? || step.StopCaller? {
      StagingLocks(c, s, step, whole);
    } else if step.ClaimRows? {
      if Chosen(c, s.tables.items, step.locked, step.now, step.picked) { ClaimLocks(c, s, step.locked, step.picked, step.now, whole); }
    } else if step.Finish? {
      if step.job < |s.jobs| && s.jobs[step.job].Returned? { FinishLocks(c, s, step.job, step.sealed, whole); }
    } else {
      JobStepLocks(c, s, step, whole);
    }
  }

  lemma {:induction false} RunLocks(c: Config, steps: seq<Step>)
    requires ValidConfig(c)
    ensures LocksHold(Run(c, INITIAL, steps))
    decreases |steps|
  {
    hide Take, LocksHold;
    if steps == [] {
      NothingLocked();
    } else {
      RunLocks(c, steps[..|steps| - 1]);
      RunHolds(c, steps[..|steps| - 1]);
      TakeLocks(c, Run(c, INITIAL, steps[..|steps| - 1]), steps[|steps| - 1], true);
    }
  }

  lemma NothingLocked()
    ensures LocksHold(INITIAL)
  {
  }

  lemma AllTimelyPrefix(c: Config, steps: seq<Step>, k: nat, whole: bool)
    requires AllTimely(c, steps, whole) && k <= |steps|
    ensures AllTimely(c, steps[..k], whole)
  {
    hide Timely, Run;
    forall i | 0 <= i < k ensures Timely(c, Run(c, INITIAL, steps[..k][..i]), steps[..k][i], whole) {
      assert steps[..k][..i] == steps[..i];
    }
  }

  lemma {:induction false} RunPace(c: Config, steps: seq<Step>, whole: bool)
    requires ValidConfig(c) && AllTimely(c, steps, whole)
    ensures PaceHolds(c, Run(c, INITIAL, steps), whole)
    decreases |steps|
  {
    hide Take, LocksHold, Timely, Inv;
    if steps != [] {
      var front := steps[..|steps| - 1];
      AllTimelyPrefix(c, steps, |front|, whole);
      RunPace(c, front, whole);
      RunHolds(c, front);
      RunLocks(c, front);
      assert Timely(c, Run(c, INITIAL, steps[..|front|]), steps[|front|], whole);
      TakeLocks(c, Run(c, INITIAL, front), steps[|steps| - 1], whole);
    }
  }

  // ---------------------------------------------------------------- taking over

  /** No claim is ever taken over before its timeout: a row under work is claimed again only that long after its
      latest claim, in every run. */
  lemma NoTakeoverBeforeTimeout(c: Config, steps: seq<Step>, locked: set<nat>, picked: seq<nat>, now: int, k: nat)
    requires ValidConfig(c) && Chosen(c, Run(c, INITIAL, steps).tables.items, locked, now, picked) && k < |picked|
    ensures var s := Run(c, INITIAL, steps); var i := picked[k];
            && i < |s.tables.items|
            && (s.tables.items[i].status.Processing? ==>
                  LastAt(s.claims, i) < |s.claims| && now >= s.claims[LastAt(s.claims, i)].now + c.claimTimeout)
  {
    hide Run, LastAt;
    RunLocks(c, steps);
    var s := Run(c, INITIAL, steps);
    assert Open(c, s.tables.items, locked, now, picked[k]);
    assert LockRow(s.tables.items[picked[k]], s.claims, LastAt(s.claims, picked[k]));
  }

  // ---------------------------------------------------------------- retrying

  /** Any claim of a failed row that could be made now rests the wait after the row's latest claim. */
  ghost predicate RetriesRest(c: Config, s: State, whole: bool) {
    forall locked: set<nat>, picked: seq<nat>, now: int, k: nat | Chosen(c, s.tables.items, locked, now, picked) && k < |picked| ::
      RestsAt(c, s, picked[k], now, whole)
  }

  predicate RestsAt(c: Config, s: State, i: nat, now: int, whole: bool) {
    RetriedAt(s, i) ==> now >= s.claims[LastAt(s.claims, i)].now + Wait(c, s.claims[LastAt(s.claims, i)], whole)
  }

  predicate RetriedAt(s: State, i: nat) {
    i < |s.tables.items| && s.tables.items[i].status.Failed? && LastAt(s.claims, i) < |s.claims|
  }

  lemma PaceRests(c: Config, s: State, whole: bool)
    requires PaceHolds(c, s, whole)
    ensures RetriesRest(c, s, whole)
  {
    hide LastAt, Wait;
    forall locked: set<nat>, picked: seq<nat>, now: int, k: nat | Chosen(c, s.tables.items, locked, now, picked) && k < |picked|
      ensures RestsAt(c, s, picked[k], now, whole)
    {
      assert Open(c, s.tables.items, locked, now, picked[k]);
      assert PaceRow(c, s.tables.items[picked[k]], s.claims, LastAt(s.claims, picked[k]), whole);
    }
  }

  /** The row that an untimely failure reopens, when it is open, and the claim it comes too soon after. */
  lemma UntimelyReopens(c: Config, s: State, step: Step, whole: bool) returns (i: nat, now: int)
    requires ValidConfig(c) && LocksHold(s) && !Timely(c, s, step, whole)
    ensures var s1 := Take(c, s, step);
            && s1.claims == s.claims && RetriedAt(s1, i) && Eligible(c, s1.tables.items[i], now)
            && now < s.claims[LastAt(s.claims, i)].now + Wait(c, s.claims[LastAt(s.claims, i)], whole)
  {
    i := s.jobs[step.job].item;
    var row := s.tables.items[i];
    now := s.jobs[step.job].now + Delay(c, row.attempts);
    assert LockRow(row, s.claims, LastAt(s.claims, i));
    hide LastAt, Delay;
    WaitByCount(c, s.claims[LastAt(s.claims, i)], Claiming(i, s.jobs[step.job].now, row.attempts), whole);
  }

  lemma UntimelyBreaksRest(c: Config, s: State, step: Step, whole: bool)
    requires ValidConfig(c) && LocksHold(s) && !Timely(c, s, step, whole)
    ensures !RetriesRest(c, Take(c, s, step), whole)
  {
    var i, now := UntimelyReopens(c, s, step, whole);
    var s1 := Take(c, s, step);
    hide LastAt, Wait, Take, LocksHold, Timely;
    ClaimsJust(c, s1.tables.items, i, now);
    assert [i][0] == i && !RestsAt(c, s1, i, now, whole);
  }

  /** At every moment of a run, any possible retry rests the wait after the row's latest claim, exactly when every
      retryable failure of a row with attempts left passes the timely test. */
  lemma RetriesRestExactlyWhen(c: Config, steps: seq<Step>, whole: bool)
    requires ValidConfig(c)
    ensures AllTimely(c, steps, whole) <==> forall k: nat | k <= |steps| :: RetriesRest(c, Run(c, INITIAL, steps[..k]), whole)
  {
    hide Run, Timely, RetriesRest, Take;
    if AllTimely(c, steps, whole) {
      forall k: nat | k <= |steps| ensures RetriesRest(c, Run(c, INITIAL, steps[..k]), whole) {
        AllTimelyPrefix(c, steps, k, whole);
        RunPace(c, steps[..k], whole);
        PaceRests(c, Run(c, INITIAL, steps[..k]), whole);
      }
    } else {
      var k :| 0 <= k < |steps| && !Timely(c, Run(c, INITIAL, steps[..k]), steps[k], whole);
      RunLocks(c, steps[..k]);
      UntimelyBreaksRest(c, Run(c, INITIAL, steps[..k]), steps[k], whole);
      RunSnoc(c, INITIAL, steps, k);
      assert !RetriesRest(c, Run(c, INITIAL, steps[..k + 1]), whole);
    }
  }

  /** For the whole retry delay the test asks just that the failing worker's claim is not older than the row's lock. */
  lemma WholeDelayTest(c: Config, s: State, j: nat, sealed: Option<Sealed>)
    requires ValidConfig(c) && j < |s.jobs| && s.jobs[j].Returned? && s.jobs[j].ran == Raised(true)
    requires s.jobs[j].item < |s.tables.items| && s.tables.items[s.jobs[j].item].status.Processing?
    requires s.tables.items[s.jobs[j].item].lockedAt.Some? && s.tables.items[s.jobs[j].item].attempts < c.maxAttempts
    ensures Timely(c, s, Finish(j, sealed), true) <==> s.jobs[j].now >= s.tables.items[s.jobs[j].item].lockedAt.value
  {
  }

  // ---------------------------------------------------------------- claims of one row

  predicate Spaced(c: Config, claims: seq<Claiming>) {
    forall k, l | 0 <= k < l < |claims| && claims[k].item == claims[l].item ::
      claims[l].now >= claims[k].now + Wait(c, claims[k], false)
  }

  /** Whatever could be claimed now would be spaced from all earlier claims. */
  ghost predicate ClaimsStaySpaced(c: Config, s: State) {
    forall locked: set<nat>, picked: seq<nat>, now: int | Chosen(c, s.tables.items, locked, now, picked) ::
      Spaced(c, Take(c, s, ClaimRows(locked, picked, now)).claims)
  }

  lemma OpenHasRested(c: Config, s: State, i: nat, now: int, k: nat)
    requires LocksHold(s) && PaceHolds(c, s, false) && Spaced(c, s.claims) && i < |s.tables.items| && Eligible(c, s.tables.items[i], now)
    requires k < |s.claims| && s.claims[k].item == i
    ensures now >= s.claims[k].now + Wait(c, s.claims[k], false)
  {
    var n := LastAt(s.claims, i);
    assert LockRow(s.tables.items[i], s.claims, n) && PaceRow(c, s.tables.items[i], s.claims, n, false);
    hide LastAt, Delay, LocksHold, PaceHolds;
    assert now >= s.claims[n].now + Wait(c, s.claims[n], false);
    if k < n { assert s.claims[n].now >= s.claims[k].now + Wait(c, s.claims[k], false); }
  }

  lemma ClaimSpaced(c: Config, s: State, locked: set<nat>, picked: seq<nat>, now: int)
    requires LocksHold(s) && PaceHolds(c, s, false) && Spaced(c, s.claims) && Chosen(c, s.tables.items, locked, now, picked)
    ensures Spaced(c, Take(c, s, ClaimRows(locked, picked, now)).claims)
  {
    var claims := Take(c, s, ClaimRows(locked, picked, now)).claims;
    forall k | 0 <= k < |picked| ensures picked[k] < |s.tables.items| { assert Open(c, s.tables.items, locked, now, picked[k]); }
    assert claims == s.claims + NewClaims(s.tables.items, picked, now);
    hide Take, LocksHold, PaceHolds, NewClaims, Wait;
    forall k, l | 0 <= k < l < |claims| && claims[k].item == claims[l].item
      ensures claims[l].now >= claims[k].now + Wait(c, claims[k], false)
    {
      if l >= |s.claims| {
        assert Open(c, s.tables.items, locked, now, picked[l - |s.claims|]);
        if k < |s.claims| { OpenHasRested(c, s, claims[l].item, now, k); }
      } else {
        assert claims[k] == s.claims[k] && claims[l] == s.claims[l];
      }
    }
  }

  lemma OthersClaimNothing(c: Config, s: State, step: Step)
    requires Inv(c, s) && !(step.ClaimRows? && Chosen(c, s.tables.items, step.locked, step.now, step.picked))
    ensures Take(c, s, step).claims == s.claims
  {
    hide Inv, FinishJob;
    if step.Finish? && step.job < |s.jobs| && s.jobs[step.job].Returned? { FinishCounts(c, s, step.job, step.sealed); }
  }

  lemma {:induction false} RunSpaced(c: Config, steps: seq<Step>)
    requires ValidConfig(c) && AllTimely(c, steps, false)
    ensures Spaced(c, Run(c, INITIAL, steps).claims)
    decreases |steps|
  {
    hide Take, LocksHold, PaceHolds, Timely, Inv, Spaced;
    if steps == [] {
      NothingSpaced(c);
    } else {
      var front, last := steps[..|steps| - 1], steps[|steps| - 1];
      AllTimelyPrefix(c, steps, |front|, false);
      RunSpaced(c, front);
      RunPace(c, front, false);
      RunLocks(c, front);
      RunHolds(c, front);
      var s := Run(c, INITIAL, front);
      if last.ClaimRows? && Chosen(c, s.tables.items, last.locked, last.now, last.picked) {
        ClaimSpaced(c, s, last.locked, last.picked, last.now);
      } else {
        OthersClaimNothing(c, s, last);
      }
    }
  }

  lemma NothingSpaced(c: Config)
    ensures Spaced(c, INITIAL.claims)
  {
  }

  lemma UntimelyBreaksSpacing(c: Config, s: State, step: Step)
    requires ValidConfig(c) && LocksHold(s) && !Timely(c, s, step, false)
    ensures !ClaimsStaySpaced(c, Take(c, s, step))
  {
    var i, now := UntimelyReopens(c, s, step, false);
    var s1 := Take(c, s, step);
    ClaimsJust(c, s1.tables.items, i, now);
    var n := LastAt(s.claims, i);
    var locked := AllBut(|s1.tables.items|, i);
    var claims := Take(c, s1, ClaimRows(locked, [i], now)).claims;
    assert claims == s1.claims + NewClaims(s1.tables.items, [i], now);
    assert claims[n] == s.claims[n] && claims[|s.claims|].item == i && claims[|s.claims|].now == now;
  }

  /** At every moment of a run, whatever is claimed next is spaced from all earlier claims of its row by the lesser
      of the timeout and the retry delay, exactly when every retryable failure passes the timely test for that. */
  lemma ClaimsAreSpacedExactlyWhen(c: Config, steps: seq<Step>)
    requires ValidConfig(c)
    ensures AllTimely(c, steps, false) <==> forall k: nat | k <= |steps| :: ClaimsStaySpaced(c, Run(c, INITIAL, steps[..k]))
  {
    hide Run, Timely, ClaimsStaySpaced, Take, Spaced;
    if AllTimely(c, steps, false) {
      forall k: nat | k <= |steps| ensures ClaimsStaySpaced(c, Run(c, INITIAL, steps[..k])) {
        AllTimelyPrefix(c, steps, k, false);
        StaySpaced(c, steps[..k]);
      }
    } else {
      var k :| 0 <= k < |steps| && !Timely(c, Run(c, INITIAL, steps[..k]), steps[k], false);
      RunLocks(c, steps[..k]);
      UntimelyBreaksSpacing(c, Run(c, INITIAL, steps[..k]), steps[k]);
      RunSnoc(c, INITIAL, steps, k);
      assert !ClaimsStaySpaced(c, Run(c, INITIAL, steps[..k + 1]));
    }
  }

  lemma StaySpaced(c: Config, steps: seq<Step>)
    requires ValidConfig(c) && AllTimely(c, steps, false)
    ensures ClaimsStaySpaced(c, Run(c, INITIAL, steps))
  {
    hide Run, Take, Spaced, Timely, LocksHold, PaceHolds;
    RunPace(c, steps, false);
    RunLocks(c, steps);
    RunSpaced(c, steps);
    var s := Run(c, INITIAL, steps);
    forall locked: set<nat>, picked: seq<nat>, now: int | Chosen(c, s.tables.items, locked, now, picked)
      ensures Spaced(c, Take(c, s, ClaimRows(locked, picked, now)).claims)
    {
      ClaimSpaced(c, s, locked, picked, now);
    }
  }
}
