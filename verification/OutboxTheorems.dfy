/** What holds in every run of the outbox. */
module OutboxTheorems {
  import opened Common
  import opened OutboxSpec
  import opened OutboxRun
  import opened OutboxProof

  // ---------------------------------------------------------------- what the sync status means

  /** A binding is active, or disabled, exactly when its remote fields are complete and the last row completed for
      it is the one staged last, of the matching kind; active also means the remote last answered with the
      desired configuration, active, and disabled that it answered inactive or that no key was found. */
  lemma SyncExactlyWhen(c: Config, steps: seq<Step>, id: string)
    requires ValidConfig(c) && id in Run(c, INITIAL, steps).tables.bindings
    ensures var s := Run(c, INITIAL, steps);
            var b, last := s.tables.bindings[id], LastDone(s.done, id);
            && (b.sync.Active? <==> RemoteFieldsComplete(b) && last.Some? && Newest(s.tables, id, last.value.item)
                                    && !s.tables.items[last.value.item].action.Disable?)
            && (b.sync.Disabled? <==> RemoteFieldsComplete(b) && last.Some? && Newest(s.tables, id, last.value.item)
                                      && s.tables.items[last.value.item].action.Disable?)
            && (b.sync.Active? ==>
                  && s.tables.items[last.value.item].desired.Some?
                  && s.tables.items[last.value.item].status.Completed? && !last.value.effect.NoKey?
                  && Verified(last.value.effect.state, s.tables.items[last.value.item].desired.value))
            && (b.sync.Disabled? ==>
                  last.value.effect.NoKey? || (last.value.effect.Stated? && !last.value.effect.state.isActive))
  {
    RunHolds(c, steps);
    var s := Run(c, INITIAL, steps);
    assert SyncRight(s, id);
    var last := LastDone(s.done, id);
    if last.Some? { assert CompletionHolds(s.tables.items, last.value); }
  }

  /** Distinct rows of one binding carry distinct versions, and its own version is that of its last staged row. */
  lemma VersionsTellRowsApart(c: Config, steps: seq<Step>)
    requires ValidConfig(c)
    ensures var t := Run(c, INITIAL, steps).tables;
            && (forall i, j | 0 <= i < j < |t.items| && t.items[i].client == t.items[j].client ::
                  t.items[i].version < t.items[j].version)
            && forall id | id in t.bindings ::
                 (exists n: nat :: Newest(t, id, n) && (forall i | n < i < |t.items| :: t.items[i].client != id))
  {
    RunHolds(c, steps);
    var t := Run(c, INITIAL, steps).tables;
    forall id | id in t.bindings
      ensures (exists n: nat :: Newest(t, id, n) && (forall i | n < i < |t.items| :: t.items[i].client != id))
    {
      var n: nat :| Newest(t, id, n);
      forall i | n < i < |t.items| ensures t.items[i].client != id { assert RowHolds(c, t, t.items[i]); }
    }
  }

  // ---------------------------------------------------------------- rows and completions last

  lemma FinishKeepsRows(c: Config, s: State, j: nat, sealed: Option<Sealed>)
    requires Inv(c, s) && j < |s.jobs| && s.jobs[j].Returned?
    ensures var t, t1 := s.tables, FinishJob(c, s, j, sealed).tables;
            && RowsKept(t.items, t1.items) && |t1.items| == |t.items| && t1.clients == t.clients && t1.bindings.Keys == t.bindings.Keys
            && forall id | id in t.bindings :: t1.bindings[id].version == t.bindings[id].version
  {
    hide Complete, Fail, NewestExists, SyncHolds;
    var i, ran := s.jobs[j].item, s.jobs[j].ran;
    assert JobHolds(s.tables.items, s.jobs[j]);
    if ran.Raised? {
      FailVersions(c, s.tables, i, ran.retryable, s.jobs[j].now);
      FailRows(c, s.tables, i, ran.retryable, s.jobs[j].now);
    } else if s.tables.items[i].status.Processing? {
      if Complete(s.tables, i, ran.effect, sealed).Commits? {
        CompleteRows(c, s, i, ran.effect, sealed);
        CompleteCounts(s.tables, i, ran.effect, sealed);
      }
    } else {
      IdleComplete(s.tables, i, ran.effect, sealed);
    }
  }

  lemma CompleteCounts(t: Tables, i: nat, effect: Effect, sealed: Option<Sealed>)
    requires Complete(t, i, effect, sealed).Commits?
    ensures var t1 := Complete(t, i, effect, sealed).tables; |t1.items| == |t.items| && t1.clients == t.clients
  {
  }

  lemma IdleComplete(t: Tables, i: nat, effect: Effect, sealed: Option<Sealed>)
    requires i < |t.items| && !t.items[i].status.Processing?
    ensures Complete(t, i, effect, sealed) == Commits(t)
  {
  }

  lemma ClaimKeepsRows(c: Config, s: State, locked: set<nat>, picked: seq<nat>, now: int)
    requires Chosen(c, s.tables.items, locked, now, picked) && RowsHold(c, s.tables)
    ensures RowsKept(s.tables.items, Claim(s.tables, picked, now).items)
  {
    forall i | 0 <= i < |s.tables.items| && i in picked ensures s.tables.items[i].status.Completed? ==> false {
      assert Open(c, s.tables.items, locked, now, i);
    }
  }

  lemma StagingKeepsRows(c: Config, s: State, step: Step)
    requires step.NewCaller? || step.SyncCaller? || step.StopCaller?
    ensures s.tables.items <= Take(c, s, step).tables.items
  {
  }

  lemma TakeKeepsRows(c: Config, s: State, step: Step)
    requires ValidConfig(c) && Inv(c, s)
    ensures RowsKept(s.tables.items, Take(c, s, step).tables.items)
  {
    hide Inv, FinishJob, Claim;
    if step.NewCaller? || step.SyncCaller? || step.StopCaller? {
      StagingKeepsRows(c, s, step);
    } else if step.Finish? && step.job < |s.jobs| && s.jobs[step.job].Returned? {
      FinishKeepsRows(c, s, step.job, step.sealed);
    } else if step.ClaimRows? && Chosen(c, s.tables.items, step.locked, step.now, step.picked) {
      InvRows(c, s);
      ClaimKeepsRows(c, s, step.locked, step.picked, step.now);
    }
  }

  lemma InvRows(c: Config, s: State)
    requires Inv(c, s)
    ensures RowsHold(c, s.tables)
  {
  }

  /** Rows are never removed, never change what they ask for, and once completed never change at all. */
  lemma {:induction false} CompletedForEver(c: Config, s: State, steps: seq<Step>)
    requires ValidConfig(c) && Inv(c, s)
    ensures Inv(c, Run(c, s, steps)) && RowsKept(s.tables.items, Run(c, s, steps).tables.items)
    decreases |steps|
  {
    if steps != [] {
      var before := Run(c, s, steps[..|steps| - 1]);
      CompletedForEver(c, s, steps[..|steps| - 1]);
      TakeKeeps(c, before, steps[|steps| - 1]);
      TakeKeepsRows(c, before, steps[|steps| - 1]);
    }
  }

  /** All the binding's rows are completed. */
  predicate Quiet(t: Tables, id: string) {
    id in t.bindings && forall i | 0 <= i < |t.items| && t.items[i].client == id :: t.items[i].status.Completed?
  }

  predicate Stages(step: Step, id: string) {
    (step.NewCaller? && step.id == id) || (step.SyncCaller? && step.id == id) || (step.StopCaller? && step.id == id)
  }

  lemma QuietStep(c: Config, s: State, step: Step, id: string)
    requires ValidConfig(c) && Inv(c, s) && Quiet(s.tables, id) && !Stages(step, id)
    ensures var t := Take(c, s, step).tables; Quiet(t, id) && t.bindings[id] == s.tables.bindings[id]
  {
    hide Inv;
    if step.ClaimRows? && Chosen(c, s.tables.items, step.locked, step.now, step.picked) {
      forall i | 0 <= i < |s.tables.items| && i in step.picked ensures !s.tables.items[i].status.Completed? {
        assert Open(c, s.tables.items, step.locked, step.now, i);
      }
    }
  }

  /** There is safety but no liveness: once every row is completed with an older one last, the binding stays out
      of step, neither active nor disabled, until something is staged for it again. */
  lemma {:induction false} OlderRowLastStalls(c: Config, s: State, steps: seq<Step>, id: string)
    requires ValidConfig(c) && Inv(c, s) && Quiet(s.tables, id) && LastDone(s.done, id).Some?
    requires !Newest(s.tables, id, LastDone(s.done, id).value.item)
    requires forall k | 0 <= k < |steps| :: !Stages(steps[k], id)
    ensures var t := Run(c, s, steps).tables;
            Quiet(t, id) && t.bindings[id] == s.tables.bindings[id] && !t.bindings[id].sync.Active? && !t.bindings[id].sync.Disabled?
    decreases |steps|
  {
    assert SyncRight(s, id);
    if steps != [] {
      var front := steps[..|steps| - 1];
      OlderRowLastStalls(c, s, front, id);
      CompletedForEver(c, s, front);
      QuietStep(c, Run(c, s, front), steps[|steps| - 1], id);
    }
  }

  // ---------------------------------------------------------------- what workers leave alone

  lemma WorkerKeeps(c: Config, s: State, step: Step)
    requires ValidConfig(c) && Inv(c, s) && (step.ClaimRows? || step.Finish?)
    ensures var t, t1 := s.tables, Take(c, s, step).tables;
            && RowsKept(t.items, t1.items) && |t1.items| == |t.items| && t1.clients == t.clients && t1.bindings.Keys == t.bindings.Keys
            && forall id | id in t.bindings :: t1.bindings[id].version == t.bindings[id].version
  {
    TakeKeepsRows(c, s, step);
    hide Inv, FinishJob, RowsKept;
    if step.Finish? && step.job < |s.jobs| && s.jobs[step.job].Returned? {
      FinishKeepsRows(c, s, step.job, step.sealed);
    }
  }
}
