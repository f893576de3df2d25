/** A disabled client's key stays as it is, and is inactive once its disable row is completed, when it was settled
    as the client was stopped. */
module OutboxSettled {
  import opened Common
  import opened OutboxSpec
  import opened OutboxRun
  import opened OutboxProof
  import opened OutboxTheorems
  import opened OutboxStepping
  import opened OutboxKeys

  // ---------------------------------------------------------------- another key may still be brought

  /** A row that may still be completed. */
  predicate Workable(c: Config, row: Item) { row.status.Processing? || Claimable(c, row) }

  /** A key that storing would put in another's place. */
  predicate Another(stored: Option<string>, key: string) { stored != Some(key) && !MultiLine(key) }

  /** A create job that may end with storing a key other than the stored one. */
  predicate Brings(stored: Option<string>, job: Job) {
    match job
    case Claimed(_, _) => stored.None?
    case Loaded(_, _, _, keyId, _) => keyId.None? || Another(stored, keyId.value)
    case Returned(_, _, ran) => ran.Did? && ran.effect.Material? && Another(stored, ran.effect.state.id)
    case Over => false
  }

  predicate CreateRow(c: Config, t: Tables, id: string, i: nat) {
    i < |t.items| && t.items[i].client == id && t.items[i].action.Create? && Workable(c, t.items[i])
  }

  predicate RowBrings(c: Config, s: State, id: string, i: nat) {
    id in s.tables.bindings && s.tables.bindings[id].keyId.None? && CreateRow(c, s.tables, id, i) && Claimable(c, s.tables.items[i])
  }

  predicate JobBrings(c: Config, s: State, id: string, j: nat) {
    && id in s.tables.bindings && j < |s.jobs| && !s.jobs[j].Over? && CreateRow(c, s.tables, id, s.jobs[j].item)
    && Brings(s.tables.bindings[id].keyId, s.jobs[j])
  }

  /** The client's key is not settled: an open create row, or a worker's job on one, may still store another. */
  ghost predicate MayBring(c: Config, s: State, id: string) {
    (exists i: nat :: RowBrings(c, s, id, i)) || (exists j: nat :: JobBrings(c, s, id, j))
  }

  // ---------------------------------------------------------------- a settled key stays, and goes dark

  predicate Dark(live: set<string>, key: Option<string>) { key.Some? ==> key.value !in live }

  predicate DisableNewest(t: Tables, id: string, d: nat) { Newest(t, id, d) && t.items[d].action.Disable? }

  /** What a job on the disable row knows of the stored key. */
  predicate KnowsKey(live: set<string>, stored: Option<string>, d: nat, job: Job) {
    match job
    case Loaded(i, _, _, keyId, _) => i == d ==> keyId == stored
    case Returned(i, _, ran) => i == d && ran.Did? ==> Dark(live, stored)
    case _ => true
  }

  predicate JobsKnow(s: State, stored: Option<string>, d: nat) { forall j | 0 <= j < |s.jobs| :: KnowsKey(s.live, stored, d, s.jobs[j]) }

  /** The key is settled, and once the newest row, to disable, is completed it is inactive. */
  ghost predicate Still(c: Config, s: State, id: string, d: nat)
    requires DisableNewest(s.tables, id, d)
  {
    var stored := s.tables.bindings[id].keyId;
    !MayBring(c, s, id) && JobsKnow(s, stored, d) && (s.tables.items[d].status.Completed? ==> Dark(s.live, stored))
  }

  ghost predicate DarkHolds(c: Config, s: State) {
    forall id: string, d: nat | DisableNewest(s.tables, id, d) :: Still(c, s, id, d)
  }

  /** When the client's rows and jobs can no more be worked on than before, nothing more may be brought. */
  lemma BringsNothingNew(c: Config, s: State, s1: State, id: string)
    requires !MayBring(c, s, id) && id in s.tables.bindings && id in s1.tables.bindings
    requires s1.tables.bindings[id].keyId == s.tables.bindings[id].keyId
    requires forall i: nat | CreateRow(c, s1.tables, id, i) ::
      CreateRow(c, s.tables, id, i) && (Claimable(c, s1.tables.items[i]) ==> Claimable(c, s.tables.items[i]))
    requires forall j: nat | JobBrings(c, s1, id, j) :: JobBrings(c, s, id, j) || RowBrings(c, s, id, s1.jobs[j].item)
    ensures !MayBring(c, s1, id)
  {
    hide CreateRow, Claimable, Brings;
    forall i: nat ensures !RowBrings(c, s1, id, i) {
      assert !RowBrings(c, s, id, i);
    }
    forall j: nat ensures !JobBrings(c, s1, id, j) {
      assert !JobBrings(c, s, id, j);
      assert j < |s1.jobs| && !s1.jobs[j].Over? ==> !RowBrings(c, s, id, s1.jobs[j].item);
    }
  }

  lemma ClaimStill(c: Config, s: State, step: Step, id: string, d: nat)
    requires step.ClaimRows? && Chosen(c, s.tables.items, step.locked, step.now, step.picked)
    requires DisableNewest(s.tables, id, d) && Still(c, s, id, d) && DisableNewest(Take(c, s, step).tables, id, d)
    ensures Still(c, Take(c, s, step), id, d)
  {
    var s1 := Take(c, s, step);
    ClaimShape(c, s, step);
    hide Take, Chosen, MayBring;
    ClaimBringsNothing(c, s, s1, id, step.now);
    forall j | 0 <= j < |s1.jobs| ensures KnowsKey(s1.live, s1.tables.bindings[id].keyId, d, s1.jobs[j]) {
      if j < |s.jobs| { assert s1.jobs[j] == s.jobs[j] && KnowsKey(s.live, s.tables.bindings[id].keyId, d, s.jobs[j]); }
    }
  }

  lemma ClaimBringsNothing(c: Config, s: State, s1: State, id: string, now: int)
    requires !MayBring(c, s, id) && id in s.tables.bindings && s1.tables.bindings == s.tables.bindings
    requires |s1.tables.items| == |s.tables.items| && s.jobs <= s1.jobs
    requires forall i | 0 <= i < |s.tables.items| ::
      s1.tables.items[i] == s.tables.items[i] || (Claimable(c, s.tables.items[i]) && s1.tables.items[i] == ClaimedItem(s.tables.items[i], now))
    requires forall j | |s.jobs| <= j < |s1.jobs| ::
      s1.jobs[j].Claimed? && s1.jobs[j].item < |s.tables.items| && Claimable(c, s.tables.items[s1.jobs[j].item])
    ensures !MayBring(c, s1, id)
  {
    hide MayBring, Brings;
    forall i: nat | CreateRow(c, s1.tables, id, i)
      ensures CreateRow(c, s.tables, id, i) && (Claimable(c, s1.tables.items[i]) ==> Claimable(c, s.tables.items[i]))
    {
      assert s1.tables.items[i] == s.tables.items[i] || Claimable(c, s.tables.items[i]);
    }
    hide CreateRow, Claimable;
    forall j: nat | JobBrings(c, s1, id, j) ensures JobBrings(c, s, id, j) || RowBrings(c, s, id, s1.jobs[j].item) {
      if j < |s.jobs| { assert s1.jobs[j] == s.jobs[j]; } else { ClaimedBrings(s1.tables.bindings[id].keyId, s1.jobs[j]); }
    }
    BringsNothingNew(c, s, s1, id);
  }

  lemma ClaimedBrings(stored: Option<string>, job: Job)
    requires job.Claimed? && Brings(stored, job)
    ensures stored.None?
  {
  }

  lemma LoadStill(c: Config, s: State, step: Step, id: string, d: nat)
    requires Inv(c, s) && step.Load? && step.job < |s.jobs| && s.jobs[step.job].Claimed?
    requires DisableNewest(s.tables, id, d) && Still(c, s, id, d)
    ensures Still(c, Take(c, s, step), id, d)
  {
    var s1 := Take(c, s, step);
    hide Inv, MayBring;
    forall j: nat | JobBrings(c, s1, id, j) ensures JobBrings(c, s, id, j) {
      if j == step.job { assert Brings(s.tables.bindings[id].keyId, s.jobs[j]); }
    }
    BringsNothingNew(c, s, s1, id);
    forall j | 0 <= j < |s1.jobs| ensures KnowsKey(s1.live, s1.tables.bindings[id].keyId, d, s1.jobs[j]) {
      assert KnowsKey(s.live, s.tables.bindings[id].keyId, d, s.jobs[j]);
    }
  }

  /** No call makes an old key active; a disable call that succeeds leaves the loaded key inactive; a create call
      that loaded a key answers with that key. */
  lemma CallOneJob(s: State, client: string, job: Job, remote: Remote, keys: KeyEffect, stored: Option<string>, d: nat)
    requires job.Loaded? && HonestCall(s, client, job, remote, keys) && (stored.Some? ==> stored.value in s.made)
    requires job.keyId.Some? ==> job.keyId.value != ""
    ensures var live := LiveAfter(s, keys);
            var after := Returned(job.item, job.now, Execute(job.action, job.keyId, job.desired, remote));
            && (Dark(s.live, stored) ==> Dark(live, stored))
            && (job.action.Create? && Brings(stored, after) ==> Brings(stored, job))
            && ((job.item == d ==> job.action.Disable?) && KnowsKey(s.live, stored, d, job) ==> KnowsKey(live, stored, d, after))
  {
  }

  lemma CallStill(c: Config, s: State, step: Step, id: string, d: nat)
    requires Inv(c, s) && KeysHold(s) && Honest(s, step) && step.Call? && step.job < |s.jobs| && s.jobs[step.job].Loaded?
    requires DisableNewest(s.tables, id, d) && Still(c, s, id, d)
    ensures Still(c, Take(c, s, step), id, d)
  {
    CallShape(c, s, step);
    var s1, job, stored := Take(c, s, step), s.jobs[step.job], s.tables.bindings[id].keyId;
    assert JobOwned(s.tables.items, s.made, job) && Owned(s.made, id, stored);
    CallOneJob(s, s.tables.items[job.item].client, job, step.remote, step.keys, stored, d);
    hide Take, Execute, Inv, MayBring, HonestCall, KeysHold, Brings, Workable, Owned;
    forall j: nat | JobBrings(c, s1, id, j) ensures JobBrings(c, s, id, j) {
      if j != step.job { assert s1.jobs[j] == s.jobs[j]; }
    }
    BringsNothingNew(c, s, s1, id);
    CallJobsKnow(s, s1, step.job, stored, d);
  }

  lemma CallJobsKnow(s: State, s1: State, j: nat, stored: Option<string>, d: nat)
    requires JobsKnow(s, stored, d) && j < |s.jobs| && |s1.jobs| == |s.jobs| && (Dark(s.live, stored) ==> Dark(s1.live, stored))
    requires KnowsKey(s1.live, stored, d, s1.jobs[j]) && forall k | 0 <= k < |s.jobs| && k != j :: s1.jobs[k] == s.jobs[k]
    ensures JobsKnow(s1, stored, d)
  {
    forall k | 0 <= k < |s1.jobs| ensures KnowsKey(s1.live, stored, d, s1.jobs[k]) {
      assert KnowsKey(s.live, stored, d, s.jobs[k]);
    }
  }

  /** A settled key is not replaced by the end of any job. */
  lemma FinishKeepsKey(c: Config, s: State, j: nat, sealed: Option<Sealed>, id: string)
    requires Inv(c, s) && id in s.tables.bindings && !MayBring(c, s, id) && j < |s.jobs| && s.jobs[j].Returned?
    ensures var t1 := FinishJob(c, s, j, sealed).tables; id in t1.bindings && t1.bindings[id].keyId == s.tables.bindings[id].keyId
  {
    FinishKeys(c, s, j, sealed, id);
    assert JobHolds(s.tables.items, s.jobs[j]);
    hide FinishJob, Inv;
    assert !JobBrings(c, s, id, j);
  }

  lemma FinishBringsNothing(c: Config, s: State, j: nat, sealed: Option<Sealed>, id: string)
    requires Inv(c, s) && id in s.tables.bindings && !MayBring(c, s, id) && j < |s.jobs| && s.jobs[j].Returned?
    ensures !MayBring(c, FinishJob(c, s, j, sealed), id)
  {
    var s1 := FinishJob(c, s, j, sealed);
    FinishShape(c, s, j, sealed);
    FinishKeepsRows(c, s, j, sealed);
    FinishKeepsKey(c, s, j, sealed, id);
    hide FinishJob, Inv, MayBring, Brings, FieldsHold;
    forall i: nat | CreateRow(c, s1.tables, id, i)
      ensures CreateRow(c, s.tables, id, i) && (Claimable(c, s1.tables.items[i]) ==> Claimable(c, s.tables.items[i]))
    {
      FinishRow(c, s, j, sealed, i);
      assert RowKept(s.tables.items[i], s1.tables.items[i]);
    }
    hide CreateRow, Claimable;
    forall k: nat | JobBrings(c, s1, id, k) ensures JobBrings(c, s, id, k) {
      if k == j { RaisedBringsNothing(s1.tables.bindings[id].keyId, s1.jobs[j]); } else { assert s1.jobs[k] == s.jobs[k]; }
    }
    BringsNothingNew(c, s, s1, id);
  }

  lemma RaisedBringsNothing(stored: Option<string>, job: Job)
    requires job.Over? || (job.Returned? && job.ran.Raised?)
    ensures !Brings(stored, job)
  {
  }

  lemma FinishStill(c: Config, s: State, step: Step, id: string, d: nat)
    requires Inv(c, s) && step.Finish? && step.job < |s.jobs| && s.jobs[step.job].Returned?
    requires DisableNewest(s.tables, id, d) && Still(c, s, id, d) && DisableNewest(Take(c, s, step).tables, id, d)
    ensures Still(c, Take(c, s, step), id, d)
  {
    var s1, stored := FinishJob(c, s, step.job, step.sealed), s.tables.bindings[id].keyId;
    assert s1 == Take(c, s, step);
    hide Take, FinishJob, Inv, MayBring;
    FinishShape(c, s, step.job, step.sealed);
    FinishKeepsKey(c, s, step.job, step.sealed, id);
    FinishRow(c, s, step.job, step.sealed, d);
    FinishBringsNothing(c, s, step.job, step.sealed, id);
    assert KnowsKey(s.live, stored, d, s.jobs[step.job]);
    CallJobsKnow(s, s1, step.job, stored, d);
  }

  // ---------------------------------------------------------------- staging

  lemma StagingStill(c: Config, s: State, step: Step)
    requires ValidConfig(c) && Inv(c, s) && StagingStep(step)
    requires DarkHolds(c, s) && (Stops(s, step) ==> !MayBring(c, s, step.id))
    ensures DarkHolds(c, Take(c, s, step))
  {
    StagingAdds(c, s, step);
    TakeKeeps(c, s, step);
    var s1 := Take(c, s, step);
    hide Take, Inv, Adds, MayBring, Still;
    if s1 != s {
      forall id: string, d: nat | DisableNewest(s1.tables, id, d) ensures Still(c, s1, id, d) {
        if id == step.id { StagedStill(c, s, s1, step.id, step.StopCaller?, d); } else { OtherStill(c, s, s1, step.id, step.StopCaller?, id, d); }
      }
    }
  }

  /** A staged row brings no key for any client. */
  lemma StagingBringsNothing(c: Config, s: State, s1: State, stagedFor: string, disables: bool, id: string)
    requires s1 == s.(tables := s1.tables) && Adds(s.tables, s1.tables, stagedFor, disables) && id in s.tables.bindings
    requires (id == stagedFor ==> disables) && !MayBring(c, s, id)
    ensures !MayBring(c, s1, id)
  {
    hide MayBring, Brings, Workable, Claimable;
    assert id in s1.tables.bindings && s1.tables.bindings[id].keyId == s.tables.bindings[id].keyId;
    forall i: nat | CreateRow(c, s1.tables, id, i) ensures i < |s.tables.items| && s1.tables.items[i] == s.tables.items[i] {
      assert i < |s.tables.items| ==> s1.tables.items[i] == s1.tables.items[..|s.tables.items|][i];
    }
    hide Adds;
    BringsNothingNew(c, s, s1, id);
  }

  lemma OtherStill(c: Config, s: State, s1: State, stagedFor: string, disables: bool, id: string, d: nat)
    requires DarkHolds(c, s) && s1 == s.(tables := s1.tables) && Adds(s.tables, s1.tables, stagedFor, disables)
    requires id != stagedFor && DisableNewest(s1.tables, id, d)
    ensures Still(c, s1, id, d)
  {
    assert d < |s.tables.items| && s1.tables.items[d] == s1.tables.items[..|s.tables.items|][d];
    assert DisableNewest(s.tables, id, d);
    assert Still(c, s, id, d);
    StagingBringsNothing(c, s, s1, stagedFor, disables, id);
    hide DarkHolds, MayBring;
    assert JobsKnow(s1, s1.tables.bindings[id].keyId, d);
  }

  lemma StagedStill(c: Config, s: State, s1: State, id: string, disables: bool, d: nat)
    requires s1 == s.(tables := s1.tables) && Adds(s.tables, s1.tables, id, disables) && Inv(c, s) && Inv(c, s1)
    requires disables ==> id in s.tables.bindings && !MayBring(c, s, id)
    requires DisableNewest(s1.tables, id, d)
    ensures Still(c, s1, id, d)
  {
    NewestIsStaged(c, s, s1, id, disables, d);
    StagingBringsNothing(c, s, s1, id, disables, id);
    JobsKnowNothing(s, s1.tables.bindings[id].keyId, d);
    hide MayBring, Adds, Inv;
  }

  /** No job is on a row yet to be staged. */
  lemma JobsKnowNothing(s: State, stored: Option<string>, d: nat)
    requires JobsHold(s) && d >= |s.tables.items|
    ensures JobsKnow(s, stored, d)
  {
    forall j | 0 <= j < |s.jobs| ensures KnowsKey(s.live, stored, d, s.jobs[j]) { assert JobHolds(s.tables.items, s.jobs[j]); }
  }

  lemma NewestIsStaged(c: Config, s: State, s1: State, id: string, disables: bool, d: nat)
    requires Adds(s.tables, s1.tables, id, disables) && RowsHold(c, s1.tables) && DisableNewest(s1.tables, id, d)
    ensures disables && d == |s.tables.items| && s1.tables.items[d].status.Waiting?
  {
  }

  // ---------------------------------------------------------------- what a settled key gives

  /** A binding counts as disabled here while its key is active there. */
  predicate LiveDisabled(s: State, id: string) {
    id in s.tables.bindings && s.tables.bindings[id].sync.Disabled? && !Dark(s.live, s.tables.bindings[id].keyId)
  }

  lemma DarkMeansDark(c: Config, s: State, id: string)
    requires Inv(c, s) && DarkHolds(c, s)
    ensures !LiveDisabled(s, id)
  {
    if id in s.tables.bindings && s.tables.bindings[id].sync.Disabled? {
      assert SyncRight(s, id);
      var last := LastDone(s.done, id).value;
      assert CompletionHolds(s.tables.items, last);
      assert DisableNewest(s.tables, id, last.item);
      assert Still(c, s, id, last.item);
    }
  }

  lemma TakeStill(c: Config, s: State, step: Step)
    requires ValidConfig(c) && Inv(c, s) && KeysHold(s) && Honest(s, step) && DarkHolds(c, s)
    requires Stops(s, step) ==> !MayBring(c, s, step.id)
    ensures DarkHolds(c, Take(c, s, step))
  {
    if StagingStep(step) {
      StagingStill(c, s, step);
    } else {
      WorkerStill(c, s, step);
    }
  }

  lemma WorkerStill(c: Config, s: State, step: Step)
    requires ValidConfig(c) && Inv(c, s) && KeysHold(s) && Honest(s, step) && DarkHolds(c, s) && WorkerStep(step)
    ensures DarkHolds(c, Take(c, s, step))
  {
    var s1 := Take(c, s, step);
    forall id: string, d: nat | DisableNewest(s1.tables, id, d) ensures Still(c, s1, id, d) {
      NewestBefore(c, s, step, id, d);
      assert Still(c, s, id, d);
      hide Inv, KeysHold, DarkHolds, Honest, Still, Take;
      StillStep(c, s, step, id, d);
    }
  }

  lemma NewestBefore(c: Config, s: State, step: Step, id: string, d: nat)
    requires ValidConfig(c) && Inv(c, s) && WorkerStep(step) && DisableNewest(Take(c, s, step).tables, id, d)
    ensures DisableNewest(s.tables, id, d)
  {
    if step.ClaimRows? || step.Finish? {
      WorkerKeeps(c, s, step);
      assert RowKept(s.tables.items[d], Take(c, s, step).tables.items[d]);
    }
  }

  lemma StillStep(c: Config, s: State, step: Step, id: string, d: nat)
    requires ValidConfig(c) && Inv(c, s) && KeysHold(s) && Honest(s, step) && WorkerStep(step)
    requires DisableNewest(s.tables, id, d) && Still(c, s, id, d) && DisableNewest(Take(c, s, step).tables, id, d)
    ensures Still(c, Take(c, s, step), id, d)
  {
    hide Inv, KeysHold, Honest, Still, FinishJob, ClaimAll, Execute, LoadJob;
    match step {
      case ClaimRows(locked, picked, now) => if Chosen(c, s.tables.items, locked, now, picked) { ClaimStill(c, s, step, id, d); }
      case Load(j) => if j < |s.jobs| && s.jobs[j].Claimed? { LoadStill(c, s, step, id, d); }
      case Call(j, _, _) => if j < |s.jobs| && s.jobs[j].Loaded? { CallStill(c, s, step, id, d); }
      case Finish(j, _) => if j < |s.jobs| && s.jobs[j].Returned? { FinishStill(c, s, step, id, d); }
    }
  }
}
