/** What becomes of the remote's keys: whose they are. */
module OutboxKeys {
  import opened Common
  import opened OutboxSpec
  import opened OutboxRun
  import opened OutboxProof
  import opened OutboxTheorems

  // ---------------------------------------------------------------- what the remote is trusted with

  /** What an answer says of a client's key. */
  predicate Tells(s: State, client: string, key: KeyState) {
    key.id in s.made && s.made[key.id] == client && (key.isActive <==> key.id in s.live)
  }

  /** The answers a loaded job's call may get, and what it may do to the keys meanwhile. Names carry the client's
      id, so a search finds only keys made for that client; it may miss one. An upstream error says nothing of what
      was done, but that a key not found is not active. Only disabling makes a key inactive, and nothing makes it
      active again. */
  predicate HonestCall(s: State, client: string, job: Job, remote: Remote, keys: KeyEffect)
    requires job.Loaded?
  {
    if job.action.Disable? && job.keyId.Some? then
      && (keys.Nothing? || keys == Darkens(job.keyId.value))
      && (remote.disabled.Answered? && !remote.disabled.value.isActive ==> keys.Darkens?)
      && (remote.disabled.Upstream? && remote.disabled.notFound ==> job.keyId.value !in s.live)
    else if job.action.Create? && NonEmpty(job.keyId) then
      keys.Nothing? && (remote.material.Answered? ==> remote.material.value.id == job.keyId.value && Tells(s, client, remote.material.value))
    else if job.action.Create? && remote.found == Answered(None) then
      if keys.Makes? then keys.key !in s.made && keys.key != "" && (remote.created.Answered? ==> remote.created.value.id == keys.key)
      else keys.Nothing? && !remote.created.Answered?
    else keys.Nothing? && (job.action.Create? && remote.found.Answered? ==> Tells(s, client, remote.found.value.value))
  }

  predicate Honest(s: State, step: Step) {
    step.Call? && step.job < |s.jobs| && s.jobs[step.job].Loaded? ==>
      HonestCall(s, ClientOf(s, s.jobs[step.job].item), s.jobs[step.job], step.remote, step.keys)
  }

  ghost predicate HonestRun(c: Config, s: State, steps: seq<Step>) {
    forall k | 0 <= k < |steps| :: Honest(Run(c, s, steps[..k]), steps[k])
  }

  // ---------------------------------------------------------------- whose the keys are

  predicate Owned(made: map<string, string>, id: string, key: Option<string>) {
    key.Some? ==> key.value != "" && key.value in made && made[key.value] == id
  }

  predicate JobOwned(items: seq<Item>, made: map<string, string>, job: Job) {
    match job
    case Loaded(i, _, _, keyId, _) => i < |items| ==> Owned(made, items[i].client, keyId)
    case Returned(i, _, ran) =>
      i < |items| && ran.Did? && ran.effect.Material? ==> Owned(made, items[i].client, Some(ran.effect.state.id))
    case _ => true
  }

  predicate Stopped(t: Tables, id: string) { id in t.clients && t.clients[id].ClientDisabled? }

  predicate BindingsOwn(s: State) { forall id | id in s.tables.bindings :: Owned(s.made, id, s.tables.bindings[id].keyId) }

  predicate JobsOwn(s: State) { forall j | 0 <= j < |s.jobs| :: JobOwned(s.tables.items, s.made, s.jobs[j]) }

  predicate OnlyStoppedDisable(t: Tables) { forall i | 0 <= i < |t.items| && t.items[i].action.Disable? :: Stopped(t, t.items[i].client) }

  predicate LiveUntilStopped(s: State) { forall key | key in s.made && !Stopped(s.tables, s.made[key]) :: key in s.live }

  /** A client's binding and jobs hold only keys made for it, all of which are active until it is disabled. */
  predicate KeysHold(s: State) {
    s.live <= s.made.Keys && BindingsOwn(s) && JobsOwn(s) && OnlyStoppedDisable(s.tables) && LiveUntilStopped(s)
  }

  // ---------------------------------------------------------------- what a step changes

  predicate StagingStep(step: Step) { step.NewCaller? || step.SyncCaller? || step.StopCaller? }

  /** An active client is stopped. */
  predicate Stops(s: State, step: Step) {
    step.StopCaller? && step.id in s.tables.clients && s.tables.clients[step.id].ClientActive?
    && DisableCaller(s.tables, step.id, step.key, step.now).Commits?
  }

  /** One new row of this client, and nothing else for any other. */
  predicate Adds(t: Tables, t1: Tables, id: string, disables: bool) {
    && id in t1.bindings && |t1.items| == |t.items| + 1 && t1.items[..|t.items|] == t.items
    && var row := t1.items[|t.items|];
    && row.client == id && row.status.Waiting? && row.attempts == 0 && row.version == t1.bindings[id].version
    && (row.action.Disable? <==> disables)
    && t1.bindings[id].keyId == (if id in t.bindings then t.bindings[id].keyId else None)
    && (forall other | other in t1.bindings && other != id :: other in t.bindings && t1.bindings[other] == t.bindings[other])
    && (forall other | other in t.bindings :: other in t1.bindings)
    && (forall other | other in t.clients && Stopped(t, other) :: Stopped(t1, other)) && (disables ==> Stopped(t1, id))
  }

  lemma QueueAdds(t: Tables, id: string, action: Action, key: string, desired: Option<Spec>, now: int)
    requires id in t.bindings && Queue(t, id, action, key, desired, now).Commits? && (action.Disable? ==> Stopped(t, id))
    ensures Adds(t, Queue(t, id, action, key, desired, now).tables, id, action.Disable?)
  {
    hide KeyUsed;
  }

  lemma NewCallerAdds(c: Config, s: State, step: Step)
    requires Inv(c, s) && step.NewCaller?
    ensures var s1 := Take(c, s, step); s1 == s || (s1 == s.(tables := s1.tables) && Adds(s.tables, s1.tables, step.id, false))
  {
    var id := step.id;
    assert s.tables.bindings.Keys == s.tables.clients.Keys;
    hide Inv, ServiceUserUsed, Queue;
    if CreateCaller(s.tables, id, step.user, step.key, step.spec, step.now).Commits? {
      var b := Binding(Some(step.user), None, None, None, Pending, 1);
      QueueAdds(Tables(s.tables.clients[id := ClientActive], s.tables.bindings[id := b], s.tables.items), id, Create, step.key, Some(step.spec), step.now);
    }
  }

  lemma SyncCallerAdds(c: Config, s: State, step: Step)
    requires step.SyncCaller?
    ensures var s1 := Take(c, s, step); s1 == s || (s1 == s.(tables := s1.tables) && Adds(s.tables, s1.tables, step.id, false))
  {
    hide Queue;
    if step.id in s.tables.bindings && StageSync(s.tables, step.id, step.action, step.key, step.spec, step.now).Commits? {
      QueueAdds(s.tables, step.id, step.action, step.key, Some(step.spec), step.now);
    }
  }

  lemma StopCallerAdds(c: Config, s: State, step: Step)
    requires step.StopCaller?
    ensures var s1 := Take(c, s, step);
            if Stops(s, step) then s1 == s.(tables := s1.tables) && Adds(s.tables, s1.tables, step.id, true) && step.id in s.tables.bindings
            else s1 == s
  {
    hide Queue;
    if Stops(s, step) {
      var t := s.tables.(clients := s.tables.clients[step.id := ClientDisabled]);
      QueueAdds(t, step.id, Disable, step.key, None, step.now);
    }
  }

  lemma StagingAdds(c: Config, s: State, step: Step)
    requires Inv(c, s) && StagingStep(step)
    ensures var s1 := Take(c, s, step);
            s1 == s || (s1 == s.(tables := s1.tables) && Adds(s.tables, s1.tables, step.id, step.StopCaller?))
    ensures step.StopCaller? && Take(c, s, step) != s ==> Stops(s, step) && step.id in s.tables.bindings
  {
    hide Inv, Adds, Take, Stops;
    if step.NewCaller? {
      NewCallerAdds(c, s, step);
    } else if step.SyncCaller? {
      SyncCallerAdds(c, s, step);
    } else {
      StopCallerAdds(c, s, step);
    }
  }

  /** A claim adds jobs on rows that were claimable, and locks those rows. */
  lemma ClaimShape(c: Config, s: State, step: Step)
    requires step.ClaimRows? && Chosen(c, s.tables.items, step.locked, step.now, step.picked)
    ensures var s1 := Take(c, s, step);
            && s1 == s.(tables := s.tables.(items := s1.tables.items), jobs := s1.jobs, claims := s1.claims)
            && |s1.tables.items| == |s.tables.items| && s.jobs <= s1.jobs
            && (forall i | 0 <= i < |s.tables.items| ::
                  s1.tables.items[i] == s.tables.items[i] || (Claimable(c, s.tables.items[i]) && s1.tables.items[i] == ClaimedItem(s.tables.items[i], step.now)))
            && (forall j | |s.jobs| <= j < |s1.jobs| ::
                  s1.jobs[j].Claimed? && s1.jobs[j].item < |s.tables.items| && Claimable(c, s.tables.items[s1.jobs[j].item]))
  {
    forall k | 0 <= k < |step.picked| ensures step.picked[k] < |s.tables.items| && Claimable(c, s.tables.items[step.picked[k]]) {
      assert Open(c, s.tables.items, step.locked, step.now, step.picked[k]);
    }
    hide Chosen, NewClaims;
  }

  /** A row that may still be claimed, at some time. */
  predicate Claimable(c: Config, row: Item) { !row.status.Completed? && row.attempts < c.maxAttempts }

  /** The state after a call that was made. */
  lemma CallShape(c: Config, s: State, step: Step)
    requires Inv(c, s) && step.Call? && step.job < |s.jobs| && s.jobs[step.job].Loaded?
    ensures var s1, job := Take(c, s, step), s.jobs[step.job];
            && s1.tables == s.tables && job.item < |s.tables.items| && job.action == s.tables.items[job.item].action
            && s1.jobs == s.jobs[step.job := Returned(job.item, job.now, Execute(job.action, job.keyId, job.desired, step.remote))]
            && s1.made == MadeAfter(s, s.tables.items[job.item].client, step.keys) && s1.live == LiveAfter(s, step.keys)
  {
    assert JobHolds(s.tables.items, s.jobs[step.job]);
    hide Inv, Execute;
  }

  function MadeAfter(s: State, client: string, keys: KeyEffect): map<string, string> {
    if keys.Makes? then s.made[keys.key := client] else s.made
  }

  function LiveAfter(s: State, keys: KeyEffect): set<string> {
    if keys.Makes? then s.live + {keys.key} else if keys.Darkens? then s.live - {keys.key} else s.live
  }

  /** The returned job stores this key in the client's binding. */
  predicate StoresKey(s: State, j: nat, id: string, key: Option<string>) {
    && j < |s.jobs| && s.jobs[j].Returned? && s.jobs[j].ran.Did? && s.jobs[j].ran.effect.Material?
    && s.jobs[j].item < |s.tables.items| && s.tables.items[s.jobs[j].item].client == id
    && s.tables.items[s.jobs[j].item].status.Processing?
    && key == Some(s.jobs[j].ran.effect.state.id) && !MultiLine(s.jobs[j].ran.effect.state.id)
  }

  /** A job's end leaves all other jobs and the remote's keys, and replaces at most its own client's key. */
  lemma FinishShape(c: Config, s: State, j: nat, sealed: Option<Sealed>)
    requires j < |s.jobs| && s.jobs[j].Returned?
    ensures var s1 := FinishJob(c, s, j, sealed);
            && |s1.jobs| == |s.jobs| && (forall k | 0 <= k < |s.jobs| && k != j :: s1.jobs[k] == s.jobs[k])
            && (s1.jobs[j].Over? || (s1.jobs[j].Returned? && s1.jobs[j].ran.Raised? && s1.jobs[j].item == s.jobs[j].item))
            && s1.made == s.made && s1.live == s.live
  {
    hide Complete, Fail;
  }

  lemma FinishKeys(c: Config, s: State, j: nat, sealed: Option<Sealed>, id: string)
    requires j < |s.jobs| && s.jobs[j].Returned? && id in s.tables.bindings
    ensures var t1 := FinishJob(c, s, j, sealed).tables;
            && id in t1.bindings
            && (t1.bindings[id].keyId == s.tables.bindings[id].keyId || StoresKey(s, j, id, t1.bindings[id].keyId))
  {
    hide KeyIdUsed, RemoteFieldsComplete, Delay;
  }

  /** A job's end makes no row claimable, or open, that was not, and completes its own at most. */
  lemma FinishRow(c: Config, s: State, j: nat, sealed: Option<Sealed>, i: nat)
    requires j < |s.jobs| && s.jobs[j].Returned? && i < |s.tables.items|
    ensures var items := FinishJob(c, s, j, sealed).tables.items; var row := s.tables.items[i];
            && i < |items|
            && (items[i] == row || (row.status.Processing? && s.jobs[j].item == i &&
                  if items[i].status.Completed? then s.jobs[j].ran.Did?
                  else items[i].status.Failed? && (items[i].attempts == row.attempts || items[i].attempts == c.maxAttempts)))
  {
    hide WithKey, KeyIdUsed, RemoteFieldsComplete, Delay;
  }

  // ---------------------------------------------------------------- every step keeps the keys with their owners

  lemma StagingOwns(c: Config, s: State, step: Step)
    requires Inv(c, s) && KeysHold(s) && StagingStep(step)
    ensures KeysHold(Take(c, s, step))
  {
    StagingAdds(c, s, step);
    var s1 := Take(c, s, step);
    hide Take, Adds;
    if s1 != s { AddedOwns(s, s1, step.id, step.StopCaller?); }
  }

  lemma AddedOwns(s: State, s1: State, id: string, disables: bool)
    requires JobsHold(s) && KeysHold(s) && s1 == s.(tables := s1.tables) && Adds(s.tables, s1.tables, id, disables)
    ensures KeysHold(s1)
  {
    hide Owned;
    forall i | 0 <= i < |s.tables.items| ensures s1.tables.items[i] == s.tables.items[i] {
      assert s1.tables.items[..|s.tables.items|][i] == s.tables.items[i];
    }
    forall j | 0 <= j < |s1.jobs| ensures JobOwned(s1.tables.items, s1.made, s1.jobs[j]) {
      assert JobHolds(s.tables.items, s.jobs[j]) && JobOwned(s.tables.items, s.made, s.jobs[j]);
    }
    NoneOwned(s1.made, id);
    forall other | other in s1.tables.bindings ensures Owned(s1.made, other, s1.tables.bindings[other].keyId) {
      if other in s.tables.bindings { assert Owned(s.made, other, s.tables.bindings[other].keyId); }
    }
  }

  lemma NoneOwned(made: map<string, string>, id: string)
    ensures Owned(made, id, None)
  {
  }

  lemma FinishOwnsKey(c: Config, s: State, j: nat, sealed: Option<Sealed>, id: string)
    requires BindingsOwn(s) && JobsOwn(s) && j < |s.jobs| && s.jobs[j].Returned? && id in s.tables.bindings
    ensures var t1 := FinishJob(c, s, j, sealed).tables; id in t1.bindings && Owned(s.made, id, t1.bindings[id].keyId)
  {
    FinishKeys(c, s, j, sealed, id);
    hide FinishJob;
    assert Owned(s.made, id, s.tables.bindings[id].keyId) && JobOwned(s.tables.items, s.made, s.jobs[j]);
  }

  lemma FinishOwns(c: Config, s: State, j: nat, sealed: Option<Sealed>)
    requires Inv(c, s) && KeysHold(s) && j < |s.jobs| && s.jobs[j].Returned?
    ensures KeysHold(FinishJob(c, s, j, sealed))
  {
    var s1 := FinishJob(c, s, j, sealed);
    hide FinishJob, Owned, Stopped;
    FinishShape(c, s, j, sealed);
    FinishKeepsRows(c, s, j, sealed);
    hide Inv;
    forall id | id in s1.tables.bindings ensures Owned(s1.made, id, s1.tables.bindings[id].keyId) {
      FinishOwnsKey(c, s, j, sealed, id);
    }
    EndedOwns(s, s1, j);
    SameRowsDisable(s.tables, s1.tables);
  }

  lemma EndedOwns(s: State, s1: State, j: nat)
    requires JobsOwn(s) && RowsKept(s.tables.items, s1.tables.items) && |s1.tables.items| == |s.tables.items| && s1.made == s.made
    requires j < |s.jobs| && |s1.jobs| == |s.jobs| && forall k | 0 <= k < |s.jobs| && k != j :: s1.jobs[k] == s.jobs[k]
    requires s1.jobs[j].Over? || (s1.jobs[j].Returned? && s1.jobs[j].ran.Raised?)
    ensures JobsOwn(s1)
  {
    hide Owned;
    forall k | 0 <= k < |s1.jobs| ensures JobOwned(s1.tables.items, s1.made, s1.jobs[k]) {
      assert JobOwned(s.tables.items, s.made, s.jobs[k]);
    }
  }

  lemma SameRowsDisable(t: Tables, t1: Tables)
    requires OnlyStoppedDisable(t) && RowsKept(t.items, t1.items) && |t1.items| == |t.items| && t1.clients == t.clients
    ensures OnlyStoppedDisable(t1)
  {
    forall i | 0 <= i < |t1.items| && t1.items[i].action.Disable? ensures Stopped(t1, t1.items[i].client) {
      assert RowKept(t.items[i], t1.items[i]);
    }
  }

  lemma ClaimOwns(c: Config, s: State, step: Step)
    requires KeysHold(s) && step.ClaimRows?
    ensures KeysHold(Take(c, s, step))
  {
    hide Owned;
    if Chosen(c, s.tables.items, step.locked, step.now, step.picked) {
      ClaimShape(c, s, step);
      var s1 := Take(c, s, step);
      hide Take, Chosen, Claimable;
      forall j | 0 <= j < |s1.jobs| ensures JobOwned(s1.tables.items, s1.made, s1.jobs[j]) {
        if j < |s.jobs| { assert s1.jobs[j] == s.jobs[j] && JobOwned(s.tables.items, s.made, s.jobs[j]); }
      }
    }
  }

  lemma LoadOwns(c: Config, s: State, step: Step)
    requires KeysHold(s) && step.Load?
    ensures KeysHold(Take(c, s, step))
  {
    hide Owned;
  }

  /** A key the call answers with was made for that client, by this call or before. */
  lemma AnswerOwned(s: State, client: string, job: Job, remote: Remote, keys: KeyEffect)
    requires job.Loaded? && HonestCall(s, client, job, remote, keys)
    ensures keys.Makes? ==> keys.key !in s.made
    ensures keys.Darkens? ==> job.action.Disable? && job.keyId == Some(keys.key)
    ensures var ran := Execute(job.action, job.keyId, job.desired, remote);
            ran.Did? && ran.effect.Material? ==> Owned(MadeAfter(s, client, keys), client, Some(ran.effect.state.id))
  {
  }

  lemma MoreMade(s: State, made: map<string, string>)
    requires BindingsOwn(s) && JobsOwn(s) && s.made.Keys <= made.Keys && forall key | key in s.made :: made[key] == s.made[key]
    ensures forall id | id in s.tables.bindings :: Owned(made, id, s.tables.bindings[id].keyId)
    ensures forall j | 0 <= j < |s.jobs| :: JobOwned(s.tables.items, made, s.jobs[j])
  {
    forall j | 0 <= j < |s.jobs| ensures JobOwned(s.tables.items, made, s.jobs[j]) {
      assert JobOwned(s.tables.items, s.made, s.jobs[j]);
    }
  }

  lemma CallOwns(c: Config, s: State, step: Step)
    requires Inv(c, s) && KeysHold(s) && Honest(s, step) && step.Call?
    ensures KeysHold(Take(c, s, step))
  {
    if step.job < |s.jobs| && s.jobs[step.job].Loaded? {
      CallShape(c, s, step);
      var s1, job := Take(c, s, step), s.jobs[step.job];
      var client := s.tables.items[job.item].client;
      AnswerOwned(s, client, job, step.remote, step.keys);
      hide Take, Execute, Inv, HonestCall;
      MoreMade(s, s1.made);
      assert JobOwned(s.tables.items, s.made, job);
      assert step.keys.Darkens? ==> s.made[step.keys.key] == client && Stopped(s.tables, client);
      forall j | 0 <= j < |s1.jobs| ensures JobOwned(s1.tables.items, s1.made, s1.jobs[j]) {
        if j != step.job { assert s1.jobs[j] == s.jobs[j]; }
      }
    }
  }

  lemma TakeOwns(c: Config, s: State, step: Step)
    requires ValidConfig(c) && Inv(c, s) && KeysHold(s) && Honest(s, step)
    ensures KeysHold(Take(c, s, step))
  {
    hide Inv, KeysHold, Honest, FinishJob;
    match step {
      case ClaimRows(_, _, _) => ClaimOwns(c, s, step);
      case Load(_) => LoadOwns(c, s, step);
      case Call(_, _, _) => CallOwns(c, s, step);
      case Finish(j, sealed) => if j < |s.jobs| && s.jobs[j].Returned? { FinishOwns(c, s, j, sealed); }
      case _ => StagingOwns(c, s, step);
    }
  }

  lemma {:induction false} RunOwns(c: Config, steps: seq<Step>)
    requires ValidConfig(c) && HonestRun(c, INITIAL, steps)
    ensures KeysHold(Run(c, INITIAL, steps))
    decreases |steps|
  {
    hide Take, Honest, Inv;
    if steps != [] {
      var front := steps[..|steps| - 1];
      HonestPrefix(c, INITIAL, steps, |front|);
      RunOwns(c, front);
      RunHolds(c, front);
      assert Honest(Run(c, INITIAL, steps[..|front|]), steps[|front|]);
      TakeOwns(c, Run(c, INITIAL, front), steps[|front|]);
    }
  }

  lemma HonestPrefix(c: Config, s: State, steps: seq<Step>, k: nat)
    requires HonestRun(c, s, steps) && k <= |steps|
    ensures HonestRun(c, s, steps[..k])
  {
    hide Honest, Run;
    forall i | 0 <= i < k ensures Honest(Run(c, s, steps[..k][..i]), steps[..k][i]) { assert steps[..k][..i] == steps[..i]; }
  }
}
