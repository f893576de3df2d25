/** Every step of the outbox keeps its invariant. */
module OutboxProof {
  import opened Common
  import opened OutboxSpec
  import opened OutboxRun

  /** What no step changes of a row; a completed row is never changed at all. */
  predicate RowKept(a: Item, b: Item) {
    && a.client == b.client && a.action == b.action && a.idempotencyKey == b.idempotencyKey
    && a.version == b.version && a.desired == b.desired
    && (a.status.Completed? ==> a == b)
  }

  predicate RowsKept(a: seq<Item>, b: seq<Item>) { |a| <= |b| && forall i | 0 <= i < |a| :: RowKept(a[i], b[i]) }

  lemma JobsKept(s: State, items: seq<Item>)
    requires JobsHold(s) && RowsKept(s.tables.items, items)
    ensures forall j | 0 <= j < |s.jobs| :: JobHolds(items, s.jobs[j])
  {
  }

  lemma DoneKept(s: State, s1: State)
    requires DoneHolds(s) && RowsKept(s.tables.items, s1.tables.items) && s1.done == s.done
    ensures DoneHolds(s1)
  {
    forall k | 0 <= k < |s.done| ensures CompletionHolds(s1.tables.items, s.done[k]) {
      assert CompletionHolds(s.tables.items, s.done[k]);
    }
  }

  lemma NewestKept(t: Tables, t1: Tables)
    requires NewestExists(t) && RowsKept(t.items, t1.items) && t1.bindings.Keys == t.bindings.Keys
    requires forall id | id in t.bindings :: t1.bindings[id].version == t.bindings[id].version
    ensures NewestExists(t1)
  {
    forall id | id in t1.bindings ensures exists n :: Newest(t1, id, n) {
      var n :| Newest(t, id, n);
      assert Newest(t1, id, n);
    }
  }

  /** A binding's answer stands while its fields, its newest row and its completions do. */
  lemma SyncKept(s: State, s1: State, id: string)
    requires DoneHolds(s) && id in s.tables.bindings && SyncRight(s, id)
    requires RowsKept(s.tables.items, s1.tables.items) && id in s1.tables.bindings
    requires s1.tables.bindings[id] == s.tables.bindings[id] && LastDone(s1.done, id) == LastDone(s.done, id)
    ensures SyncRight(s1, id)
  {
    var last := LastDone(s.done, id);
    if last.Some? { assert CompletionHolds(s.tables.items, last.value); }
  }

  // ---------------------------------------------------------------- staging

  /** Every binding but this one has its newest row. */
  ghost predicate OthersNewest(t: Tables, id: string) {
    forall other | other in t.bindings && other != id :: exists n :: Newest(t, other, n)
  }

  lemma QueueKeeps(c: Config, s: State, t: Tables, id: string, action: Action, key: string, desired: Option<Spec>, now: int)
    requires ValidConfig(c) && JobsHold(s) && DoneHolds(s) && t.items == s.tables.items && id in t.bindings
    requires RowsHold(c, t) && FieldsHold(t) && OthersNewest(t, id) && (desired.Some? <==> !action.Disable?)
    requires forall other | other in t.bindings && other != id ::
      other in s.tables.bindings && SyncRight(s, other) && s.tables.bindings[other] == t.bindings[other]
    requires Queue(t, id, action, key, desired, now).Commits?
    ensures Inv(c, s.(tables := Queue(t, id, action, key, desired, now).tables))
  {
    var t1 := Queue(t, id, action, key, desired, now).tables;
    var s1 := s.(tables := t1);
    QueueRows(c, t, id, action, key, desired, now);
    QueueNewest(t, id, action, key, desired, now);
    QueueShape(t, id, action, key, desired, now);
    hide RowsHold, SyncRight, DoneHolds, NewestExists, OthersNewest, FieldsHold, Queue, RowsKept, JobHolds;
    QueueSyncs(c, s, t, t1, id);
    JobsKept(s, t1.items);
    DoneKept(s, s1);
  }

  lemma QueueSyncs(c: Config, s: State, t: Tables, t1: Tables, id: string)
    requires DoneHolds(s) && t.items == s.tables.items && RowsHold(c, t) && id in t.bindings && RowsKept(t.items, t1.items)
    requires forall other | other in t.bindings && other != id ::
      other in s.tables.bindings && SyncRight(s, other) && s.tables.bindings[other] == t.bindings[other]
    requires t1.bindings.Keys == t.bindings.Keys && t1.bindings[id].version > t.bindings[id].version && t1.bindings[id].sync.Pending?
    requires forall other | other in t.bindings && other != id :: t1.bindings[other] == t.bindings[other]
    ensures SyncHolds(s.(tables := t1))
  {
    hide RowsHold, SyncRight, DoneHolds, RowsKept;
    QueueUnsettles(c, s, t, t1, id);
    forall other | other in t1.bindings ensures SyncRight(s.(tables := t1), other) {
      if other != id { SyncKept(s, s.(tables := t1), other); }
    }
  }

  lemma QueueShape(t: Tables, id: string, action: Action, key: string, desired: Option<Spec>, now: int)
    requires id in t.bindings && FieldsHold(t) && Queue(t, id, action, key, desired, now).Commits?
    ensures var t1 := Queue(t, id, action, key, desired, now).tables;
            && FieldsHold(t1) && RowsKept(t.items, t1.items)
            && t1.bindings.Keys == t.bindings.Keys && t1.bindings[id].version > t.bindings[id].version && t1.bindings[id].sync.Pending?
            && forall other | other in t.bindings && other != id :: t1.bindings[other] == t.bindings[other]
  {
    hide KeyUsed;
  }

  lemma QueueNewest(t: Tables, id: string, action: Action, key: string, desired: Option<Spec>, now: int)
    requires id in t.bindings && OthersNewest(t, id) && Queue(t, id, action, key, desired, now).Commits?
    ensures NewestExists(Queue(t, id, action, key, desired, now).tables)
  {
    var t1 := Queue(t, id, action, key, desired, now).tables;
    assert Newest(t1, id, |t.items|);
    forall other | other in t1.bindings && other != id ensures exists n :: Newest(t1, other, n) {
      var n :| Newest(t, other, n);
      assert Newest(t1, other, n);
    }
  }

  lemma QueueUnsettles(c: Config, s: State, t: Tables, t1: Tables, id: string)
    requires DoneHolds(s) && t.items == s.tables.items && RowsHold(c, t) && id in t.bindings
    requires RowsKept(t.items, t1.items) && id in t1.bindings && t1.bindings[id].version > t.bindings[id].version
    requires t1.bindings[id].sync.Pending?
    ensures SyncRight(s.(tables := t1), id)
  {
    var last := LastDone(s.done, id);
    if last.Some? {
      assert CompletionHolds(t.items, last.value);
      assert RowHolds(c, t, t.items[last.value.item]);
    }
  }

  lemma QueueRows(c: Config, t: Tables, id: string, action: Action, key: string, desired: Option<Spec>, now: int)
    requires RowsHold(c, t) && id in t.bindings && Queue(t, id, action, key, desired, now).Commits?
    requires desired.Some? <==> !action.Disable?
    ensures RowsHold(c, Queue(t, id, action, key, desired, now).tables)
  {
    var t1 := Queue(t, id, action, key, desired, now).tables;
    forall i | 0 <= i < |t1.items| ensures RowHolds(c, t1, t1.items[i]) {
      if i < |t.items| { assert RowHolds(c, t, t.items[i]); }
    }
    forall i, j | 0 <= i < j < |t1.items| && t1.items[i].client == t1.items[j].client
      ensures t1.items[i].version < t1.items[j].version
    {
      assert RowHolds(c, t, t.items[i]);
    }
  }

  /** The tables with a fresh binding, before anything is staged for it. */
  lemma FreshBinding(c: Config, t: Tables, t1: Tables, id: string, user: NonEmptyString)
    requires RowsHold(c, t) && FieldsHold(t) && NewestExists(t) && id !in t.bindings
    requires t1 == Tables(t.clients[id := ClientActive], t.bindings[id := Binding(Some(user), None, None, None, Pending, 1)], t.items)
    ensures RowsHold(c, t1) && FieldsHold(t1) && OthersNewest(t1, id)
  {
    FreshFields(c, t, t1, id, user);
    hide RowsHold, FieldsHold;
    forall other | other in t1.bindings && other != id ensures exists n :: Newest(t1, other, n) {
      var n :| Newest(t, other, n);
      assert Newest(t1, other, n);
    }
  }

  lemma FreshFields(c: Config, t: Tables, t1: Tables, id: string, user: NonEmptyString)
    requires RowsHold(c, t) && FieldsHold(t) && id !in t.bindings
    requires t1 == Tables(t.clients[id := ClientActive], t.bindings[id := Binding(Some(user), None, None, None, Pending, 1)], t.items)
    ensures RowsHold(c, t1) && FieldsHold(t1)
  {
    forall i | 0 <= i < |t1.items| ensures RowHolds(c, t1, t1.items[i]) { assert RowHolds(c, t, t.items[i]); }
  }

  lemma NewCallerKeeps(c: Config, s: State, step: Step)
    requires ValidConfig(c) && Inv(c, s) && step.NewCaller?
    ensures Inv(c, Take(c, s, step))
  {
    var id := step.id;
    hide RowsHold, FieldsHold, NewestExists, OthersNewest, JobsHold, DoneHolds, SyncRight, Queue, ServiceUserUsed;
    if CreateCaller(s.tables, id, step.user, step.key, step.spec, step.now).Commits? {
      var b := Binding(Some(step.user), None, None, None, Pending, 1);
      var t := Tables(s.tables.clients[id := ClientActive], s.tables.bindings[id := b], s.tables.items);
      FreshBinding(c, s.tables, t, id, step.user);
      QueueKeeps(c, s, t, id, Create, step.key, Some(step.spec), step.now);
    }
  }

  lemma SyncCallerKeeps(c: Config, s: State, step: Step)
    requires ValidConfig(c) && Inv(c, s) && step.SyncCaller?
    ensures Inv(c, Take(c, s, step))
  {
    if step.id in s.tables.bindings && StageSync(s.tables, step.id, step.action, step.key, step.spec, step.now).Commits? {
      assert OthersNewest(s.tables, step.id);
      QueueKeeps(c, s, s.tables, step.id, step.action, step.key, Some(step.spec), step.now);
    }
  }

  lemma StoppedClient(c: Config, t: Tables, t1: Tables, id: string)
    requires RowsHold(c, t) && FieldsHold(t) && NewestExists(t) && id in t.clients
    requires t1 == t.(clients := t.clients[id := ClientDisabled])
    ensures RowsHold(c, t1) && FieldsHold(t1) && OthersNewest(t1, id)
  {
    forall i | 0 <= i < |t1.items| ensures RowHolds(c, t1, t1.items[i]) { assert RowHolds(c, t, t.items[i]); }
    forall other | other in t1.bindings ensures exists n :: Newest(t1, other, n) {
      var n :| Newest(t, other, n);
      assert Newest(t1, other, n);
    }
  }

  lemma StopCallerKeeps(c: Config, s: State, step: Step)
    requires ValidConfig(c) && Inv(c, s) && step.StopCaller?
    ensures Inv(c, Take(c, s, step))
  {
    var id := step.id;
    assert s.tables.bindings.Keys == s.tables.clients.Keys;
    hide RowsHold, FieldsHold, NewestExists, OthersNewest, JobsHold, DoneHolds, SyncRight, Queue;
    if id in s.tables.bindings && s.tables.clients[id].ClientActive? && DisableCaller(s.tables, id, step.key, step.now).Commits? {
      var t := s.tables.(clients := s.tables.clients[id := ClientDisabled]);
      StoppedClient(c, s.tables, t, id);
      QueueKeeps(c, s, t, id, Disable, step.key, None, step.now);
    }
  }

  // ---------------------------------------------------------------- the worker

  lemma ClaimKeeps(c: Config, s: State, step: Step)
    requires Inv(c, s) && step.ClaimRows?
    ensures Inv(c, Take(c, s, step))
  {
    var s1 := Take(c, s, step);
    if Chosen(c, s.tables.items, step.locked, step.now, step.picked) {
      forall i | 0 <= i < |s.tables.items| ensures RowKept(s.tables.items[i], s1.tables.items[i]) && RowHolds(c, s1.tables, s1.tables.items[i]) {
        assert RowHolds(c, s.tables, s.tables.items[i]);
        if i in step.picked { assert Open(c, s.tables.items, step.locked, step.now, i); }
      }
      JobsKept(s, s1.tables.items);
      DoneKept(s, s1);
      NewestKept(s.tables, s1.tables);
      forall id | id in s1.tables.bindings ensures SyncRight(s1, id) { SyncKept(s, s1, id); }
    }
  }

  lemma ExecuteRight(item: Item, keyId: Option<string>, remote: Remote)
    ensures var ran := Execute(item.action, keyId, item.desired, remote); ran.Did? ==> EffectRight(item, ran.effect)
  {
  }

  lemma JobStepKeeps(c: Config, s: State, step: Step)
    requires Inv(c, s) && (step.Load? || step.Call?)
    ensures Inv(c, Take(c, s, step))
  {
    hide RowsHold, FieldsHold, NewestExists, SyncRight, DoneHolds, Execute;
    var s1 := Take(c, s, step);
    if step.Call? && step.job < |s.jobs| && s.jobs[step.job].Loaded? {
      assert JobHolds(s.tables.items, s.jobs[step.job]);
      ExecuteRight(s.tables.items[s.jobs[step.job].item], s.jobs[step.job].keyId, step.remote);
    }
    if step.Load? && step.job < |s.jobs| { assert JobHolds(s.tables.items, s.jobs[step.job]); }
    DoneKept(s, s1);
    forall id | id in s1.tables.bindings ensures SyncRight(s1, id) { SyncKept(s, s1, id); }
  }

  lemma FailRows(c: Config, t: Tables, i: nat, retryable: bool, now: int)
    requires RowsHold(c, t) && NewestExists(t)
    ensures var t1 := Fail(c, t, i, retryable, now);
            && RowsHold(c, t1) && NewestExists(t1) && RowsKept(t.items, t1.items) && t1.bindings.Keys == t.bindings.Keys
            && |t1.items| == |t.items|
  {
    var t1 := Fail(c, t, i, retryable, now);
    FailVersions(c, t, i, retryable, now);
    forall k | 0 <= k < |t.items| ensures RowKept(t.items[k], t1.items[k]) && RowHolds(c, t1, t1.items[k]) {
      assert RowHolds(c, t, t.items[k]);
      FailRow(c, t, i, retryable, now, k);
    }
    NewestKept(t, t1);
  }

  lemma FailFields(c: Config, t: Tables, i: nat, retryable: bool, now: int)
    requires FieldsHold(t)
    ensures FieldsHold(Fail(c, t, i, retryable, now))
  {
  }

  lemma CompleteFields(t: Tables, i: nat, effect: Effect, sealed: Option<Sealed>)
    requires FieldsHold(t) && Complete(t, i, effect, sealed).Commits?
    ensures FieldsHold(Complete(t, i, effect, sealed).tables)
  {
  }

  lemma FailVersions(c: Config, t: Tables, i: nat, retryable: bool, now: int)
    requires RowsHold(c, t)
    ensures var t1 := Fail(c, t, i, retryable, now);
            && t1.clients == t.clients && t1.bindings.Keys == t.bindings.Keys && |t1.items| == |t.items|
            && forall id | id in t.bindings :: t1.bindings[id].version == t.bindings[id].version
  {
  }

  lemma FailRow(c: Config, t: Tables, i: nat, retryable: bool, now: int, k: nat)
    requires k < |t.items| && t.items[k].attempts <= c.maxAttempts
    requires t.items[k].status.Processing? ==> t.items[k].attempts > 0 && t.items[k].lockedAt.Some?
    ensures var row := Fail(c, t, i, retryable, now).items[k];
            && RowKept(t.items[k], row) && row.attempts <= c.maxAttempts
            && (row.status.Processing? ==> row.attempts > 0 && row.lockedAt.Some?)
  {
  }

  lemma FailSync(c: Config, s: State, s1: State, i: nat, retryable: bool, now: int, id: string)
    requires RowsHold(c, s.tables) && DoneHolds(s) && SyncHolds(s) && DoneHolds(s1)
    requires s1.tables == Fail(c, s.tables, i, retryable, now) && s1.done == s.done && id in s.tables.bindings
    requires RowsKept(s.tables.items, s1.tables.items) && |s1.tables.items| == |s.tables.items| && id in s1.tables.bindings
    ensures SyncRight(s1, id)
  {
    if s1.tables.bindings[id] == s.tables.bindings[id] {
      SyncKept(s, s1, id);
    } else {
      FailUnsettled(c, s, s1, id, i);
    }
  }

  lemma FailKeeps(c: Config, s: State, j: nat)
    requires Inv(c, s) && j < |s.jobs| && s.jobs[j].Returned? && s.jobs[j].ran.Raised?
    ensures Inv(c, FinishJob(c, s, j, None))
  {
    var job := s.jobs[j];
    var s1 := FinishJob(c, s, j, None);
    assert s1 == s.(tables := Fail(c, s.tables, job.item, job.ran.retryable, job.now), jobs := s.jobs[j := Over]);
    hide FinishJob, RowsHold, FieldsHold, NewestExists, Fail, SyncRight, RowsKept, JobHolds, DoneHolds;
    FailRows(c, s.tables, job.item, job.ran.retryable, job.now);
    FailFields(c, s.tables, job.item, job.ran.retryable, job.now);
    JobsKept(s, s1.tables.items);
    OneOver(s, s1, j);
    DoneKept(s, s1);
    forall id | id in s1.tables.bindings ensures SyncRight(s1, id) {
      FailSync(c, s, s1, job.item, job.ran.retryable, job.now, id);
    }
  }

  /** A finished job asks nothing. */
  lemma OneOver(s: State, s1: State, j: nat)
    requires j < |s.jobs| && s1.jobs == s.jobs[j := Over]
    requires forall k | 0 <= k < |s.jobs| :: JobHolds(s1.tables.items, s.jobs[k])
    ensures JobsHold(s1)
  {
  }

  /** A binding whose newest row has failed has no completion of it. */
  lemma FailUnsettled(c: Config, s: State, s1: State, id: string, i: nat)
    requires RowsHold(c, s.tables) && DoneHolds(s1) && s1.done == s.done && RowsKept(s.tables.items, s1.tables.items)
    requires id in s1.tables.bindings && Newest(s1.tables, id, i) && i < |s.tables.items| && !s1.tables.items[i].status.Completed?
    requires |s1.tables.items| == |s.tables.items|
    ensures !Settled(s1, id)
  {
    var last := LastDone(s1.done, id);
    if last.Some? {
      var n := last.value.item;
      assert CompletionHolds(s1.tables.items, last.value);
      if n < i { assert s.tables.items[n].version < s.tables.items[i].version; }
      if i < n { assert s.tables.items[i].version < s.tables.items[n].version; }
    }
  }

  /** The binding of the row just completed is in step exactly when that row is its newest. */
  lemma CompleteSync(s: State, s1: State, i: nat, effect: Effect, sealed: Option<Sealed>)
    requires i < |s.tables.items| && s.tables.items[i].status.Processing? && s.tables.items[i].client in s.tables.bindings
    requires Complete(s.tables, i, effect, sealed) == Commits(s1.tables) && EffectRight(s.tables.items[i], effect)
    requires s1.done == s.done + [Completion(s.tables.items[i].client, i, effect)]
    ensures s.tables.items[i].client in s1.tables.bindings && SyncRight(s1, s.tables.items[i].client)
  {
    var id := s.tables.items[i].client;
    assert LastDone(s1.done, id) == Some(Completion(id, i, effect));
  }

  lemma OthersLast(done: seq<Completion>, d: Completion, id: string)
    requires d.client != id
    ensures LastDone(done + [d], id) == LastDone(done, id)
  {
    assert (done + [d])[..|done|] == done;
  }

  lemma CompleteKeeps(c: Config, s: State, s1: State, i: nat, effect: Effect, sealed: Option<Sealed>)
    requires Inv(c, s) && i < |s.tables.items| && s.tables.items[i].status.Processing? && EffectRight(s.tables.items[i], effect)
    requires Complete(s.tables, i, effect, sealed) == Commits(s1.tables)
    requires s1.done == s.done + [Completion(s.tables.items[i].client, i, effect)]
    ensures RowsHold(c, s1.tables) && NewestExists(s1.tables) && DoneHolds(s1) && SyncHolds(s1)
    ensures RowsKept(s.tables.items, s1.tables.items)
  {
    hide Complete;
    CompleteRows(c, s, i, effect, sealed);
    CompletesRow(s.tables, i, effect, sealed);
    CompleteDone(s, s1, i, effect);
    NewestKept(s.tables, s1.tables);
    CompleteSyncs(c, s, s1, i, effect, sealed);
  }

  lemma CompletesRow(t: Tables, i: nat, effect: Effect, sealed: Option<Sealed>)
    requires i < |t.items| && t.items[i].status.Processing? && Complete(t, i, effect, sealed).Commits?
    ensures var t1 := Complete(t, i, effect, sealed).tables; i < |t1.items| && t1.items[i].status.Completed?
  {
  }

  lemma FinishCommits(c: Config, s: State, j: nat, sealed: Option<Sealed>)
    requires Inv(c, s) && j < |s.jobs| && s.jobs[j].Returned? && s.jobs[j].ran.Did?
    requires Complete(s.tables, s.jobs[j].item, s.jobs[j].ran.effect, sealed).Commits?
    requires s.jobs[j].item < |s.tables.items| && s.tables.items[s.jobs[j].item].status.Processing?
    ensures Inv(c, FinishJob(c, s, j, sealed))
  {
    hide Complete, SyncHolds, NewestExists, RowsHold, FieldsHold;
    CompleteFields(s.tables, s.jobs[j].item, s.jobs[j].ran.effect, sealed);
    var s1 := FinishJob(c, s, j, sealed);
    assert JobHolds(s.tables.items, s.jobs[j]);
    CompleteKeeps(c, s, s1, s.jobs[j].item, s.jobs[j].ran.effect, sealed);
    JobsKept(s, s1.tables.items);
  }

  lemma CompleteSyncs(c: Config, s: State, s1: State, i: nat, effect: Effect, sealed: Option<Sealed>)
    requires RowsHold(c, s.tables) && DoneHolds(s) && SyncHolds(s)
    requires i < |s.tables.items| && s.tables.items[i].status.Processing? && EffectRight(s.tables.items[i], effect)
    requires Complete(s.tables, i, effect, sealed) == Commits(s1.tables) && RowsKept(s.tables.items, s1.tables.items)
    requires s1.done == s.done + [Completion(s.tables.items[i].client, i, effect)]
    ensures SyncHolds(s1)
  {
    assert RowHolds(c, s.tables, s.tables.items[i]);
    forall id | id in s1.tables.bindings ensures SyncRight(s1, id) {
      if id == s.tables.items[i].client {
        CompleteSync(s, s1, i, effect, sealed);
      } else {
        OthersLast(s.done, Completion(s.tables.items[i].client, i, effect), id);
        SyncKept(s, s1, id);
      }
    }
  }

  /** A completion that finds the row no longer processing, or rolls back, changes no table. */
  lemma IdleFinishKeeps(c: Config, s: State, j: nat, sealed: Option<Sealed>)
    requires Inv(c, s) && j < |s.jobs| && s.jobs[j].Returned? && s.jobs[j].ran.Did?
    requires s.jobs[j].item < |s.tables.items| && s.tables.items[s.jobs[j].item].status.Processing? ==>
      Complete(s.tables, s.jobs[j].item, s.jobs[j].ran.effect, sealed).Aborts?
    ensures Inv(c, FinishJob(c, s, j, sealed))
  {
    hide RowsHold, FieldsHold, NewestExists, SyncRight, DoneHolds;
    var s1 := FinishJob(c, s, j, sealed);
    assert JobHolds(s.tables.items, s.jobs[j]);
    assert s1.tables == s.tables && s1.done == s.done;
    DoneKept(s, s1);
    forall id | id in s1.tables.bindings ensures SyncRight(s1, id) { SyncKept(s, s1, id); }
  }

  lemma CompleteRows(c: Config, s: State, i: nat, effect: Effect, sealed: Option<Sealed>)
    requires RowsHold(c, s.tables) && i < |s.tables.items| && s.tables.items[i].status.Processing?
    requires Complete(s.tables, i, effect, sealed).Commits?
    ensures var t1 := Complete(s.tables, i, effect, sealed).tables;
            && RowsHold(c, t1) && RowsKept(s.tables.items, t1.items) && t1.bindings.Keys == s.tables.bindings.Keys
            && forall id | id in s.tables.bindings :: t1.bindings[id].version == s.tables.bindings[id].version
  {
    var t1 := Complete(s.tables, i, effect, sealed).tables;
    forall k | 0 <= k < |t1.items| ensures RowHolds(c, t1, t1.items[k]) {
      assert RowHolds(c, s.tables, s.tables.items[k]);
    }
  }

  lemma CompleteDone(s: State, s1: State, i: nat, effect: Effect)
    requires DoneHolds(s) && i < |s.tables.items| && s.tables.items[i].status.Processing?
    requires RowsKept(s.tables.items, s1.tables.items) && i < |s1.tables.items| && s1.tables.items[i].status.Completed?
    requires s1.done == s.done + [Completion(s.tables.items[i].client, i, effect)] && EffectRight(s.tables.items[i], effect)
    ensures DoneHolds(s1)
  {
    forall k | 0 <= k < |s.done| ensures CompletionHolds(s1.tables.items, s.done[k]) && s.done[k].item != i {
      assert CompletionHolds(s.tables.items, s.done[k]);
    }
  }

  lemma FinishKeeps(c: Config, s: State, j: nat, sealed: Option<Sealed>)
    requires Inv(c, s) && j < |s.jobs| && s.jobs[j].Returned?
    ensures Inv(c, FinishJob(c, s, j, sealed))
  {
    var i, ran := s.jobs[j].item, s.jobs[j].ran;
    if ran.Raised? {
      FailKeeps(c, s, j);
    } else if i < |s.tables.items| && s.tables.items[i].status.Processing? && Complete(s.tables, i, ran.effect, sealed).Commits? {
      FinishCommits(c, s, j, sealed);
    } else {
      IdleFinishKeeps(c, s, j, sealed);
    }
  }

  lemma TakeKeeps(c: Config, s: State, step: Step)
    requires ValidConfig(c) && Inv(c, s)
    ensures Inv(c, Take(c, s, step))
  {
    match step {
      case NewCaller(_, _, _, _, _) => NewCallerKeeps(c, s, step);
      case SyncCaller(_, _, _, _, _) => SyncCallerKeeps(c, s, step);
      case StopCaller(_, _, _) => StopCallerKeeps(c, s, step);
      case ClaimRows(_, _, _) => ClaimKeeps(c, s, step);
      case Load(_) => JobStepKeeps(c, s, step);
      case Call(_, _, _) => JobStepKeeps(c, s, step);
      case Finish(j, sealed) =>
        if j < |s.jobs| && s.jobs[j].Returned? {
          FinishKeeps(c, s, j, sealed);
        }
    }
  }

  lemma {:induction false} RunHolds(c: Config, steps: seq<Step>)
    requires ValidConfig(c)
    ensures Inv(c, Run(c, INITIAL, steps))
    decreases |steps|
  {
    if steps != [] {
      RunHolds(c, steps[..|steps| - 1]);
      TakeKeeps(c, Run(c, INITIAL, steps[..|steps| - 1]), steps[|steps| - 1]);
    }
  }
}
