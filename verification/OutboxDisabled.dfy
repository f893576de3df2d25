/** A disabled caller's binding: exactly when it can become active again. */
module OutboxDisabled {
  import opened Common
  import opened OutboxSpec
  import opened OutboxRun
  import opened OutboxProof
  import opened OutboxTheorems
  import opened OutboxStepping

  // ---------------------------------------------------------------- staging while active keeps it down

  /** The rows staged last for disabled callers ask to disable. */
  predicate DownHolds(t: Tables) {
    forall i | 0 <= i < |t.items| && DownNewest(t, i) :: t.items[i].action.Disable?
  }

  predicate DownNewest(t: Tables, i: nat) {
    i < |t.items| && Newest(t, t.items[i].client, i) && t.items[i].client in t.clients && t.clients[t.items[i].client].ClientDisabled?
  }

  /** A configuration is staged only for a client that is not disabled. */
  predicate StagedWhileActive(s: State, step: Step) {
    step.SyncCaller? && step.id in s.tables.bindings && step.id in s.tables.clients && s.tables.clients[step.id].ClientDisabled? ==>
      StageSync(s.tables, step.id, step.action, step.key, step.spec, step.now).Aborts?
  }

  ghost predicate AllStagedWhileActive(c: Config, steps: seq<Step>) {
    forall k | 0 <= k < |steps| :: StagedWhileActive(Run(c, INITIAL, steps[..k]), steps[k])
  }

  lemma QueueDown(t: Tables, t1: Tables, id: string, action: Action, key: string, desired: Option<Spec>, now: int)
    requires id in t.bindings && Queue(t, id, action, key, desired, now) == Commits(t1)
    requires forall i | 0 <= i < |t.items| && t.items[i].client != id && DownNewest(t, i) :: t.items[i].action.Disable?
    requires forall i | 0 <= i < |t.items| && t.items[i].client == id :: t.items[i].version <= t.bindings[id].version
    requires action.Disable? || id !in t.clients || !t.clients[id].ClientDisabled?
    ensures DownHolds(t1)
  {
    forall i | 0 <= i < |t1.items| && DownNewest(t1, i) ensures t1.items[i].action.Disable? {
      if i < |t.items| && t.items[i].client != id { assert DownNewest(t, i); }
    }
  }

  lemma DownStep(c: Config, s: State, step: Step)
    requires ValidConfig(c) && Inv(c, s) && DownHolds(s.tables) && StagedWhileActive(s, step)
    ensures DownHolds(Take(c, s, step).tables)
  {
    forall i | 0 <= i < |s.tables.items| ensures RowHolds(c, s.tables, s.tables.items[i]) {}
    match step {
      case NewCaller(id, user, key, spec, now) => NewCallerDown(c, s, id, user, key, spec, now);
      case SyncCaller(id, action, key, spec, now) =>
        if id in s.tables.bindings && StageSync(s.tables, id, action, key, spec, now).Commits? {
          QueueDown(s.tables, Take(c, s, step).tables, id, action, key, Some(spec), now);
        }
      case StopCaller(id, key, now) => StopCallerDown(c, s, id, key, now);
      case ClaimRows(_, _, _) => WorkerDown(c, s, step);
      case Load(_) =>
      case Call(_, _, _) =>
      case Finish(_, _) => WorkerDown(c, s, step);
    }
  }

  lemma NewCallerDown(c: Config, s: State, id: string, user: NonEmptyString, key: string, spec: Spec, now: int)
    requires Inv(c, s) && DownHolds(s.tables)
    ensures DownHolds(After(s.tables, CreateCaller(s.tables, id, user, key, spec, now)))
  {
    var txn := CreateCaller(s.tables, id, user, key, spec, now);
    if txn.Commits? {
      var b := Binding(Some(user), None, None, None, Pending, 1);
      var t := Tables(s.tables.clients[id := ClientActive], s.tables.bindings[id := b], s.tables.items);
      forall i | 0 <= i < |t.items| ensures t.items[i].client != id && (DownNewest(t, i) ==> t.items[i].action.Disable?) {
        assert RowHolds(c, s.tables, s.tables.items[i]);
        assert DownNewest(t, i) ==> DownNewest(s.tables, i);
      }
      QueueDown(t, txn.tables, id, Create, key, Some(spec), now);
    }
  }

  lemma StopCallerDown(c: Config, s: State, id: string, key: string, now: int)
    requires Inv(c, s) && DownHolds(s.tables)
    ensures DownHolds(After(s.tables, DisableCaller(s.tables, id, key, now)))
  {
    var txn := DisableCaller(s.tables, id, key, now);
    if txn.Commits? && !s.tables.clients[id].ClientDisabled? {
      var t := s.tables.(clients := s.tables.clients[id := ClientDisabled]);
      forall i | 0 <= i < |t.items|
        ensures (t.items[i].client != id && DownNewest(t, i) ==> t.items[i].action.Disable?)
        ensures t.items[i].client == id ==> t.items[i].version <= t.bindings[id].version
      {
        assert RowHolds(c, s.tables, s.tables.items[i]);
        assert t.items[i].client != id && DownNewest(t, i) ==> DownNewest(s.tables, i);
      }
      QueueDown(t, txn.tables, id, Disable, key, None, now);
    }
  }

  /** Workers change no version, no action and no client. */
  lemma WorkerDown(c: Config, s: State, step: Step)
    requires ValidConfig(c) && Inv(c, s) && DownHolds(s.tables) && (step.ClaimRows? || step.Finish?)
    ensures DownHolds(Take(c, s, step).tables)
  {
    var t, t1 := s.tables, Take(c, s, step).tables;
    WorkerKeeps(c, s, step);
    forall i | 0 <= i < |t1.items| && DownNewest(t1, i) ensures t1.items[i].action.Disable? {
      assert RowKept(t.items[i], t1.items[i]) && RowHolds(c, t, t.items[i]);
      assert DownNewest(t, i);
    }
  }

  lemma {:induction false} RunDown(c: Config, steps: seq<Step>)
    requires ValidConfig(c) && AllStagedWhileActive(c, steps)
    ensures DownHolds(Run(c, INITIAL, steps).tables)
    decreases |steps|
  {
    if steps != [] {
      var front := steps[..|steps| - 1];
      forall k | 0 <= k < |front| ensures StagedWhileActive(Run(c, INITIAL, front[..k]), front[k]) {
        assert front[..k] == steps[..k] && front[k] == steps[k];
      }
      RunDown(c, front);
      RunHolds(c, front);
      assert StagedWhileActive(Run(c, INITIAL, steps[..|steps| - 1]), steps[|steps| - 1]);
      DownStep(c, Run(c, INITIAL, front), steps[|steps| - 1]);
    }
  }

  lemma {:induction false} WorkersKeepDown(c: Config, s: State, ws: seq<Step>)
    requires ValidConfig(c) && Inv(c, s) && DownHolds(s.tables) && WorkerSteps(ws)
    ensures Inv(c, Run(c, s, ws)) && DownHolds(Run(c, s, ws).tables)
    decreases |ws|
  {
    hide Inv, DownHolds, Take, StagedWhileActive;
    if ws != [] {
      var front, last := ws[..|ws| - 1], ws[|ws| - 1];
      WorkersKeepDown(c, s, front);
      TakeKeeps(c, Run(c, s, front), last);
      WorkersStageNothing(Run(c, s, front), last);
      DownStep(c, Run(c, s, front), last);
    }
  }

  lemma WorkersStageNothing(s: State, step: Step)
    requires WorkerStep(step)
    ensures StagedWhileActive(s, step)
  {
  }

  /** No disabled caller's binding is active. */
  predicate DisabledAreDown(t: Tables) {
    forall id | id in t.clients && id in t.bindings && t.clients[id].ClientDisabled? :: !t.bindings[id].sync.Active?
  }

  lemma DownMeansDown(c: Config, s: State)
    requires Inv(c, s) && DownHolds(s.tables)
    ensures DisabledAreDown(s.tables)
  {
    forall id | id in s.tables.clients && id in s.tables.bindings && s.tables.clients[id].ClientDisabled?
      ensures !s.tables.bindings[id].sync.Active?
    {
      assert SyncRight(s, id);
      var last := LastDone(s.done, id);
      if last.Some? && Newest(s.tables, id, last.value.item) { assert DownNewest(s.tables, last.value.item); }
    }
  }

  // ---------------------------------------------------------------- staging while disabled can bring it up

  /** One worker takes the row n by itself and brings it to its end. */
  function Serve(s: State, n: nat, now: int, remote: Remote, keys: KeyEffect): seq<Step> {
    [ClaimRows(AllBut(|s.tables.items|, n), [n], now), Load(|s.jobs|), Call(|s.jobs|, remote, keys), Finish(|s.jobs|, SEALED)]
  }

  /** The last row, freshly staged, asking for a configuration its binding can take. */
  predicate Servable(s: State, n: nat, now: int) {
    && n + 1 == |s.tables.items| && s.tables.items[n].status.Waiting? && s.tables.items[n].attempts == 0
    && s.tables.items[n].availableAt <= now && s.tables.items[n].desired.Some?
    && Newest(s.tables, s.tables.items[n].client, n)
    && (if s.tables.items[n].action.Create? then s.tables.bindings[s.tables.items[n].client].keyId.None?
        else s.tables.items[n].action.Update? && s.tables.bindings[s.tables.items[n].client].keyId.Some?)
  }

  lemma CompletesOne(t: Tables, n: nat, effect: Effect)
    requires n < |t.items| && t.items[n].status.Processing? && Newest(t, t.items[n].client, n) && FieldsHold(t)
    requires !t.items[n].action.Disable?
    requires if effect.Material? then effect.state.isActive && !MultiLine(effect.state.id) && !KeyIdUsed(t, t.items[n].client, effect.state.id)
             else t.bindings[t.items[n].client].keyId.Some?
    ensures var txn := Complete(t, n, effect, SEALED);
            && txn.Commits? && txn.tables.clients == t.clients && t.items[n].client in txn.tables.bindings
            && txn.tables.bindings[t.items[n].client].sync.Active?
  {
    assert NonEmpty(t.bindings[t.items[n].client].serviceUser);
  }

  /** A willing remote and one undisturbed worker bring such a row's binding up. */
  lemma Serves(c: Config, s: State, n: nat, now: int) returns (ws: seq<Step>)
    requires ValidConfig(c) && FieldsHold(s.tables) && Servable(s, n, now)
    ensures WorkerSteps(ws)
    ensures var t := Run(c, s, ws).tables; var id := s.tables.items[n].client;
            t.clients == s.tables.clients && id in t.bindings && t.bindings[id].sync.Active?
  {
    var row, j := s.tables.items[n], |s.jobs|;
    var key := UnusedKey(s.tables, row.client, s.made.Keys);
    var remote := Granted(key, row.desired.value);
    var keys := if row.action.Create? then Makes(key) else Nothing;
    ws := Serve(s, n, now, remote, keys);
    RunFour(c, s, ws[0], ws[1], ws[2], ws[3]);
    hide Take, Run, Complete, Execute, KeyIdUsed, FieldsHold, MultiLine, Chosen, Granted;
    var s1 := Take(c, s, ws[0]);
    ClaimsAlone(c, s, n, now);
    SameBindings(s.tables, s1.tables, row.client, key);
    LoadsOne(c, s1, j, n, now);
    var s2 := Take(c, s1, ws[1]);
    HasKey(s.tables, row.client);
    WillingAnswers(row, s.tables.bindings[row.client].keyId, key);
    var effect := if row.action.Create? then Material(remote.created.value) else Stated(remote.created.value);
    CallsOne(c, s2, j, remote, keys, effect);
    var s3 := Take(c, s2, ws[2]);
    CompletesOne(s3.tables, n, effect);
    FinishesOne(c, s3, j, n, effect);
  }

  lemma SameBindings(t: Tables, t1: Tables, id: string, key: string)
    requires t1.bindings == t.bindings
    ensures FieldsHold(t) ==> FieldsHold(t1)
    ensures KeyIdUsed(t1, id, key) ==> KeyIdUsed(t, id, key)
  {
  }

  lemma HasKey(t: Tables, id: string)
    requires FieldsHold(t) && id in t.bindings
    ensures t.bindings[id].keyId.Some? ==> NonEmpty(t.bindings[id].keyId)
  {
  }

  /** Staged for a disabled client, either action that commits can bring its binding up. */
  lemma StagedWhileDisabled(c: Config, s: State, step: Step) returns (ws: seq<Step>)
    requires ValidConfig(c) && Inv(c, s) && !StagedWhileActive(s, step)
    ensures WorkerSteps(ws) && !DisabledAreDown(Run(c, Take(c, s, step), ws).tables)
  {
    var s1 := Take(c, s, step);
    TakeKeeps(c, s, step);
    var n := |s.tables.items|;
    assert Servable(s1, n, step.now);
    ws := Serves(c, s1, n, step.now);
    assert s1.tables.items[n].client == step.id && s1.tables.clients[step.id].ClientDisabled?;
  }

  // ---------------------------------------------------------------- exactly

  /** Whatever the workers may do next, from any moment of the run on, no disabled caller's binding is active. */
  ghost predicate StaysDown(c: Config, steps: seq<Step>) {
    forall k: nat, ws: seq<Step> | k <= |steps| && WorkerSteps(ws) :: DisabledAreDown(Run(c, Run(c, INITIAL, steps[..k]), ws).tables)
  }

  lemma AllStagedPrefix(c: Config, steps: seq<Step>, k: nat)
    requires AllStagedWhileActive(c, steps) && k <= |steps|
    ensures AllStagedWhileActive(c, steps[..k])
  {
    forall i | 0 <= i < k ensures StagedWhileActive(Run(c, INITIAL, steps[..k][..i]), steps[..k][i]) {
      assert steps[..k][..i] == steps[..i];
    }
  }

  /** A disabled caller's binding stays down, whatever the workers still have in hand, exactly when no
      configuration is ever staged for a disabled caller; the administration service stages none. */
  lemma DisabledStaysDownExactlyWhen(c: Config, steps: seq<Step>)
    requires ValidConfig(c)
    ensures AllStagedWhileActive(c, steps) <==> StaysDown(c, steps)
  {
    hide Run, Inv, DownHolds, DisabledAreDown, StagedWhileActive;
    if AllStagedWhileActive(c, steps) {
      forall k: nat, ws: seq<Step> | k <= |steps| && WorkerSteps(ws)
        ensures DisabledAreDown(Run(c, Run(c, INITIAL, steps[..k]), ws).tables)
      {
        AllStagedPrefix(c, steps, k);
        RunDown(c, steps[..k]);
        RunHolds(c, steps[..k]);
        WorkersKeepDown(c, Run(c, INITIAL, steps[..k]), ws);
        DownMeansDown(c, Run(c, Run(c, INITIAL, steps[..k]), ws));
      }
    } else {
      var k :| 0 <= k < |steps| && !StagedWhileActive(Run(c, INITIAL, steps[..k]), steps[k]);
      RunHolds(c, steps[..k]);
      var ws := StagedWhileDisabled(c, Run(c, INITIAL, steps[..k]), steps[k]);
      RunSnoc(c, INITIAL, steps, k);
      assert !DisabledAreDown(Run(c, Run(c, INITIAL, steps[..k + 1]), ws).tables);
    }
  }
}
