/** Exactly when a binding can count as disabled here while its key is active there. */
module OutboxLeaks {
  import opened Common
  import opened OutboxSpec
  import opened OutboxRun
  import opened OutboxProof
  import opened OutboxTheorems
  import opened OutboxStepping
  import opened OutboxKeys
  import opened OutboxSettled

  // ---------------------------------------------------------------- what an unsettled key leads to

  /** The workers alone, with an honest remote, can bring the binding there. */
  ghost predicate Leaks(c: Config, s: State, id: string) {
    exists ws :: WorkerSteps(ws) && HonestRun(c, s, ws) && LiveDisabled(Run(c, s, ws), id)
  }

  lemma {:induction false} RunAfter(c: Config, s: State, step: Step, ws: seq<Step>)
    ensures Run(c, s, [step] + ws) == Run(c, Take(c, s, step), ws)
    decreases |ws|
  {
    hide Take;
    var all := [step] + ws;
    if ws == [] {
      assert all == [step] && all[..0] == [];
    } else {
      assert all[..|all| - 1] == [step] + ws[..|ws| - 1];
      RunAfter(c, s, step, ws[..|ws| - 1]);
    }
  }

  lemma LeaksBefore(c: Config, s: State, step: Step, id: string)
    requires WorkerStep(step) && Honest(s, step) && Leaks(c, Take(c, s, step), id)
    ensures Leaks(c, s, id)
  {
    hide Take, Run, Honest, LiveDisabled;
    var s1 := Take(c, s, step);
    var ws :| WorkerSteps(ws) && HonestRun(c, s1, ws) && LiveDisabled(Run(c, s1, ws), id);
    var all := [step] + ws;
    RunAfter(c, s, step, ws);
    forall k | 0 <= k < |all| ensures Honest(Run(c, s, all[..k]), all[k]) {
      if k == 0 {
        NoSteps(c, s, all[..0]);
      } else {
        assert all[..k] == [step] + ws[..k - 1];
        RunAfter(c, s, step, ws[..k - 1]);
        assert Honest(Run(c, s1, ws[..k - 1]), ws[k - 1]);
      }
    }
    assert LiveDisabled(Run(c, s, all), id);
  }

  lemma NoSteps(c: Config, s: State, steps: seq<Step>)
    requires steps == []
    ensures Run(c, s, steps) == s
  {
  }

  lemma LeaksNow(c: Config, s: State, id: string)
    requires LiveDisabled(s, id)
    ensures Leaks(c, s, id)
  {
    NoSteps(c, s, []);
    assert HonestRun(c, s, []) && WorkerSteps([]);
  }

  predicate KeysLive(s: State, id: string) { forall key | key in s.made && s.made[key] == id :: key in s.live }

  /** The client has just been stopped: no worker has touched its disable row, and all its keys are active. */
  ghost predicate JustStopped(c: Config, s: State, id: string, d: nat) {
    && Inv(c, s) && KeysHold(s) && DisableNewest(s.tables, id, d) && KeysLive(s, id)
    && s.tables.items[d].status.Waiting? && s.tables.items[d].attempts == 0
  }

  /** A remote that disables this key, if there is one. */
  function Disabler(stored: Option<string>): Remote {
    Remote(if NonEmpty(stored) then Answered(KeyState(stored.value, "", "", "", false)) else Unsendable,
           Unsendable, Unsendable, Unsendable, Unsendable)
  }

  function Darkening(stored: Option<string>): KeyEffect { if stored.Some? then Darkens(stored.value) else Nothing }

  function DisablerEffect(stored: Option<string>): Effect {
    if NonEmpty(stored) then Stated(KeyState(stored.value, "", "", "", false)) else NoKey
  }

  lemma DisablerAnswers(s: State, client: string, d: nat, now: int, stored: Option<string>)
    requires stored.Some? ==> stored.value != ""
    ensures HonestCall(s, client, Loaded(d, now, Disable, stored, None), Disabler(stored), Darkening(stored))
    ensures Execute(Disable, stored, None, Disabler(stored)) == Did(DisablerEffect(stored))
  {
  }

  lemma DisableRowOpen(c: Config, s: State, id: string, d: nat)
    requires ValidConfig(c) && JustStopped(c, s, id, d)
    ensures Owned(s.made, id, s.tables.bindings[id].keyId) && Eligible(c, s.tables.items[d], s.tables.items[d].availableAt)
    ensures s.tables.items[d].desired.None?
  {
    assert RowHolds(c, s.tables, s.tables.items[d]);
  }

  lemma LeaksBeforeClaim(c: Config, s: State, i: nat, now: int, id: string)
    requires ValidConfig(c) && i < |s.tables.items| && Eligible(c, s.tables.items[i], now) && Leaks(c, ClaimedAt(s, i, now), id)
    ensures Leaks(c, s, id)
  {
    hide Take, Leaks, Eligible, ClaimedAt, AllBut;
    ClaimsAlone(c, s, i, now);
    LeaksBefore(c, s, ClaimRows(AllBut(|s.tables.items|, i), [i], now), id);
  }

  /** The disable row's job, loaded with the stored key. */
  function DisableJob(s: State, id: string, d: nat, now: int): Job
    requires id in s.tables.bindings
  {
    Loaded(d, now, Disable, s.tables.bindings[id].keyId, None)
  }

  lemma LeaksBeforeLoad(c: Config, s: State, j: nat, id: string, d: nat, now: int)
    requires DisableNewest(s.tables, id, d) && s.tables.items[d].status.Processing? && s.tables.items[d].desired.None?
    requires j < |s.jobs| && s.jobs[j] == Claimed(d, now) && Leaks(c, s.(jobs := s.jobs[j := DisableJob(s, id, d, now)]), id)
    ensures Leaks(c, s, id)
  {
    hide Leaks, Take;
    LoadsOne(c, s, j, d, now);
    LeaksBefore(c, s, Load(j), id);
  }

  lemma LeaksBeforeDisabling(c: Config, s: State, s1: State, j: nat, id: string, d: nat, now: int)
    requires id in s.tables.bindings && Owned(s.made, id, s.tables.bindings[id].keyId)
    requires j < |s.jobs| && s.jobs[j] == DisableJob(s, id, d, now)
    requires s1 == Take(c, s, Call(j, Disabler(s.tables.bindings[id].keyId), Darkening(s.tables.bindings[id].keyId)))
    ensures Leaks(c, s1, id) ==> Leaks(c, s, id)
    ensures var stored := s.tables.bindings[id].keyId;
            && s1.tables == s.tables && s1.live == LiveAfter(s, Darkening(stored))
            && s1.jobs == s.jobs[j := Returned(d, now, Did(DisablerEffect(stored)))]
  {
    var stored := s.tables.bindings[id].keyId;
    var e := Call(j, Disabler(stored), Darkening(stored));
    DisablerAnswers(s, ClientOf(s, d), d, now, stored);
    hide Disabler, Darkening, DisablerEffect, Execute, LiveAfter, HonestCall, Leaks, Take;
    CallsOne(c, s, j, e.remote, e.keys, DisablerEffect(stored));
    CallsLive(c, s, e);
    if Leaks(c, s1, id) { LeaksBefore(c, s, e, id); }
  }

  /** One worker disables the stored key, and has yet to complete the row. */
  lemma DisablesStored(c: Config, s: State, id: string, d: nat) returns (s3: State)
    requires ValidConfig(c) && JustStopped(c, s, id, d)
    ensures Leaks(c, s3, id) ==> Leaks(c, s, id)
    ensures var row, stored := s.tables.items[d], s.tables.bindings[id].keyId;
            && s3.tables == s.tables.(items := s.tables.items[d := ClaimedItem(row, row.availableAt)])
            && s3.jobs == s.jobs + [Returned(d, row.availableAt, Did(DisablerEffect(stored)))]
            && s3.live == LiveAfter(s, Darkening(stored))
  {
    var row, j, stored := s.tables.items[d], |s.jobs|, s.tables.bindings[id].keyId;
    DisableRowOpen(c, s, id, d);
    hide JustStopped, Eligible, Take, Leaks, Disabler, Darkening, DisablerEffect, LiveAfter, Owned;
    var s1 := ClaimedAt(s, d, row.availableAt);
    var s2 := s1.(jobs := s1.jobs[j := DisableJob(s1, id, d, row.availableAt)]);
    s3 := Take(c, s2, Call(j, Disabler(stored), Darkening(stored)));
    LeaksBeforeDisabling(c, s2, s3, j, id, d, row.availableAt);
    SameLive(s, s2, Darkening(stored));
    if Leaks(c, s3, id) {
      LeaksBeforeLoad(c, s1, j, id, d, row.availableAt);
      LeaksBeforeClaim(c, s, d, row.availableAt, id);
    }
  }

  lemma CallsLive(c: Config, s: State, step: Step)
    requires step.Call? && step.job < |s.jobs| && s.jobs[step.job].Loaded?
    ensures Take(c, s, step).live == LiveAfter(s, step.keys)
  {
    hide Execute;
  }

  lemma SameLive(s: State, s1: State, keys: KeyEffect)
    requires s1.live == s.live
    ensures LiveAfter(s1, keys) == LiveAfter(s, keys)
  {
  }

  /** Storing a key of one's own, sealed, is never refused. */
  lemma StoresIt(s: State, t: Tables, i: nat, effect: Effect)
    requires BindingsOwn(s) && FieldsHold(t) && t.bindings == s.tables.bindings && i < |t.items| && t.items[i].status.Processing?
    requires t.items[i].client in t.bindings && effect.Material? && !MultiLine(effect.state.id)
    requires Owned(s.made, t.items[i].client, Some(effect.state.id)) && t.items[i].version != t.bindings[t.items[i].client].version
    ensures var txn := Complete(t, i, effect, SEALED); var b := t.bindings[t.items[i].client];
            && txn.Commits? && txn.tables.items == t.items[i := t.items[i].(status := Completed, lockedAt := None)]
            && t.items[i].client in txn.tables.bindings
            && var b1 := txn.tables.bindings[t.items[i].client];
               b1.keyId == Some(effect.state.id) && b1.version == b.version && RemoteFieldsComplete(b1)
  {
    assert NonEmpty(t.bindings[t.items[i].client].serviceUser);
    assert !KeyIdUsed(t, t.items[i].client, effect.state.id) by {
      forall other | other in t.bindings && other != t.items[i].client ensures t.bindings[other].keyId != Some(effect.state.id) {
        assert Owned(s.made, other, t.bindings[other].keyId);
      }
    }
    hide KeyIdUsed, Owned, BindingsOwn, FieldsHold;
  }

  lemma DisablesIt(t: Tables, id: string, d: nat, effect: Effect)
    requires DisableNewest(t, id, d) && t.items[d].status.Processing? && RemoteFieldsComplete(t.bindings[id]) && !effect.Material?
    ensures var txn := Complete(t, d, effect, SEALED);
            && txn.Commits? && id in txn.tables.bindings && txn.tables.bindings[id].sync.Disabled?
            && txn.tables.bindings[id].keyId == t.bindings[id].keyId
  {
    hide RemoteFieldsComplete;
  }

  lemma FinishesIt(c: Config, s: State, j: nat)
    requires j < |s.jobs| && s.jobs[j].Returned? && s.jobs[j].ran.Did?
    requires Complete(s.tables, s.jobs[j].item, s.jobs[j].ran.effect, SEALED).Commits?
    ensures var s1 := Take(c, s, Finish(j, SEALED));
            && s1.tables == Complete(s.tables, s.jobs[j].item, s.jobs[j].ran.effect, SEALED).tables
            && s1.jobs == s.jobs[j := Over] && s1.live == s.live
  {
    hide Complete;
  }

  lemma LiveStays(s: State, stored: Option<string>, key: string)
    requires key in s.live && stored != Some(key)
    ensures key in LiveAfter(s, Darkening(stored))
  {
  }

  /** What the worker that brings another key has in hand. */
  lemma BroughtKey(c: Config, s: State, id: string, d: nat, j: nat)
    requires JustStopped(c, s, id, d) && JobBrings(c, s, id, j) && s.jobs[j].Returned?
    ensures var i, effect := s.jobs[j].item, s.jobs[j].ran.effect;
            && i != d && s.tables.items[i].version != s.tables.bindings[id].version
            && BindingsOwn(s) && FieldsHold(s.tables) && Owned(s.made, id, Some(effect.state.id)) && effect.state.id in s.live
  {
    var i := s.jobs[j].item;
    assert JobOwned(s.tables.items, s.made, s.jobs[j]) && i != d;
    assert s.tables.items[i].version != s.tables.items[d].version;
  }

  lemma SameFields(t: Tables, t1: Tables)
    requires FieldsHold(t) && t1.bindings == t.bindings
    ensures FieldsHold(t1)
  {
  }

  /** The other key is stored after the stored one was disabled, and before that is recorded. */
  lemma ReturnedLeaks(c: Config, s: State, id: string, d: nat, j: nat)
    requires ValidConfig(c) && JustStopped(c, s, id, d) && JobBrings(c, s, id, j) && s.jobs[j].Returned?
    requires s.tables.items[s.jobs[j].item].status.Processing?
    ensures Leaks(c, s, id)
  {
    var i, effect := s.jobs[j].item, s.jobs[j].ran.effect;
    var stored := s.tables.bindings[id].keyId;
    BroughtKey(c, s, id, d, j);
    hide Inv, KeysHold, Leaks, Take, Complete, RemoteFieldsComplete, KeysLive, LiveAfter, DisablerEffect, Owned, FieldsHold, BindingsOwn;
    var s3 := DisablesStored(c, s, id, d);
    SameFields(s.tables, s3.tables);
    StoresIt(s, s3.tables, i, effect);
    LiveStays(s, stored, effect.state.id);
    FinishesIt(c, s3, j);
    var s4 := Take(c, s3, Finish(j, SEALED));
    DisablesIt(s4.tables, id, d, DisablerEffect(stored));
    FinishesIt(c, s4, |s.jobs|);
    var s5 := Take(c, s4, Finish(|s.jobs|, SEALED));
    LeaksNow(c, s5, id);
    LeaksBefore(c, s4, Finish(|s.jobs|, SEALED), id);
    LeaksBefore(c, s3, Finish(j, SEALED), id);
  }

  /** A create call can always come back with another key: the one it loaded, or a new one. */
  lemma CallBrings(c: Config, s: State, id: string, j: nat) returns (step: Step)
    requires Inv(c, s) && KeysHold(s) && JobBrings(c, s, id, j) && s.jobs[j].Loaded?
    requires s.jobs[j].keyId.Some? ==> s.jobs[j].keyId.value in s.live
    ensures step.Call? && step.job == j && Honest(s, step) && !step.keys.Darkens?
    ensures Brings(s.tables.bindings[id].keyId, Returned(s.jobs[j].item, s.jobs[j].now,
                   Execute(s.jobs[j].action, s.jobs[j].keyId, s.jobs[j].desired, step.remote)))
  {
    var job, stored := s.jobs[j], s.tables.bindings[id].keyId;
    assert JobHolds(s.tables.items, job) && RowHolds(c, s.tables, s.tables.items[job.item]);
    assert JobOwned(s.tables.items, s.made, job) && Owned(s.made, id, stored);
    var desired := job.desired.value;
    if job.keyId.Some? {
      var state := KeyState(job.keyId.value, desired.name, desired.provider, desired.model, true);
      step := Call(j, Remote(Unsendable, Answered(state), Unsendable, Unsendable, Unsendable), Nothing);
    } else {
      var key := UnusedKey(s.tables, id, s.made.Keys);
      step := Call(j, Granted(key, desired), Makes(key));
    }
  }

  lemma LoadedLeaks(c: Config, s: State, id: string, d: nat, j: nat)
    requires ValidConfig(c) && JustStopped(c, s, id, d) && JobBrings(c, s, id, j) && s.jobs[j].Loaded?
    requires s.tables.items[s.jobs[j].item].status.Processing?
    ensures Leaks(c, s, id)
  {
    assert JobOwned(s.tables.items, s.made, s.jobs[j]);
    var step := CallBrings(c, s, id, j);
    var s1 := Take(c, s, step);
    CallShape(c, s, step);
    TakeKeeps(c, s, step);
    TakeOwns(c, s, step);
    hide Take, Inv, KeysHold, Execute, Leaks, Honest;
    ReturnedLeaks(c, s1, id, d, j);
    LeaksBefore(c, s, step, id);
  }

  lemma ClaimedLeaks(c: Config, s: State, id: string, d: nat, j: nat)
    requires ValidConfig(c) && JustStopped(c, s, id, d) && JobBrings(c, s, id, j) && s.jobs[j].Claimed?
    requires s.tables.items[s.jobs[j].item].status.Processing?
    ensures Leaks(c, s, id)
  {
    var step := Load(j);
    var s1 := Take(c, s, step);
    LoadsOne(c, s, j, s.jobs[j].item, s.jobs[j].now);
    TakeKeeps(c, s, step);
    TakeOwns(c, s, step);
    hide Take, Inv, KeysHold, Leaks;
    LoadedLeaks(c, s1, id, d, j);
    LeaksBefore(c, s, step, id);
  }

  lemma WorkedLeaks(c: Config, s: State, id: string, d: nat, j: nat)
    requires ValidConfig(c) && JustStopped(c, s, id, d) && JobBrings(c, s, id, j)
    requires s.tables.items[s.jobs[j].item].status.Processing?
    ensures Leaks(c, s, id)
  {
    hide JustStopped, Leaks;
    if s.jobs[j].Claimed? {
      ClaimedLeaks(c, s, id, d, j);
    } else if s.jobs[j].Loaded? {
      LoadedLeaks(c, s, id, d, j);
    } else {
      ReturnedLeaks(c, s, id, d, j);
    }
  }

  /** When the row can be claimed at the latest. */
  function ClaimTime(c: Config, row: Item): int {
    Max(row.availableAt, if row.lockedAt.Some? then row.lockedAt.value + c.claimTimeout else 0)
  }

  lemma StaysStopped(c: Config, s: State, s1: State, id: string, d: nat)
    requires JustStopped(c, s, id, d) && Inv(c, s1) && KeysHold(s1) && s1.made == s.made && s1.live == s.live
    requires s1.tables.bindings == s.tables.bindings && d < |s1.tables.items| && s1.tables.items[d] == s.tables.items[d]
    ensures JustStopped(c, s1, id, d)
  {
    hide Inv, KeysHold;
  }

  lemma CanBeClaimed(c: Config, t: Tables, i: nat)
    requires ValidConfig(c) && RowsHold(c, t) && i < |t.items| && Claimable(c, t.items[i])
    ensures Eligible(c, t.items[i], ClaimTime(c, t.items[i]))
  {
    assert RowHolds(c, t, t.items[i]);
  }

  lemma ClaimsCreate(c: Config, s: State, id: string, d: nat, i: nat) returns (s1: State)
    requires ValidConfig(c) && JustStopped(c, s, id, d) && CreateRow(c, s.tables, id, i) && Claimable(c, s.tables.items[i])
    ensures JustStopped(c, s1, id, d) && (Leaks(c, s1, id) ==> Leaks(c, s, id))
    ensures s1.jobs == s.jobs + [Claimed(i, ClaimTime(c, s.tables.items[i]))]
    ensures s1.tables == s.tables.(items := s.tables.items[i := ClaimedItem(s.tables.items[i], ClaimTime(c, s.tables.items[i]))])
  {
    var now := ClaimTime(c, s.tables.items[i]);
    var step := ClaimRows(AllBut(|s.tables.items|, i), [i], now);
    assert RowsHold(c, s.tables) && i != d;
    CanBeClaimed(c, s.tables, i);
    hide Take, Inv, KeysHold, Leaks, Eligible, ClaimTime, RowsHold;
    s1 := Take(c, s, step);
    ClaimsAlone(c, s, i, now);
    TakeKeeps(c, s, step);
    TakeOwns(c, s, step);
    StaysStopped(c, s, s1, id, d);
    if Leaks(c, s1, id) { LeaksBefore(c, s, step, id); }
  }

  /** While the key is not settled, the workers can leave another one active behind the disabled binding. */
  lemma UnsettledLeaks(c: Config, s: State, id: string, d: nat)
    requires ValidConfig(c) && JustStopped(c, s, id, d) && MayBring(c, s, id)
    ensures Leaks(c, s, id)
  {
    hide JustStopped, Leaks;
    if i: nat :| RowBrings(c, s, id, i) {
      var s1 := ClaimsCreate(c, s, id, d, i);
      WorkedLeaks(c, s1, id, d, |s.jobs|);
    } else {
      var j: nat :| JobBrings(c, s, id, j);
      var i := s.jobs[j].item;
      if s.tables.items[i].status.Processing? {
        WorkedLeaks(c, s, id, d, j);
      } else {
        var s1 := ClaimsCreate(c, s, id, d, i);
        assert s1.jobs[j] == s.jobs[j];
        WorkedLeaks(c, s1, id, d, j);
      }
    }
  }

  lemma StopLeaks(c: Config, s: State, step: Step)
    requires ValidConfig(c) && Inv(c, s) && KeysHold(s) && Stops(s, step) && MayBring(c, s, step.id)
    ensures Leaks(c, Take(c, s, step), step.id)
  {
    var s1, id, d := Take(c, s, step), step.id, |s.tables.items|;
    StopCallerAdds(c, s, step);
    TakeKeeps(c, s, step);
    TakeOwns(c, s, step);
    assert KeysLive(s, id);
    hide Take, Leaks, Inv, KeysHold, MayBring;
    BringsStill(c, s, s1, id);
    assert DisableNewest(s1.tables, id, d) && KeysLive(s1, id);
    UnsettledLeaks(c, s1, id, d);
  }

  lemma BringsStill(c: Config, s: State, s1: State, id: string)
    requires MayBring(c, s, id) && s1 == s.(tables := s1.tables) && s.tables.items <= s1.tables.items
    requires id in s1.tables.bindings && (id in s.tables.bindings ==> s1.tables.bindings[id].keyId == s.tables.bindings[id].keyId)
    ensures MayBring(c, s1, id)
  {
    if i: nat :| RowBrings(c, s, id, i) {
      assert RowBrings(c, s1, id, i);
    } else {
      var j: nat :| JobBrings(c, s, id, j);
      assert JobBrings(c, s1, id, j);
    }
  }

  // ---------------------------------------------------------------- exactly

  /** Clients are stopped only while their key is settled. */
  ghost predicate AllStoppedSettled(c: Config, steps: seq<Step>) {
    forall k | 0 <= k < |steps| :: StoppedSettled(c, Run(c, INITIAL, steps[..k]), steps[k])
  }

  ghost predicate StoppedSettled(c: Config, s: State, step: Step) { Stops(s, step) ==> !MayBring(c, s, step.id) }

  /** At no moment of the run can the workers leave an active key behind a disabled binding. */
  ghost predicate NeverLeaks(c: Config, steps: seq<Step>) {
    forall k: nat, id: string | k <= |steps| :: !Leaks(c, Run(c, INITIAL, steps[..k]), id)
  }

  lemma {:induction false} RunStill(c: Config, steps: seq<Step>)
    requires ValidConfig(c) && HonestRun(c, INITIAL, steps) && AllStoppedSettled(c, steps)
    ensures DarkHolds(c, Run(c, INITIAL, steps))
    decreases |steps|
  {
    hide Take, Honest, Inv, KeysHold, StoppedSettled;
    if steps != [] {
      var front, last := steps[..|steps| - 1], steps[|steps| - 1];
      HonestPrefix(c, INITIAL, steps, |front|);
      SettledPrefix(c, steps, |front|);
      RunStill(c, front);
      RunHolds(c, front);
      RunOwns(c, front);
      assert steps[..|front|] == front;
      assert Honest(Run(c, INITIAL, front), last) && StoppedSettled(c, Run(c, INITIAL, front), last);
      SettledStep(c, Run(c, INITIAL, front), last);
    }
  }

  lemma SettledStep(c: Config, s: State, step: Step)
    requires ValidConfig(c) && Inv(c, s) && KeysHold(s) && Honest(s, step) && DarkHolds(c, s) && StoppedSettled(c, s, step)
    ensures DarkHolds(c, Take(c, s, step))
  {
    hide Inv, KeysHold, Honest, DarkHolds, Take;
    TakeStill(c, s, step);
  }

  lemma SettledPrefix(c: Config, steps: seq<Step>, k: nat)
    requires AllStoppedSettled(c, steps) && k <= |steps|
    ensures AllStoppedSettled(c, steps[..k])
  {
    hide StoppedSettled, Run;
    forall i | 0 <= i < k ensures StoppedSettled(c, Run(c, INITIAL, steps[..k][..i]), steps[..k][i]) {
      assert steps[..k][..i] == steps[..i];
    }
  }

  lemma {:induction false} WorkersStill(c: Config, s: State, ws: seq<Step>)
    requires ValidConfig(c) && Inv(c, s) && KeysHold(s) && DarkHolds(c, s) && WorkerSteps(ws) && HonestRun(c, s, ws)
    ensures var s1 := Run(c, s, ws); Inv(c, s1) && KeysHold(s1) && DarkHolds(c, s1)
    decreases |ws|
  {
    hide Take, Honest, Inv, KeysHold, DarkHolds;
    if ws != [] {
      var front, last := ws[..|ws| - 1], ws[|ws| - 1];
      HonestPrefix(c, s, ws, |front|);
      WorkersStill(c, s, front);
      assert Honest(Run(c, s, ws[..|front|]), last);
      TakeKeeps(c, Run(c, s, front), last);
      TakeOwns(c, Run(c, s, front), last);
      WorkerStill(c, Run(c, s, front), last);
    }
  }

  lemma StillNeverLeaks(c: Config, s: State, id: string)
    requires ValidConfig(c) && Inv(c, s) && KeysHold(s) && DarkHolds(c, s)
    ensures !Leaks(c, s, id)
  {
    hide Inv, KeysHold, DarkHolds, LiveDisabled, HonestRun, Run, WorkerSteps;
    forall ws | WorkerSteps(ws) && HonestRun(c, s, ws) ensures !LiveDisabled(Run(c, s, ws), id) {
      WorkersStill(c, s, ws);
      DarkMeansDark(c, Run(c, s, ws), id);
    }
  }

  /** A binding counts as disabled while its key is active, now or after anything the workers may still do with an
      honest remote, at some moment of a run, exactly when a client is stopped at some step of it while an open
      create row, or a job on one, may still store another key. */
  lemma KeysStayDarkExactlyWhen(c: Config, steps: seq<Step>)
    requires ValidConfig(c) && HonestRun(c, INITIAL, steps)
    ensures AllStoppedSettled(c, steps) <==> NeverLeaks(c, steps)
  {
    hide Run, Inv, KeysHold, DarkHolds, Leaks, Honest, Take, HonestRun, MayBring;
    if AllStoppedSettled(c, steps) {
      forall k: nat, id: string | k <= |steps| ensures !Leaks(c, Run(c, INITIAL, steps[..k]), id) {
        HonestPrefix(c, INITIAL, steps, k);
        SettledPrefix(c, steps, k);
        RunHolds(c, steps[..k]);
        RunOwns(c, steps[..k]);
        RunStill(c, steps[..k]);
        StillNeverLeaks(c, Run(c, INITIAL, steps[..k]), id);
      }
    } else {
      var k :| 0 <= k < |steps| && !StoppedSettled(c, Run(c, INITIAL, steps[..k]), steps[k]);
      HonestPrefix(c, INITIAL, steps, k);
      RunHolds(c, steps[..k]);
      RunOwns(c, steps[..k]);
      StopLeaks(c, Run(c, INITIAL, steps[..k]), steps[k]);
      RunSnoc(c, INITIAL, steps, k);
      assert Leaks(c, Run(c, INITIAL, steps[..k + 1]), steps[k].id);
    }
  }
}
