/** Short runs, from empty tables, to what the outbox does not prevent. */
module OutboxCases {
  import opened Common
  import opened OutboxSpec
  import opened OutboxRun
  import opened OutboxProof
  import opened OutboxTheorems
  import opened OutboxStepping
  import opened OutboxDisabled
  import opened OutboxKeys
  import opened OutboxSettled

  const DEFAULTS := Config(8, 5, 300, 120, 25)

  const SPEC := Spec("name", "provider", "model")

  const KEY := KeyState("key", "name", "provider", "model", true)

  const FAILING := Remote(Unsendable, Unsendable, Upstream(false, true), Unsendable, Unsendable)

  const CREATING := Remote(Unsendable, Unsendable, Answered(None), Answered(KEY), Unsendable)

  lemma Then(c: Config, steps: seq<Step>, step: Step)
    ensures Run(c, INITIAL, steps + [step]) == Take(c, Run(c, INITIAL, steps), step)
    ensures HonestRun(c, INITIAL, steps) && Honest(Run(c, INITIAL, steps), step) ==> HonestRun(c, INITIAL, steps + [step])
  {
    hide Take, Honest;
    var all := steps + [step];
    assert all[..|steps|] == steps;
    if HonestRun(c, INITIAL, steps) && Honest(Run(c, INITIAL, steps), step) {
      forall k | 0 <= k < |all| ensures Honest(Run(c, INITIAL, all[..k]), all[k]) {
        if k < |steps| { assert all[..k] == steps[..k]; }
      }
    }
  }

  // ---------------------------------------------------------------- a caller, and its create row in one worker's hands

  const NEW := NewCaller("caller", "user", "one", SPEC, 0)

  function Bound(version: nat): Binding { Binding(Some("user"), None, None, None, Pending, version) }

  function CreateItem(status: Status, attempts: nat, lockedAt: Option<int>): Item {
    Item("caller", Create, "one", 2, Some(SPEC), status, attempts, 0, lockedAt)
  }

  function DisableItem(status: Status, attempts: nat, lockedAt: Option<int>): Item {
    Item("caller", Disable, "two", 3, None, status, attempts, 1, lockedAt)
  }

  function Begun(): State { INITIAL.(tables := Tables(map["caller" := ClientActive], map["caller" := Bound(2)], [CreateItem(Waiting, 0, None)])) }

  lemma Begins()
    ensures Run(DEFAULTS, INITIAL, [NEW]) == Begun() && HonestRun(DEFAULTS, INITIAL, [NEW])
  {
    assert [NEW][..0] == [];
    assert Take(DEFAULTS, INITIAL, NEW) == Begun();
  }

  /** The row's first claim, and the claim's load. */
  const TAKEN := [NEW, ClaimRows(AllBut(1, 0), [0], 0)]

  function Taken(): State {
    Begun().(tables := Begun().tables.(items := [CreateItem(Processing, 1, Some(0))]),
             jobs := [Claimed(0, 0)], claims := [Claiming(0, 0, 1)])
  }

  lemma Takes()
    ensures Run(DEFAULTS, INITIAL, TAKEN) == Taken() && HonestRun(DEFAULTS, INITIAL, TAKEN)
  {
    Begins();
    ClaimsAlone(DEFAULTS, Begun(), 0, 0);
    hide Take, Run, HonestRun;
    assert TAKEN == [NEW] + [ClaimRows(AllBut(1, 0), [0], 0)];
    Then(DEFAULTS, [NEW], ClaimRows(AllBut(1, 0), [0], 0));
    assert ClaimedAt(Begun(), 0, 0) == Taken();
  }

  // ---------------------------------------------------------------- a failure reported late

  const TAKEOVER := ClaimRows(AllBut(1, 0), [0], 120)

  const LATE := TAKEN + [TAKEOVER] + [Load(0)] + [Call(0, FAILING, Nothing)] + [Finish(0, None)]

  /** The row was taken over after 120 seconds. Its first worker reports a retryable failure, and the row may be
      claimed at that same second, while the second worker's claim is in hand. */
  lemma LateFailureReopens()
    ensures HonestRun(DEFAULTS, INITIAL, LATE)
    ensures var s := Run(DEFAULTS, INITIAL, LATE);
            && s.jobs == [Over, Claimed(0, 120)] && s.claims == [Claiming(0, 0, 1), Claiming(0, 120, 2)]
            && s.tables.items == [CreateItem(Failed, 2, None).(availableAt := 10)]
            && Chosen(DEFAULTS, s.tables.items, AllBut(1, 0), 120, [0])
  {
    var s1 := TakenOver();
    var s2 := s1.(jobs := [Loaded(0, 0, Create, None, Some(SPEC)), Claimed(0, 120)]);
    var s3 := s1.(jobs := [Returned(0, 0, Raised(true)), Claimed(0, 120)]);
    var items := [CreateItem(Failed, 2, None).(availableAt := 10)];
    LateSteps(s1, s2, s3);
    LateFails(s3, items);
    var s4 := Take(DEFAULTS, s3, Finish(0, None));
    hide Take, Run, HonestRun, TAKEN;
    Then(DEFAULTS, TAKEN + [TAKEOVER], Load(0));
    Then(DEFAULTS, TAKEN + [TAKEOVER] + [Load(0)], Call(0, FAILING, Nothing));
    Then(DEFAULTS, TAKEN + [TAKEOVER] + [Load(0)] + [Call(0, FAILING, Nothing)], Finish(0, None));
    ClaimsJust(DEFAULTS, items, 0, 120);
  }

  lemma TakenOver() returns (s: State)
    ensures s == Run(DEFAULTS, INITIAL, TAKEN + [TAKEOVER]) && HonestRun(DEFAULTS, INITIAL, TAKEN + [TAKEOVER])
    ensures s == Taken().(tables := Taken().tables.(items := [CreateItem(Processing, 2, Some(120))]),
                          jobs := [Claimed(0, 0), Claimed(0, 120)], claims := [Claiming(0, 0, 1), Claiming(0, 120, 2)])
  {
    Takes();
    ClaimsAlone(DEFAULTS, Taken(), 0, 120);
    hide Take, Run, HonestRun, TAKEN;
    Then(DEFAULTS, TAKEN, TAKEOVER);
    s := ClaimedAt(Taken(), 0, 120);
  }

  lemma LateSteps(s1: State, s2: State, s3: State)
    requires s1.tables == Taken().tables.(items := [CreateItem(Processing, 2, Some(120))]) && s1.jobs == [Claimed(0, 0), Claimed(0, 120)]
    requires s2 == s1.(jobs := [Loaded(0, 0, Create, None, Some(SPEC)), Claimed(0, 120)])
    requires s3 == s1.(jobs := [Returned(0, 0, Raised(true)), Claimed(0, 120)])
    ensures Take(DEFAULTS, s1, Load(0)) == s2 && Take(DEFAULTS, s2, Call(0, FAILING, Nothing)) == s3
    ensures Honest(s2, Call(0, FAILING, Nothing))
  {
    assert s1.jobs[0 := s2.jobs[0]] == s2.jobs && s2.jobs[0 := s3.jobs[0]] == s3.jobs;
  }

  lemma LateFails(s: State, items: seq<Item>)
    requires s.tables.items == [CreateItem(Processing, 2, Some(120))] && s.jobs == [Returned(0, 0, Raised(true)), Claimed(0, 120)]
    requires items == [CreateItem(Failed, 2, None).(availableAt := 10)]
    ensures var s1 := Take(DEFAULTS, s, Finish(0, None));
            s1.tables.items == items && s1.jobs == [Over, Claimed(0, 120)] && s1.claims == s.claims
  {
    assert Pow2(1) == 2 * Pow2(0);
  }

  // ---------------------------------------------------------------- a caller disabled while its key is made

  const STOP := StopCaller("caller", "two", 1)

  const CALLED := TAKEN + [Load(0)] + [STOP] + [ClaimRows(AllBut(2, 1), [1], 1)] + [Load(1)]
                  + [Call(1, FAILING, Nothing)] + [Call(0, CREATING, Makes("key"))]

  function Stopping(jobs: seq<Job>, item: Item, claims: seq<Claiming>): State {
    State(Tables(map["caller" := ClientDisabled], map["caller" := Bound(3)], [CreateItem(Processing, 1, Some(0)), item]),
          jobs, claims, [], map[], {})
  }

  const TWO_CLAIMS := [Claiming(0, 0, 1), Claiming(1, 1, 1)]

  /** Both rows have their answers, and neither is completed: the key is there, but nobody knew it to disable. */
  function Called(): State {
    Stopping([Returned(0, 0, Did(Material(KEY))), Returned(1, 1, Did(NoKey))], DisableItem(Processing, 1, Some(1)), TWO_CLAIMS)
      .(made := map["key" := "caller"], live := {"key"})
  }

  lemma StopSteps()
    ensures var s := Taken();
            var s1 := s.(jobs := [Loaded(0, 0, Create, None, Some(SPEC))]);
            && Take(DEFAULTS, s, Load(0)) == s1
            && Take(DEFAULTS, s1, STOP) == Stopping(s1.jobs, DisableItem(Waiting, 0, None), s.claims)
  {
  }

  lemma ClaimStep()
    ensures var create := Loaded(0, 0, Create, None, Some(SPEC));
            Take(DEFAULTS, Stopping([create], DisableItem(Waiting, 0, None), [Claiming(0, 0, 1)]), ClaimRows(AllBut(2, 1), [1], 1))
            == Stopping([create, Claimed(1, 1)], DisableItem(Processing, 1, Some(1)), TWO_CLAIMS)
  {
    var s := Stopping([Loaded(0, 0, Create, None, Some(SPEC))], DisableItem(Waiting, 0, None), [Claiming(0, 0, 1)]);
    hide Take;
    ClaimsAlone(DEFAULTS, s, 1, 1);
  }

  lemma CallSteps()
    ensures var create, row := Loaded(0, 0, Create, None, Some(SPEC)), DisableItem(Processing, 1, Some(1));
            var s := Stopping([create, Claimed(1, 1)], row, TWO_CLAIMS);
            var s1 := Stopping([create, Loaded(1, 1, Disable, None, None)], row, TWO_CLAIMS);
            var s2 := Stopping([create, Returned(1, 1, Did(NoKey))], row, TWO_CLAIMS);
            && Take(DEFAULTS, s, Load(1)) == s1
            && Honest(s1, Call(1, FAILING, Nothing)) && Take(DEFAULTS, s1, Call(1, FAILING, Nothing)) == s2
            && Honest(s2, Call(0, CREATING, Makes("key"))) && Take(DEFAULTS, s2, Call(0, CREATING, Makes("key"))) == Called()
  {
  }

  lemma Calls()
    ensures Run(DEFAULTS, INITIAL, CALLED) == Called() && HonestRun(DEFAULTS, INITIAL, CALLED)
  {
    Takes();
    StopSteps();
    ClaimStep();
    CallSteps();
    hide Take, Run, HonestRun, TAKEN, HonestCall, Called, Stopping;
    var a := TAKEN + [Load(0)];
    var b := a + [STOP];
    var d := b + [ClaimRows(AllBut(2, 1), [1], 1)];
    var e := d + [Load(1)];
    var f := e + [Call(1, FAILING, Nothing)];
    Then(DEFAULTS, TAKEN, Load(0));
    Then(DEFAULTS, a, STOP);
    Then(DEFAULTS, b, ClaimRows(AllBut(2, 1), [1], 1));
    Then(DEFAULTS, d, Load(1));
    Then(DEFAULTS, e, Call(1, FAILING, Nothing));
    Then(DEFAULTS, f, Call(0, CREATING, Makes("key")));
  }

  /** Completed in the order of staging: the binding is disabled, and its key active. */
  lemma KeyOutlivesDisable()
    ensures var steps := CALLED + [Finish(0, SEALED)] + [Finish(1, SEALED)];
            && HonestRun(DEFAULTS, INITIAL, steps)
            && var s := Run(DEFAULTS, INITIAL, steps); LiveDisabled(s, "caller") && Quiet(s.tables, "caller")
  {
    Calls();
    var s1, s2 := EndsInOrder();
    hide Take, Run, HonestRun, CALLED, Honest, Called;
    NothingCalled(Called(), Finish(0, SEALED));
    NothingCalled(s1, Finish(1, SEALED));
    Then(DEFAULTS, CALLED, Finish(0, SEALED));
    Then(DEFAULTS, CALLED + [Finish(0, SEALED)], Finish(1, SEALED));
  }

  lemma NothingCalled(s: State, step: Step)
    requires !step.Call?
    ensures Honest(s, step)
  {
  }

  lemma EndsInOrder() returns (s1: State, s2: State)
    ensures s1 == Take(DEFAULTS, Called(), Finish(0, SEALED)) && s2 == Take(DEFAULTS, s1, Finish(1, SEALED))
    ensures LiveDisabled(s2, "caller") && Quiet(s2.tables, "caller")
  {
    s1 := Take(DEFAULTS, Called(), Finish(0, SEALED));
    assert s1.tables.bindings["caller"].keyId == Some("key") && RemoteFieldsComplete(s1.tables.bindings["caller"]);
    assert s1.tables.items == [CreateItem(Completed, 1, None), DisableItem(Processing, 1, Some(1))];
    s2 := Take(DEFAULTS, s1, Finish(1, SEALED));
    assert s2.tables.items == [CreateItem(Completed, 1, None), DisableItem(Completed, 1, None)];
  }

  /** Completed the other way round: nothing is left to do, and the binding stays pending, its key active. */
  lemma OlderRowCompletedLast()
    ensures var s := Run(DEFAULTS, INITIAL, CALLED + [Finish(1, SEALED)] + [Finish(0, SEALED)]);
            && Quiet(s.tables, "caller") && s.tables.bindings["caller"].sync.Pending? && s.tables.bindings["caller"].keyId == Some("key")
            && "key" in s.live && LastDone(s.done, "caller").Some? && !Newest(s.tables, "caller", LastDone(s.done, "caller").value.item)
  {
    Calls();
    var s1, s2 := EndsOutOfOrder();
    hide Take, Run, HonestRun, CALLED, Called;
    Then(DEFAULTS, CALLED, Finish(1, SEALED));
    Then(DEFAULTS, CALLED + [Finish(1, SEALED)], Finish(0, SEALED));
  }

  lemma EndsOutOfOrder() returns (s1: State, s2: State)
    ensures s1 == Take(DEFAULTS, Called(), Finish(1, SEALED)) && s2 == Take(DEFAULTS, s1, Finish(0, SEALED))
    ensures Quiet(s2.tables, "caller") && s2.tables.bindings["caller"].sync.Pending? && s2.tables.bindings["caller"].keyId == Some("key")
    ensures "key" in s2.live && LastDone(s2.done, "caller").Some? && !Newest(s2.tables, "caller", LastDone(s2.done, "caller").value.item)
  {
    s1 := Take(DEFAULTS, Called(), Finish(1, SEALED));
    assert s1.tables.items == [CreateItem(Processing, 1, Some(0)), DisableItem(Completed, 1, None)];
    s2 := Take(DEFAULTS, s1, Finish(0, SEALED));
    assert s2.tables.items == [CreateItem(Completed, 1, None), DisableItem(Completed, 1, None)];
    assert s2.done == s1.done + [Completion("caller", 0, Material(KEY))];
  }

  // ---------------------------------------------------------------- a disabled caller brought up again

  const STAGE := SyncCaller("caller", Create, "three", SPEC, 2)

  /** A configuration is staged right after the caller was stopped, and one worker makes its binding active. */
  lemma DisabledComesUp() returns (ws: seq<Step>)
    ensures WorkerSteps(ws)
    ensures var t := Run(DEFAULTS, Run(DEFAULTS, INITIAL, [NEW] + [STOP] + [STAGE]), ws).tables;
            "caller" in t.clients && t.clients["caller"].ClientDisabled? && "caller" in t.bindings && t.bindings["caller"].sync.Active?
  {
    Begins();
    var s1, s2 := StopAndStage();
    RunHolds(DEFAULTS, [NEW] + [STOP] + [STAGE]);
    hide Take, Run, Inv;
    Then(DEFAULTS, [NEW], STOP);
    Then(DEFAULTS, [NEW] + [STOP], STAGE);
    InvFields(DEFAULTS, s2);
    ws := Serves(DEFAULTS, s2, 2, 2);
  }

  lemma InvFields(c: Config, s: State)
    requires Inv(c, s)
    ensures FieldsHold(s.tables)
  {
  }

  lemma StopAndStage() returns (s1: State, s2: State)
    ensures s1 == Take(DEFAULTS, Begun(), STOP) && s2 == Take(DEFAULTS, s1, STAGE)
    ensures Servable(s2, 2, 2) && s2.tables.items[2].client == "caller" && s2.tables.clients == map["caller" := ClientDisabled]
  {
    s1 := Take(DEFAULTS, Begun(), STOP);
    assert s1.tables == Tables(map["caller" := ClientDisabled], map["caller" := Bound(3)], [CreateItem(Waiting, 0, None), DisableItem(Waiting, 0, None)]);
    s2 := Take(DEFAULTS, s1, STAGE);
    assert s2.tables.items == s1.tables.items + [Item("caller", Create, "three", 4, Some(SPEC), Waiting, 0, 2, None)];
  }
}
