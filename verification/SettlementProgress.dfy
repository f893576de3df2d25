/** The protocol gets somewhere: recovery closes what it can, and a call nobody disturbs completes. */
module SettlementProgress {
  import opened Common
  import opened QuotaSpec
  import opened QuotaInvariant
  import opened Settlement
  import opened SettlementProof
  import opened SettlementSteps

  // ---------------------------------------------------------------- recording and closing in one transaction

  /** Nothing stands against closing a pending operation with this pair and terminal evidence. */
  predicate Closable(db: Store, o: Operation, prompt: nat, completion: nat, t: Terminal)
    requires o.LifetimeKey() in db.rows
  {
    && (o.usageRecorded ==> o.prompt == prompt && o.completion == completion)
    && prompt + completion <= SIGNED_BIGINT_MAX
    && t.Valid() && t.completedAt >= o.startedAt
    && db.rows[o.LifetimeKey()].consumed + prompt + completion <= SIGNED_BIGINT_MAX
    && !ServerIdUsed(db.events, t.serverRequestId)
  }

  lemma ClosesExactlyWhen(db: Store, id: string, prompt: nat, completion: nat, t: Terminal)
    requires LedgerInv(db) && Has(db, id) && Op(db, id).status.Pending?
    ensures HasRows(db, Op(db, id))
    ensures var db1 := Apply(db, DoRecordUsageAndFinalize(id, prompt, completion, t));
            if Closable(db, Op(db, id), prompt, completion, t)
            then && Has(db1, id) && Op(db1, id).status == t.status
                 && Op(db1, id).prompt == prompt && Op(db1, id).completion == completion
            else db1 == db
  {
    assert OperationSound(db, Op(db, id));
    hide LedgerInv, Finalize, RecordUsage, EventCount, OperationSound, Terminal.Valid, Closable;
    RecordsExactlyWhen(db, id, prompt, completion, t);
    if RecordUsage(db, id, prompt, completion, t.completedAt).Ok? {
      var mid := Apply(db, DoRecordUsage(id, prompt, completion, t.completedAt));
      if Finalize(mid, id, t).Ok? { FinalizeTerminates(mid, id, t); }
    }
  }

  /** The operation once this pair is recorded. */
  function Recorded(o: Operation, prompt: nat, completion: nat, now: int): Operation {
    o.(prompt := prompt, completion := completion, usageRecorded := true, updatedAt := now)
  }

  lemma RecordShape(db: Store, id: string, prompt: nat, completion: nat, now: int)
    requires Has(db, id) && Op(db, id).status.Pending?
    ensures RecordUsage(db, id, prompt, completion, now).Ok? <==>
              (Op(db, id).usageRecorded ==> Op(db, id).prompt == prompt && Op(db, id).completion == completion)
              && prompt + completion <= SIGNED_BIGINT_MAX
    ensures RecordUsage(db, id, prompt, completion, now).Ok? ==>
              var mid := Apply(db, DoRecordUsage(id, prompt, completion, now));
              && mid.rows == db.rows && mid.events == db.events
              && Has(mid, id) && Op(mid, id) == Recorded(Op(db, id), prompt, completion, now)
  {
    var i := IndexOf(db.operations, id);
    IndexOfUpdate(db.operations, i, Recorded(db.operations[i], prompt, completion, now), id);
  }

  /** Both halves of the transaction go through exactly when the operation is closable. */
  lemma RecordsExactlyWhen(db: Store, id: string, prompt: nat, completion: nat, t: Terminal)
    requires LedgerInv(db) && Has(db, id) && Op(db, id).status.Pending? && HasRows(db, Op(db, id))
    ensures var recorded, mid := RecordUsage(db, id, prompt, completion, t.completedAt), Apply(db, DoRecordUsage(id, prompt, completion, t.completedAt));
            && (recorded.Ok? && Finalize(mid, id, t).Ok? <==> Closable(db, Op(db, id), prompt, completion, t))
            && (recorded.Ok? ==> Has(mid, id) && Op(mid, id) == Recorded(Op(db, id), prompt, completion, t.completedAt))
  {
    hide LedgerInv, Finalize, RecordUsage, EventCount, Terminal.Valid, IndexOf;
    RecordShape(db, id, prompt, completion, t.completedAt);
    if RecordUsage(db, id, prompt, completion, t.completedAt).Ok? {
      EvidenceKeepsLedger(db, DoRecordUsage(id, prompt, completion, t.completedAt));
      FinalizeRefusedExactlyWhen(Apply(db, DoRecordUsage(id, prompt, completion, t.completedAt)), id, t);
    }
  }

  lemma FinalizeTerminates(db: Store, id: string, t: Terminal)
    requires Has(db, id) && Op(db, id).status.Pending? && Finalize(db, id, t).Ok?
    ensures var db1 := Apply(db, DoFinalize(id, t)); Has(db1, id) && Op(db1, id) == Terminated(Op(db, id), t)
  {
    hide EventCount;
    IndexOfUpdate(db.operations, IndexOf(db.operations, id), Terminated(Op(db, id), t), id);
  }

  // ---------------------------------------------------------------- recovery

  /** A stale pending operation that the authority finally charged under its own identity is completed by one
      pass of recovery exactly when the tokens do not contradict recorded usage, the counter has room, and the
      recovery's event ID is usable; otherwise the tables stay as they are. */
  lemma RecoveryFinishesExactlyWhen(s: State, id: string, user: string, staleBefore: int, now: int)
    requires Inv(s) && Has(s.store, id) && Op(s.store, id).status.Pending? && Op(s.store, id).updatedAt <= staleBefore
    requires id in s.remote && s.remote[id].status.SucceededCharged? && EvidenceValid(s.remote[id])
    requires IdentityMatches(CandidateOf(Op(s.store, id), user), s.remote[id])
    ensures HasRows(s.store, Op(s.store, id))
    ensures var o, c, w := Op(s.store, id), s.remote[id], |s.workers|;
            var s1 := Exec(s, Scans(id, user, staleBefore));
            var s2 := Exec(s1, WorkerActs(w, StatusAnswered(Reports(c))));
            var s3 := Exec(s2, WorkerActs(w, Commits(now)));
            if && (o.usageRecorded ==> o.prompt == c.prompt && o.completion == c.completion)
               && c.total <= SIGNED_BIGINT_MAX
               && s.store.rows[o.LifetimeKey()].consumed + c.total <= SIGNED_BIGINT_MAX
               && |id| <= 119 && !ServerIdUsed(s.store.events, "recovery_" + id)
            then Has(s3.store, id) && Op(s3.store, id).status.Completed?
            else s3.store == s.store
  {
    var o, c, w := Op(s.store, id), s.remote[id], |s.workers|;
    assert o.id == id;
    var k := CandidateOf(o, user);
    var s1 := Exec(s, Scans(id, user, staleBefore));
    RecoveryAnswered(s, id, user, staleBefore);
    var s2 := Exec(s1, WorkerActs(w, StatusAnswered(Reports(c))));
    var t := RecoveryTerminal(k, Completed, "OK", c.charged, now);
    RecoveryEvidence(k, c.charged, now);
    RecoveryCommits(s2, w, k, c, now);
    hide Exec, Inv, RecoveryTerminal;
    InvLedger(s);
    ClosesExactlyWhen(s.store, id, c.prompt, c.completion, t);
  }

  lemma RecoveryAnswered(s: State, id: string, user: string, staleBefore: int)
    requires Has(s.store, id) && Op(s.store, id).status.Pending? && Op(s.store, id).updatedAt <= staleBefore
    requires id in s.remote && s.remote[id].status.SucceededCharged? && EvidenceValid(s.remote[id])
    requires IdentityMatches(CandidateOf(Op(s.store, id), user), s.remote[id])
    ensures var s2 := Exec(Exec(s, Scans(id, user, staleBefore)), WorkerActs(|s.workers|, StatusAnswered(Reports(s.remote[id]))));
            && s2.store == s.store && |s2.workers| == |s.workers| + 1
            && s2.workers[|s.workers|] == Worker(CandidateOf(Op(s.store, id), user), ClosingRemote(s.remote[id]))
  {
    var s1 := Exec(s, Scans(id, user, staleBefore));
    assert s1.workers == s.workers + [Worker(CandidateOf(Op(s.store, id), user), Checking)];
  }

  lemma RecoveryCommits(s: State, w: nat, k: Candidate, c: Credit, now: int)
    requires w < |s.workers| && s.workers[w] == Worker(k, ClosingRemote(c)) && c.status.SucceededCharged?
    ensures Exec(s, WorkerActs(w, Commits(now))).store
         == Apply(s.store, DoRecordUsageAndFinalize(k.operationId, c.prompt, c.completion, RecoveryTerminal(k, Completed, "OK", c.charged, now)))
  {
    hide Apply;
  }

  lemma RecoveryEvidence(k: Candidate, charged: nat, now: int)
    ensures var t := RecoveryTerminal(k, Completed, "OK", charged, now);
            (t.Valid() <==> |k.operationId| <= 119) && t.completedAt >= k.startedAt && t.status == Completed
            && t.serverRequestId == "recovery_" + k.operationId
  {
    assert |"recovery_"| == 9;
  }

  // ---------------------------------------------------------------- an undisturbed call

  /** What a cooperating environment gives one non-streaming call. */
  datatype Call = Call(
    request: ReserveRequest, serviceUser: string, serverRequestId: string, dir: Directory, facts: Facts,
    grant: Credit, usage: Tokens, settled: Credit)
  {
    function Id(): string { request.operationId }

    function Arrived(): Handler {
      Handler(request, serviceUser, serverRequestId, Admitting, false, false, None, None, [], false)
    }

    function Settler(): Handler {
      Arrived().(phase := AwaitingSettle(JSON_SUCCESS), owned := true, dispatched := true,
                 settlementId := Some(grant.settlementId), usage := Some(usage))
    }
  }

  /** The answers fit the call, and the ledger can take it. */
  predicate Cooperates(s: State, x: Call) {
    && !x.request.stream && Reserve(s.store, x.dir, x.request).Ok? && (x.Id() in s.remote ==> !Final(s.remote[x.Id()]))
    && GrantAccepted(x.Arrived(), x.grant)
    && SettlementAccepted(x.Settler(), x.settled)
    && x.settled.total <= SIGNED_BIGINT_MAX
    && RowOrNew(s.store.rows, Lifetime(x.request.client), x.request.now).consumed + x.settled.total <= SIGNED_BIGINT_MAX
    && 0 <= x.facts.durationMs <= SIGNED_BIGINT_MAX && x.facts.qps >= 0 && x.facts.concurrency >= 0
    && 1 <= |x.serverRequestId| <= 128 && !ServerIdUsed(s.store.events, x.serverRequestId)
  }

  /** The call's own row, counters, events and handler, wherever the call is before it is closed. */
  predicate Underway(s: State, t: State, x: Call, o: Operation, it: Handler)
    requires Reserve(s.store, x.dir, x.request).Ok?
  {
    && |t.handlers| == |s.handlers| + 1 && t.handlers[|s.handlers|] == it
    && Has(t.store, x.Id()) && Op(t.store, x.Id()) == o && o.status.Pending? && o.client == x.request.client
    && o.startedAt == x.request.now && t.store.events == s.store.events
    && t.store.rows == Reserve(s.store, x.dir, x.request).value.store.rows
  }

  function Acts(s: State, x: Call, t: State, input: Input): State { Exec(t, HandlerActs(|s.handlers|, input)) }

  function Admitted(s: State, x: Call): State {
    Acts(s, x, Exec(s, Arrives(x.request, x.serviceUser, x.serverRequestId)), Transacts(x.dir, x.facts))
  }

  function Opened(s: State, x: Call): State {
    Acts(s, x, Acts(s, x, Admitted(s, x), Answered(Reports(x.grant))), Transacts(x.dir, x.facts))
  }

  function Returned(s: State, x: Call): State { Acts(s, x, Acts(s, x, Opened(s, x), Calls), ProviderReturns(x.usage)) }

  function Served(s: State, x: Call): State { Acts(s, x, Acts(s, x, Returned(s, x), Transacts(x.dir, x.facts)), Calls) }

  function Charged(s: State, x: Call): State {
    Acts(s, x, Exec(Served(s, x), RemoteMoves(x.Id(), x.settled)), Answered(Reports(x.settled)))
  }

  /** The whole schedule: arrival, reservation, grant, its record, the provider's call and return, the usage's
      record, the settle request, the authority's charge, its report, and the terminal transaction. */
  function Concluded(s: State, x: Call): State { Acts(s, x, Charged(s, x), Transacts(x.dir, x.facts)) }

  lemma ReserveFinds(db: Store, dir: Directory, q: ReserveRequest)
    requires Reserve(db, dir, q).Ok?
    ensures var db1 := Reserve(db, dir, q).value.store;
            && Has(db1, q.operationId) && Op(db1, q.operationId) == NewOperation(q) && db1.events == db.events
  {
    ReserveCommits(db, dir, q);
  }

  lemma Admits(s: State, x: Call)
    requires Cooperates(s, x)
    ensures Underway(s, Admitted(s, x), x, NewOperation(x.request), x.Arrived().(phase := AwaitingCredit, owned := true))
    ensures Admitted(s, x).remote == s.remote
  {
    ReserveFinds(s.store, x.dir, x.request);
  }

  lemma GrantStep(s: State, x: Call, t: State, o: Operation)
    requires Cooperates(s, x) && Underway(s, t, x, o, x.Arrived().(phase := AwaitingCredit, owned := true))
    ensures var r := Acts(s, x, t, Answered(Reports(x.grant)));
            && Underway(s, r, x, o, x.Arrived().(phase := Granted, owned := true, settlementId := Some(x.grant.settlementId)))
            && r.remote == t.remote
  {
    hide Reserve, LedgerInv;
  }

  lemma RecordStep(s: State, x: Call, t: State, o: Operation) returns (p: Operation)
    requires Cooperates(s, x) && o.settlementId.None? && o.usageOperationId.None?
    requires Underway(s, t, x, o, x.Arrived().(phase := Granted, owned := true, settlementId := Some(x.grant.settlementId)))
    ensures var r := Acts(s, x, t, Transacts(x.dir, x.facts));
            && Underway(s, r, x, p, x.Arrived().(phase := Ready, owned := true, settlementId := Some(x.grant.settlementId)))
            && p.usageRecorded == o.usageRecorded && r.remote == t.remote
  {
    hide Reserve, LedgerInv;
    p := o.(settlementId := Some(x.grant.settlementId), usageOperationId := Some(x.Arrived().UsageId()),
            updatedAt := Max(x.facts.clock, x.request.now));
    IndexOfUpdate(t.store.operations, IndexOf(t.store.operations, x.Id()), p, x.Id());
  }

  lemma ServeStep(s: State, x: Call, t: State, o: Operation)
    requires Cooperates(s, x)
    requires Underway(s, t, x, o, x.Arrived().(phase := Ready, owned := true, settlementId := Some(x.grant.settlementId)))
    ensures var r := Acts(s, x, Acts(s, x, t, Calls), ProviderReturns(x.usage));
            Underway(s, r, x, o, x.Settler().(phase := Recording(JSON_SUCCESS))) && r.remote == t.remote
  {
    hide Reserve, LedgerInv;
    var r := Acts(s, x, t, Calls);
    assert r.handlers[|s.handlers|].phase == Running;
  }

  lemma UsageStep(s: State, x: Call, t: State, o: Operation) returns (p: Operation)
    requires Cooperates(s, x) && !o.usageRecorded && Underway(s, t, x, o, x.Settler().(phase := Recording(JSON_SUCCESS)))
    ensures var r := Acts(s, x, t, Transacts(x.dir, x.facts));
            && Underway(s, r, x, p, x.Settler().(phase := Settling(JSON_SUCCESS)))
            && p.prompt == x.usage.prompt && p.completion == x.usage.completion && r.remote == t.remote
  {
    hide Reserve, LedgerInv;
    p := o.(prompt := x.usage.prompt, completion := x.usage.completion, usageRecorded := true,
            updatedAt := Max(x.facts.clock, x.request.now));
    IndexOfUpdate(t.store.operations, IndexOf(t.store.operations, x.Id()), p, x.Id());
  }

  lemma SettleStep(s: State, x: Call, t: State, o: Operation)
    requires Cooperates(s, x) && Underway(s, t, x, o, x.Settler().(phase := Settling(JSON_SUCCESS)))
    ensures var r := Acts(s, x, t, Calls); Underway(s, r, x, o, x.Settler()) && r.remote == t.remote
  {
    hide Reserve, LedgerInv;
  }

  lemma ChargeStep(s: State, x: Call, t: State, o: Operation)
    requires Cooperates(s, x) && Underway(s, t, x, o, x.Settler()) && t.remote == s.remote
    ensures var r := Acts(s, x, Exec(t, RemoteMoves(x.Id(), x.settled)), Answered(Reports(x.settled)));
            Underway(s, r, x, o, Closer(x))
  {
    hide Reserve, LedgerInv;
    var r := Exec(t, RemoteMoves(x.Id(), x.settled));
    assert Underway(s, r, x, o, x.Settler()) && r.remote[x.Id()] == x.settled;
  }

  function Evidence(x: Call): Terminal { TerminalOf(x.Settler(), JSON_SUCCESS, x.settled.charged, x.facts) }

  lemma EvidenceIsValid(s: State, x: Call)
    requires Cooperates(s, x)
    ensures Evidence(x).Valid() && Evidence(x).completedAt >= x.request.now && Evidence(x).status.Completed?
    ensures Evidence(x).serverRequestId == x.serverRequestId
  {
  }

  lemma RoomIsKept(s: State, x: Call)
    requires Cooperates(s, x)
    ensures var rows := Reserve(s.store, x.dir, x.request).value.store.rows;
            && Lifetime(x.request.client) in rows
            && rows[Lifetime(x.request.client)].consumed + x.settled.total <= SIGNED_BIGINT_MAX
            && x.settled.total == x.usage.prompt + x.usage.completion
  {
  }

  lemma ClosesCommitted(s: State, x: Call, t: State, o: Operation, it: Handler)
    requires LedgerInv(t.store) && Cooperates(s, x) && Underway(s, t, x, o, it)
    requires o.prompt == x.usage.prompt && o.completion == x.usage.completion
    ensures Finalize(t.store, x.Id(), Evidence(x)).Ok?
    ensures var db := Apply(t.store, DoFinalize(x.Id(), Evidence(x))); Has(db, x.Id()) && Op(db, x.Id()).status.Completed?
  {
    hide Reserve;
    EvidenceIsValid(s, x);
    RoomIsKept(s, x);
    FinalizeRefusedExactlyWhen(t.store, x.Id(), Evidence(x));
    IndexOfUpdate(t.store.operations, IndexOf(t.store.operations, x.Id()), Terminated(o, Evidence(x)), x.Id());
  }

  function Closer(x: Call): Handler { x.Settler().(phase := Closing(JSON_SUCCESS, x.settled.charged)) }

  lemma CloserAwaits(x: Call)
    ensures Settlement.Awaited(Closer(x), x.dir, x.facts) == Some(DoFinalize(x.Id(), Evidence(x)))
    ensures AfterCommit(Closer(x)).responded
  {
  }

  lemma CloseStep(s: State, x: Call, t: State, o: Operation)
    requires LedgerInv(t.store) && Cooperates(s, x) && Underway(s, t, x, o, Closer(x))
    requires o.prompt == x.usage.prompt && o.completion == x.usage.completion
    ensures var r := Acts(s, x, t, Transacts(x.dir, x.facts));
            && |r.handlers| > |s.handlers| && r.handlers[|s.handlers|].responded
            && Has(r.store, x.Id()) && Op(r.store, x.Id()).status.Completed?
  {
    ClosesCommitted(s, x, t, o, Closer(x));
    CloserAwaits(x);
    hide LedgerInv, Cooperates, Finalize, Apply, Exec, Reserve, Settlement.Awaited, Closer, Evidence, AfterCommit, IndexOf;
    TransactCommits(t, |s.handlers|, x.dir, x.facts, DoFinalize(x.Id(), Evidence(x)));
  }

  lemma TransactCommits(t: State, h: nat, dir: Directory, f: Facts, txn: Transaction)
    requires h < |t.handlers| && Settlement.Awaited(t.handlers[h], dir, f) == Some(txn) && Succeeds(t.store, txn)
    ensures Exec(t, HandlerActs(h, Transacts(dir, f)))
         == WithHandler(t, h, AfterCommit(t.handlers[h])).(store := Apply(t.store, txn))
  {
  }

  lemma InvSteps(s: State, x: Call)
    requires Inv(s)
    ensures Inv(Charged(s, x))
  {
    hide Inv, Exec;
    var h := |s.handlers|;
    var s1 := Exec(s, Arrives(x.request, x.serviceUser, x.serverRequestId));
    ExecKeeps(s, Arrives(x.request, x.serviceUser, x.serverRequestId));
    ExecKeeps(s1, HandlerActs(h, Transacts(x.dir, x.facts)));
    var s2 := Acts(s, x, Admitted(s, x), Answered(Reports(x.grant)));
    ExecKeeps(Admitted(s, x), HandlerActs(h, Answered(Reports(x.grant))));
    ExecKeeps(s2, HandlerActs(h, Transacts(x.dir, x.facts)));
    ExecKeeps(Opened(s, x), HandlerActs(h, Calls));
    ExecKeeps(Acts(s, x, Opened(s, x), Calls), HandlerActs(h, ProviderReturns(x.usage)));
    ExecKeeps(Returned(s, x), HandlerActs(h, Transacts(x.dir, x.facts)));
    ExecKeeps(Acts(s, x, Returned(s, x), Transacts(x.dir, x.facts)), HandlerActs(h, Calls));
    ExecKeeps(Served(s, x), RemoteMoves(x.Id(), x.settled));
    ExecKeeps(Exec(Served(s, x), RemoteMoves(x.Id(), x.settled)), HandlerActs(h, Answered(Reports(x.settled))));
  }

  /** A non-streaming call that nobody disturbs, in an environment that cooperates, is answered and completed. */
  lemma UndisturbedCallCompletes(s: State, x: Call)
    requires Inv(s) && Cooperates(s, x)
    ensures var r := Concluded(s, x);
            && |r.handlers| > |s.handlers| && r.handlers[|s.handlers|].responded
            && Has(r.store, x.Id()) && Op(r.store, x.Id()).status.Completed?
  {
    hide Inv, Exec, Acts, Cooperates, Underway;
    Admits(s, x);
    GrantStep(s, x, Admitted(s, x), NewOperation(x.request));
    var o := RecordStep(s, x, Acts(s, x, Admitted(s, x), Answered(Reports(x.grant))), NewOperation(x.request));
    ServeStep(s, x, Opened(s, x), o);
    var p := UsageStep(s, x, Returned(s, x), o);
    SettleStep(s, x, Acts(s, x, Returned(s, x), Transacts(x.dir, x.facts)), p);
    ChargeStep(s, x, Served(s, x), p);
    InvSteps(s, x);
    InvLedger(Charged(s, x));
    CloseStep(s, x, Charged(s, x), p);
  }

  lemma InvLedger(s: State)
    requires Inv(s)
    ensures LedgerInv(s.store)
  {
  }
}
