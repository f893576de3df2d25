/** Every action keeps the protocol's invariant, and the agreements that follow for every schedule. */
module SettlementSteps {
  import opened Common
  import opened QuotaSpec
  import opened QuotaInvariant
  import opened Settlement
  import opened SettlementProof

  // ---------------------------------------------------------------- transactions of a handler

  lemma ReserveCommits(db: Store, dir: Directory, q: ReserveRequest)
    requires Reserve(db, dir, q).Ok?
    ensures !Has(db, q.operationId)
    ensures var db' := Apply(db, DoReserve(dir, q)); Has(db', q.operationId) && Op(db', q.operationId) == NewOperation(q)
  {
    IndexOfAppend(db.operations, NewOperation(q), q.operationId);
  }

  lemma RecordCreditCommits(db: Store, id: string, settlementId: string, usageId: string, now: int)
    requires RecordCredit(db, id, settlementId, usageId, now).Ok?
    ensures var db' := Apply(db, DoRecordCredit(id, settlementId, usageId, now));
            Has(db', id) && Op(db', id).settlementId == Some(settlementId)
  {
    var i := IndexOf(db.operations, id);
    var db' := Apply(db, DoRecordCredit(id, settlementId, usageId, now));
    IndexOfUpdate(db.operations, i, db'.operations[i], id);
  }

  lemma FinalizeCommits(db: Store, id: string, t: Terminal)
    requires Finalize(db, id, t).Ok?
    ensures var db' := Apply(db, DoFinalize(id, t)); Has(db', id) && Op(db', id).status == t.status
  {
    var i := IndexOf(db.operations, id);
    IndexOfUpdate(db.operations, i, Terminated(db.operations[i], t), id);
  }

  lemma OpeningCommitSound(s: State, t: State, h: Handler, dir: Directory, f: Facts)
    requires HandlerSound(s, h) && HandlerSound(t, h) && (h.phase.Admitting? || h.phase.Granted?)
    requires Awaited(h, dir, f).Some? && Succeeds(s.store, Awaited(h, dir, f).value)
    requires t.store == Apply(s.store, Awaited(h, dir, f).value)
    ensures HandlerSound(t, AfterCommit(h)) && SameIdentity(h, AfterCommit(h))
  {
    hide Reserve, RecordCredit;
    var txn := Awaited(h, dir, f).value;
    if h.phase.Admitting? {
      ReserveCommits(s.store, dir, h.request);
    } else {
      RecordCreditCommits(s.store, txn.id, txn.settlementId, txn.usageOperationId, txn.now);
    }
  }

  lemma RecordingCommitSound(s: State, t: State, h: Handler, dir: Directory, f: Facts)
    requires HandlerSound(s, h) && HandlerSound(t, h) && h.phase.Recording?
    requires Awaited(h, dir, f).Some? && Succeeds(s.store, Awaited(h, dir, f).value)
    requires t.store == Apply(s.store, Awaited(h, dir, f).value)
    ensures HandlerSound(t, AfterCommit(h)) && SameIdentity(h, AfterCommit(h))
  {
    hide RecordUsage, EventCount, IndexOf;
    var txn := Awaited(h, dir, f).value;
    RecordUsageCommits(s.store, txn.id, txn.prompt, txn.completion, txn.now);
  }

  lemma ClosingCommitSound(s: State, t: State, h: Handler, dir: Directory, f: Facts)
    requires HandlerSound(s, h) && HandlerSound(t, h) && h.phase.Closing?
    requires Awaited(h, dir, f).Some? && Succeeds(s.store, Awaited(h, dir, f).value)
    requires t.store == Apply(s.store, Awaited(h, dir, f).value)
    ensures HandlerSound(t, AfterCommit(h)) && SameIdentity(h, AfterCommit(h))
  {
    hide Finalize, EventCount;
    var txn := Awaited(h, dir, f).value;
    FinalizeCommits(s.store, txn.id, txn.terminal);
    FinishedSound(t, h, h.phase.goal.finish);
  }

  lemma CommitSound(s: State, t: State, h: Handler, dir: Directory, f: Facts)
    requires HandlerSound(s, h) && Awaited(h, dir, f).Some? && Succeeds(s.store, Awaited(h, dir, f).value)
    requires t.store == Apply(s.store, Awaited(h, dir, f).value) && t.remote == s.remote
    ensures HandlerSound(t, AfterCommit(h)) && SameIdentity(h, AfterCommit(h))
  {
    hide Apply, Succeeds, HandlerSound, AfterCommit, SameIdentity;
    ApplyExtends(s.store, Awaited(h, dir, f).value);
    HandlerGrows(s, t, h);
    if h.phase.Admitting? || h.phase.Granted? {
      OpeningCommitSound(s, t, h, dir, f);
    } else if h.phase.Recording? {
      RecordingCommitSound(s, t, h, dir, f);
    } else {
      ClosingCommitSound(s, t, h, dir, f);
    }
  }

  lemma RollbackSound(s: State, h: Handler, dir: Directory, f: Facts)
    requires HandlerSound(s, h) && Awaited(h, dir, f).Some?
    ensures HandlerSound(s, AfterRollback(h)) && SameIdentity(h, AfterRollback(h)) && AfterRollback(h).owned == h.owned
  {
    if h.phase.Recording? || h.phase.Closing? { FailedSound(s, h); }
  }

  lemma AwaitedBacked(s: State, t: State, h: Handler, dir: Directory, f: Facts)
    requires LedgerInv(s.store) && EventsBacked(s) && HandlerSound(s, h) && Awaited(h, dir, f).Some?
    requires t.store == Apply(s.store, Awaited(h, dir, f).value) && t.remote == s.remote
    ensures EventsBacked(t) && LateSound(s, Awaited(h, dir, f).value)
  {
    hide LedgerInv, EventsBacked, Apply;
    LateBacked(s, t, Awaited(h, dir, f).value);
  }

  lemma FreshOwner(s: State, h: nat, dir: Directory)
    requires HandlersSound(s) && h < |s.handlers|
    requires s.handlers[h].phase.Admitting? ==> Reserve(s.store, dir, s.handlers[h].request).Ok?
    ensures s.handlers[h].phase.Admitting? ==>
              forall g | 0 <= g < |s.handlers| && g != h && s.handlers[g].owned :: s.handlers[g].Id() != s.handlers[h].Id()
  {
    if s.handlers[h].phase.Admitting? {
      ReserveCommits(s.store, dir, s.handlers[h].request);
      forall g | 0 <= g < |s.handlers| && g != h && s.handlers[g].owned ensures s.handlers[g].Id() != s.handlers[h].Id() {
        assert HandlerSound(s, s.handlers[g]);
      }
    }
  }

  lemma SameStoreKeeps(s: State, t: State, h: nat)
    requires Inv(s) && t.store == s.store && t.remote == s.remote
    ensures LedgerInv(t.store) && EventsBacked(t) && Grows(s, t)
  {
    SameStoreBacked(s, t);
  }

  /** Logs and late transactions stay sound when they are unchanged and the tables grow. */
  lemma KeptByGrowth(s: State, t: State, h: nat)
    requires Inv(s) && Grows(s, t) && h < |s.handlers| == |t.handlers|
    requires t.inFlight == s.inFlight && t.dispatches == s.dispatches && t.settles == s.settles
    requires forall g | 0 <= g < |s.handlers| && g != h :: t.handlers[g] == s.handlers[g]
    requires SameIdentity(s.handlers[h], t.handlers[h])
    ensures LateOnesSound(t) && DispatchesSound(t) && SettlesSound(t)
  {
    OthersGrow(s, t);
    SettlesGrow(s, t);
    DispatchesKept(s, t, h);
  }

  /** A step that only replaces one handler by a sound one keeps the invariant. */
  lemma LocalStepKeeps(s: State, h: nat, it: Handler)
    requires Inv(s) && h < |s.handlers| && HandlerSound(s, it)
    requires SameIdentity(s.handlers[h], it) && it.owned == s.handlers[h].owned
    ensures Inv(WithHandler(s, h, it))
  {
    var t := WithHandler(s, h, it);
    SameStoreKeeps(s, t, h);
    KeptByGrowth(s, t, h);
    HandlerGrows(s, t, it);
    HandlerReplaced(s, t, h);
  }

  lemma CommitKeeps(s: State, h: nat, dir: Directory, f: Facts)
    requires Inv(s) && h < |s.handlers|
    requires Awaited(s.handlers[h], dir, f).Some? && Succeeds(s.store, Awaited(s.handlers[h], dir, f).value)
    ensures Inv(HandlerStep(s, h, Transacts(dir, f)))
  {
    hide LedgerInv, EventBacked, LateSound, WorkerSound, DispatchSound, HandlerSound, Extends, Apply, Reserve;
    var it := s.handlers[h];
    var t := HandlerStep(s, h, Transacts(dir, f));
    var txn := Awaited(it, dir, f).value;
    assert HandlerSound(s, it);
    ApplyKeepsLedger(s.store, txn);
    ApplyExtends(s.store, txn);
    AwaitedBacked(s, t, it, dir, f);
    CommitSound(s, t, it, dir, f);
    FreshOwner(s, h, dir);
    KeptByGrowth(s, t, h);
    HandlerReplaced(s, t, h);
  }

  lemma TransactsKeeps(s: State, h: nat, dir: Directory, f: Facts)
    requires Inv(s) && h < |s.handlers|
    ensures Inv(HandlerStep(s, h, Transacts(dir, f)))
  {
    var it := s.handlers[h];
    var txn := Awaited(it, dir, f);
    assert HandlerSound(s, it);
    if txn.Some? {
      if Succeeds(s.store, txn.value) {
        CommitKeeps(s, h, dir, f);
      } else {
        RollbackSound(s, it, dir, f);
        LocalStepKeeps(s, h, AfterRollback(it));
      }
    }
  }

  // ---------------------------------------------------------------- the other handler steps

  lemma AbandonsKeeps(s: State, h: nat, dir: Directory, f: Facts)
    requires Inv(s) && h < |s.handlers|
    ensures Inv(HandlerStep(s, h, Abandons(dir, f)))
  {
    hide LedgerInv, EventBacked, LateSound, WorkerSound, DispatchSound, HandlerSound, Apply, Interrupt;
    var it := s.handlers[h];
    var txn := Awaited(it, dir, f);
    assert HandlerSound(s, it);
    if txn.Some? {
      InterruptSound(s, it);
      LocalStepKeeps(s, h, Interrupt(it));
      AwaitedBacked(s, s.(store := Apply(s.store, txn.value)), it, dir, f);
      LateJoins(s, WithHandler(s, h, Interrupt(it)), txn.value);
    }
  }

  lemma LateJoins(s: State, t: State, txn: Transaction)
    requires Inv(t) && LateSound(s, txn) && t.store == s.store && t.remote == s.remote
    ensures Inv(t.(inFlight := t.inFlight + [txn]))
  {
    var u := t.(inFlight := t.inFlight + [txn]);
    LateGrows(s, u, txn);
    OthersGrow(t, u);
    KeptLogs(t, u);
  }

  /** Nothing but the late transactions, logs or workers differ. */
  lemma KeptLogs(s: State, t: State)
    requires Inv(s) && t.store == s.store && t.remote == s.remote && t.handlers == s.handlers
    ensures HandlersSound(t) && OwnersDistinct(t) && EventsBacked(t)
    ensures t.dispatches == s.dispatches ==> DispatchesSound(t)
    ensures t.settles == s.settles ==> SettlesSound(t)
    ensures t.workers == s.workers ==> WorkersSound(t)
    ensures t.inFlight == s.inFlight ==> LateOnesSound(t)
  {
    SameStoreBacked(s, t);
    OthersGrow(s, t);
    if t.dispatches == s.dispatches {
      forall k | 0 <= k < |t.dispatches| ensures DispatchSound(t, t.dispatches[k]) {
        assert DispatchSound(s, s.dispatches[k]);
      }
    }
  }

  lemma RefusalSound(s: State, h: Handler, code: string)
    requires HandlerSound(s, h) && h.phase.AwaitingCredit? && CreditRefusal(code)
    ensures HandlerSound(s, h.(phase := Closing(CreditGoal(code), 0)))
  {
    assert NoCreditCode(code) && GoalSound(CreditGoal(code));
  }

  lemma GrantSound(s: State, h: Handler, settlementId: string)
    requires HandlerSound(s, h) && h.phase.AwaitingCredit?
    ensures HandlerSound(s, h.(phase := Granted, settlementId := Some(settlementId))) && HandlerSound(s, End(h))
  {
  }

  lemma CreditAnswerSound(s: State, h: Handler, a: Answer)
    requires HandlerSound(s, h) && h.phase.AwaitingCredit?
    ensures HandlerSound(s, AfterAnswer(h, a))
  {
    if a.Fails? {
      GrantSound(s, h, "");
      if CreditRefusal(a.code) { RefusalSound(s, h, a.code); }
    } else {
      GrantSound(s, h, a.credit.settlementId);
    }
  }

  lemma SettleAnswerSound(s: State, h: Handler, a: Answer)
    requires HandlerSound(s, h) && MayReport(s, h.Id(), a) && h.phase.AwaitingSettle?
    requires a.Reports? && SettlementAccepted(h, a.credit)
    ensures HandlerSound(s, AfterAnswer(h, a))
  {
  }

  lemma CancelAnswerSound(s: State, h: Handler, a: Answer)
    requires HandlerSound(s, h) && MayReport(s, h.Id(), a) && h.phase.AwaitingCancel?
    requires a.Reports? && CancellationAccepted(h, a.credit)
    ensures HandlerSound(s, AfterAnswer(h, a))
  {
  }

  lemma AnswerKeepsIdentity(h: Handler, a: Answer)
    ensures SameIdentity(h, AfterAnswer(h, a)) && AfterAnswer(h, a).owned == h.owned
  {
    hide GrantAccepted, SettlementAccepted, CancellationAccepted;
  }

  /** An accepted answer leads to a backed terminal transaction; a refused one to the failure path. */
  lemma AnswerSound(s: State, h: Handler, a: Answer)
    requires HandlerSound(s, h) && MayReport(s, h.Id(), a)
    ensures HandlerSound(s, AfterAnswer(h, a))
  {
    if h.phase.AwaitingCredit? {
      CreditAnswerSound(s, h, a);
    } else if h.phase.AwaitingSettle? {
      if a.Reports? && SettlementAccepted(h, a.credit) { SettleAnswerSound(s, h, a); } else { FailedSound(s, h); }
    } else if h.phase.AwaitingCancel? {
      if a.Reports? && CancellationAccepted(h, a.credit) { CancelAnswerSound(s, h, a); } else { FailedSound(s, h); }
    }
  }

  lemma CallSound(s: State, h: Handler)
    requires HandlerSound(s, h)
    ensures HandlerSound(s, AfterCall(h)) && SameIdentity(h, AfterCall(h)) && AfterCall(h).owned == h.owned
  {
    if h.phase.Ready? { ReadyCallSound(s, h); } else { CreditCallSound(s, h); }
  }

  lemma ReadyCallSound(s: State, h: Handler)
    requires HandlerSound(s, h) && h.phase.Ready?
    ensures HandlerSound(s, h.(phase := Running, dispatched := true))
  {
    hide IndexOf, EventCount;
  }

  lemma CreditCallSound(s: State, h: Handler)
    requires HandlerSound(s, h) && !h.phase.Ready?
    ensures HandlerSound(s, AfterCall(h))
  {
    hide IndexOf, EventCount;
  }

  lemma CallsKeeps(s: State, h: nat)
    requires Inv(s) && h < |s.handlers|
    ensures Inv(HandlerStep(s, h, Calls))
  {
    hide LedgerInv, EventBacked, LateSound, WorkerSound;
    var it := s.handlers[h];
    assert HandlerSound(s, it);
    CallSound(s, it);
    LocalStepKeeps(s, h, AfterCall(it));
    var t := WithHandler(s, h, AfterCall(it));
    var u := HandlerStep(s, h, Calls);
    KeptLogs(t, u);
    if it.phase.Ready? { DispatchJoins(s, h); }
    else if it.phase.Settling? {
      forall k | 0 <= k < |u.settles| ensures UsageCommitted(u.store, u.settles[k].operationId, u.settles[k].tokens) {
        if k < |s.settles| { assert UsageCommitted(s.store, s.settles[k].operationId, s.settles[k].tokens); }
      }
    }
  }

  lemma DispatchJoins(s: State, h: nat)
    requires Inv(s) && h < |s.handlers| && s.handlers[h].phase.Ready?
    ensures DispatchesSound(HandlerStep(s, h, Calls))
  {
    hide LedgerInv, EventBacked, LateSound, WorkerSound;
    var u := HandlerStep(s, h, Calls);
    assert HandlerSound(s, s.handlers[h]);
    forall k | 0 <= k < |u.dispatches|
      ensures DispatchSound(u, u.dispatches[k])
      ensures k < |s.dispatches| ==> u.dispatches[k].handler != h
    {
      if k < |s.dispatches| { assert DispatchSound(s, s.dispatches[k]); }
    }
  }

  lemma BeatSound(s: State, t: State, h: Handler, renewed: bool, clock: int)
    requires HandlerSound(s, h) && Grows(s, t) && h.phase.Running? && h.request.stream
    ensures var it := AfterBeat(h, s.store, renewed, clock);
            HandlerSound(t, it) && SameIdentity(h, it) && it.owned == h.owned
  {
    HandlerGrows(s, t, h);
    var it := AfterBeat(h, s.store, renewed, clock);
    if !renewed { FailureStarts(t, h, LEASE_LOST); }
    else if it == StartFailure(h, BROKEN) { FailureStarts(t, h, BROKEN); }
    else { FrameSound(t, h, Heartbeat); }
  }

  lemma BeatsKeeps(s: State, h: nat, renewed: bool, clock: int)
    requires Inv(s) && h < |s.handlers|
    ensures Inv(HandlerStep(s, h, Beats(renewed, clock)))
  {
    hide LedgerInv, EventBacked, LateSound, WorkerSound, DispatchSound, AfterBeat, Touch;
    var it := s.handlers[h];
    var t := HandlerStep(s, h, Beats(renewed, clock));
    assert HandlerSound(s, it);
    if it.phase.Running? && it.request.stream {
      if renewed {
        var txn := DoTouch(it.Id(), Max(clock, it.request.now));
        ApplyKeepsLedger(s.store, txn);
        ApplyExtends(s.store, txn);
        QuietBacked(s, t, txn);
        BeatSound(s, t, it, renewed, clock);
        KeptByGrowth(s, t, h);
        HandlerReplaced(s, t, h);
      } else {
        BeatSound(s, s, it, renewed, clock);
        LocalStepKeeps(s, h, AfterBeat(it, s.store, renewed, clock));
      }
    }
  }

  lemma HandlerStepKeeps(s: State, h: nat, input: Input)
    requires Inv(s) && h < |s.handlers|
    ensures Inv(HandlerStep(s, h, input))
  {
    hide LedgerInv, EventBacked, LateSound, WorkerSound, DispatchSound;
    match input
    case Transacts(dir, f) => TransactsKeeps(s, h, dir, f);
    case Abandons(dir, f) => AbandonsKeeps(s, h, dir, f);
    case Answered(a) =>
      if MayReport(s, s.handlers[h].Id(), a) {
        assert HandlerSound(s, s.handlers[h]);
        AnswerSound(s, s.handlers[h], a);
        AnswerKeepsIdentity(s.handlers[h], a);
        LocalStepKeeps(s, h, AfterAnswer(s.handlers[h], a));
      }
    case Calls => CallsKeeps(s, h);
    case Beats(renewed, clock) => BeatsKeeps(s, h, renewed, clock);
    case _ =>
      assert HandlerSound(s, s.handlers[h]);
      MovesSound(s, s.handlers[h], input);
      MovesKeepIdentity(s.handlers[h], input);
      LocalStepKeeps(s, h, Moves(s.handlers[h], input));
  }

  // ---------------------------------------------------------------- workers, the authority and late commits

  /** Tables or authority moved, handlers and logs did not. */
  lemma WorldMoves(s: State, t: State)
    requires Inv(s) && Grows(s, t) && LedgerInv(t.store) && EventsBacked(t)
    requires t.handlers == s.handlers && t.inFlight == s.inFlight && t.dispatches == s.dispatches && t.settles == s.settles
    requires WorkersSound(t)
    ensures Inv(t)
  {
    OthersGrow(s, t);
    SettlesGrow(s, t);
    forall k | 0 <= k < |t.dispatches| ensures DispatchSound(t, t.dispatches[k]) {
      assert DispatchSound(s, s.dispatches[k]);
    }
  }

  lemma LandsKeeps(s: State, k: nat)
    requires Inv(s) && k < |s.inFlight|
    ensures Inv(Exec(s, Lands(k)))
  {
    hide LedgerInv, HandlerSound, WorkerSound, LateSound, DispatchSound, Extends, Apply;
    var t := Exec(s, Lands(k));
    var txn := s.inFlight[k];
    assert LateSound(s, txn);
    ApplyKeepsLedger(s.store, txn);
    ApplyExtends(s.store, txn);
    LateBacked(s, t, txn);
    OthersGrow(s, t);
    WorldMoves(s, t);
  }

  lemma RemoteMovesKeeps(s: State, id: string, c: Credit)
    requires Inv(s) && (id in s.remote ==> !Final(s.remote[id]))
    ensures Inv(Exec(s, RemoteMoves(id, c)))
  {
    hide LedgerInv, EventBacked, HandlerSound, WorkerSound, LateSound, DispatchSound, Extends;
    var t := Exec(s, RemoteMoves(id, c));
    ExtendsItself(s.store);
    OldEventsBacked(s, t);
    OthersGrow(s, t);
    WorldMoves(s, t);
  }

  lemma WorkersKeep(s: State, t: State)
    requires Inv(s) && t.store == s.store && t.remote == s.remote && t.handlers == s.handlers
    requires t.inFlight == s.inFlight && t.dispatches == s.dispatches && SettlesSound(t) && WorkersSound(t)
    ensures Inv(t)
  {
    KeptLogs(s, t);
  }

  lemma ScansKeeps(s: State, id: string, user: string, staleBefore: int)
    requires Inv(s)
    ensures Inv(Exec(s, Scans(id, user, staleBefore)))
  {
    hide LedgerInv, EventBacked, LateSound, HandlerSound, DispatchSound;
    var t := Exec(s, Scans(id, user, staleBefore));
    KeptLogs(s, t.(workers := s.workers));
    forall w | 0 <= w < |t.workers| ensures WorkerSound(t, t.workers[w]) {
      if w < |s.workers| { WorkerGrows(s, t, s.workers[w]); }
    }
    WorkersKeep(s, t);
  }

  lemma OneWorkerAsked(s: State, t: State, w: nat)
    requires Inv(s) && t.store == s.store && t.remote == s.remote && w < |s.workers| == |t.workers|
    requires forall v | 0 <= v < |s.workers| && v != w :: t.workers[v] == s.workers[v]
    requires WorkerSound(s, t.workers[w])
    ensures WorkersSound(t)
  {
    forall v | 0 <= v < |t.workers| ensures WorkerSound(t, t.workers[v]) {
      if v != w { assert WorkerSound(s, s.workers[v]); }
    }
  }

  lemma StatusKeeps(s: State, w: nat, a: Answer)
    requires Inv(s) && w < |s.workers|
    ensures Inv(WorkerStep(s, w, StatusAnswered(a)))
  {
    hide LedgerInv, EventBacked, LateSound, HandlerSound, DispatchSound;
    var t := WorkerStep(s, w, StatusAnswered(a));
    assert WorkerSound(s, s.workers[w]);
    OneWorkerAsked(s, t, w);
    forall k | 0 <= k < |t.settles| ensures UsageCommitted(t.store, t.settles[k].operationId, t.settles[k].tokens) {
      if k < |s.settles| { assert UsageCommitted(s.store, s.settles[k].operationId, s.settles[k].tokens); }
    }
    WorkersKeep(s, t);
  }

  lemma TerminalAnswerKeeps(s: State, w: nat, a: Answer)
    requires Inv(s) && w < |s.workers|
    ensures Inv(WorkerStep(s, w, TerminalAnswered(a)))
  {
    hide LedgerInv, EventBacked, LateSound, HandlerSound, DispatchSound;
    var t := WorkerStep(s, w, TerminalAnswered(a));
    assert WorkerSound(s, s.workers[w]);
    OneWorkerAsked(s, t, w);
    KeptLogs(s, t.(workers := s.workers));
    WorkersKeep(s, t);
  }

  lemma RecoveryTransactionBacked(s: State, t: State, it: Worker, now: int)
    requires LedgerInv(s.store) && EventsBacked(s) && WorkerSound(s, it)
    requires it.phase.ClosingRemote? || it.phase.ClosingWithoutCredit?
    requires t.store == Apply(s.store, RecoveryTransaction(it.candidate, it.phase, now)) && t.remote == s.remote
    ensures EventsBacked(t)
  {
    hide LedgerInv, EventsBacked, Apply;
    var txn := RecoveryTransaction(it.candidate, it.phase, now);
    if txn.DoRecordUsageAndFinalize? {
      RecoveryBacked(s, t, txn.id, txn.prompt, txn.completion, txn.terminal);
    } else {
      FinalizeBacked(s, t, txn.id, txn.terminal);
    }
  }

  lemma CommitsKeeps(s: State, w: nat, now: int)
    requires Inv(s) && w < |s.workers|
    ensures Inv(WorkerStep(s, w, Commits(now)))
  {
    var t := WorkerStep(s, w, Commits(now));
    var it := s.workers[w];
    assert WorkerSound(s, it) && WorkerSound(s, it.(phase := Over));
    hide LedgerInv, HandlerSound, WorkerSound, LateSound, DispatchSound, Extends, Apply, RecoveryTransaction;
    if it.phase.ClosingRemote? || it.phase.ClosingWithoutCredit? {
      var txn := RecoveryTransaction(it.candidate, it.phase, now);
      ApplyKeepsLedger(s.store, txn);
      ApplyExtends(s.store, txn);
      RecoveryTransactionBacked(s, t, it, now);
      forall v | 0 <= v < |t.workers| ensures WorkerSound(t, t.workers[v]) {
        assert t.workers[v] == if v == w then it.(phase := Over) else s.workers[v];
        WorkerGrows(s, t, t.workers[v]);
      }
      WorldMoves(s, t);
    }
  }

  lemma ArrivesKeeps(s: State, q: ReserveRequest, user: string, serverId: string)
    requires Inv(s)
    ensures Inv(Exec(s, Arrives(q, user, serverId)))
  {
    hide LedgerInv, EventBacked, LateSound, WorkerSound, Extends;
    var t := Exec(s, Arrives(q, user, serverId));
    ExtendsItself(s.store);
    SameStoreBacked(s, t);
    OthersGrow(s, t);
    SettlesGrow(s, t);
    forall h | 0 <= h < |t.handlers| ensures HandlerSound(t, t.handlers[h]) {
      if h < |s.handlers| { assert HandlerSound(t, s.handlers[h]); }
    }
    forall k | 0 <= k < |t.dispatches| ensures DispatchSound(t, t.dispatches[k]) {
      assert DispatchSound(s, s.dispatches[k]);
    }
  }

  lemma ExecKeeps(s: State, a: Action)
    requires Inv(s)
    ensures Inv(Exec(s, a))
  {
    hide Inv, HandlerStep, WorkerStep;
    match a
    case Arrives(q, user, serverId) => ArrivesKeeps(s, q, user, serverId);
    case HandlerActs(h, input) => if h < |s.handlers| { HandlerStepKeeps(s, h, input); }
    case Lands(k) => if k < |s.inFlight| { LandsKeeps(s, k); }
    case RemoteMoves(id, c) => if id in s.remote ==> !Final(s.remote[id]) { RemoteMovesKeeps(s, id, c); }
    case Scans(id, user, staleBefore) => ScansKeeps(s, id, user, staleBefore);
    case WorkerActs(w, input) =>
      if w < |s.workers| {
        match input
        case StatusAnswered(answer) => StatusKeeps(s, w, answer);
        case TerminalAnswered(answer) => TerminalAnswerKeeps(s, w, answer);
        case Commits(now) => CommitsKeeps(s, w, now);
      }
  }

  lemma {:induction false} InvHolds(actions: seq<Action>)
    ensures Inv(Run(actions))
    decreases |actions|
  {
    if actions != [] {
      InvHolds(actions[..|actions| - 1]);
      ExecKeeps(Run(actions[..|actions| - 1]), actions[|actions| - 1]);
    }
  }

  // ---------------------------------------------------------------- what follows for every schedule

  /** An operation is completed locally only as the authority charged it: same token pair, and the one event
      that records it carries exactly the authority's charge. */
  lemma SettlementAgreement(actions: seq<Action>, i: nat)
    requires i < |Run(actions).store.operations| && Run(actions).store.operations[i].status.Completed?
    ensures var s := Run(actions); var o := s.store.operations[i];
            && o.id in s.remote && s.remote[o.id].status.SucceededCharged?
            && s.remote[o.id].prompt == o.prompt && s.remote[o.id].completion == o.completion
            && EventCount(s.store.events, o.id) == 1
            && forall k | 0 <= k < |s.store.events| && s.store.events[k].operationId == o.id ::
                 s.store.events[k].charged == s.remote[o.id].charged
  {
    InvHolds(actions);
    var s := Run(actions);
    var o := s.store.operations[i];
    assert OperationSound(s.store, o);
    IndexOfIs(s.store.operations, o.id, i);
    var k := FindEvent(s.store.events, o.id);
    assert EventBacked(s, s.store.events[k]) && EventSound(s.store, k);
    forall k | 0 <= k < |s.store.events| && s.store.events[k].operationId == o.id
      ensures s.store.events[k].charged == s.remote[o.id].charged
    {
      assert EventBacked(s, s.store.events[k]);
    }
  }

  lemma {:induction false} FindEvent(events: seq<Event>, id: string) returns (k: nat)
    requires EventCount(events, id) > 0
    ensures k < |events| && events[k].operationId == id
    decreases |events|
  {
    if events[|events| - 1].operationId == id { k := |events| - 1; } else { k := FindEvent(events[..|events| - 1], id); }
  }

  /** Whatever an event says was charged, the authority finally charged; only the three codes written without
      credit say nothing about the authority, and they charge nothing. */
  lemma ChargesAgree(actions: seq<Action>, k: nat)
    requires k < |Run(actions).store.events|
    ensures var s := Run(actions); var e := s.store.events[k];
            if NoCreditCode(e.code) then e.charged == 0
            else e.operationId in s.remote && Final(s.remote[e.operationId]) && s.remote[e.operationId].charged == e.charged
  {
    InvHolds(actions);
    assert EventBacked(Run(actions), Run(actions).store.events[k]);
  }

  /** All settle requests for one operation, whoever sent them, carry its committed usage, hence one pair. */
  lemma SettleRequestsAgree(actions: seq<Action>, j: nat, k: nat)
    requires j < |Run(actions).settles| && k < |Run(actions).settles|
    requires Run(actions).settles[j].operationId == Run(actions).settles[k].operationId
    ensures Run(actions).settles[j] == Run(actions).settles[k]
    ensures UsageCommitted(Run(actions).store, Run(actions).settles[j].operationId, Run(actions).settles[j].tokens)
  {
    InvHolds(actions);
    var s := Run(actions);
    assert UsageCommitted(s.store, s.settles[j].operationId, s.settles[j].tokens);
    assert UsageCommitted(s.store, s.settles[k].operationId, s.settles[k].tokens);
  }

  /** The provider is called at most once per caller and client request ID, and only for an operation whose
      quota and credit reservations are committed. */
  lemma DispatchedOnce(actions: seq<Action>, j: nat, k: nat)
    requires j < k < |Run(actions).dispatches|
    ensures var s := Run(actions);
            (s.dispatches[j].client, s.dispatches[j].requestId) != (s.dispatches[k].client, s.dispatches[k].requestId)
  {
    InvHolds(actions);
    var s := Run(actions);
    assert KeysDistinct(s.store);
    hide Run, LedgerInv;
    var d, e := s.dispatches[j], s.dispatches[k];
    assert DispatchSound(s, d) && DispatchSound(s, e);
    assert HandlerSound(s, s.handlers[d.handler]) && HandlerSound(s, s.handlers[e.handler]);
    var g, h := Min(d.handler, e.handler), Max(d.handler, e.handler);
    assert s.handlers[g].owned && s.handlers[h].owned && s.handlers[g].Id() != s.handlers[h].Id();
    var x, y := IndexOf(s.store.operations, d.operationId), IndexOf(s.store.operations, e.operationId);
    assert s.store.operations[Min(x, y)].client != s.store.operations[Max(x, y)].client
        || s.store.operations[Min(x, y)].requestId != s.store.operations[Max(x, y)].requestId;
  }

  lemma DispatchReserved(actions: seq<Action>, k: nat)
    requires k < |Run(actions).dispatches|
    ensures var s := Run(actions); var d := s.dispatches[k];
            && Has(s.store, d.operationId) && Op(s.store, d.operationId).settlementId.Some?
            && Op(s.store, d.operationId).client == d.client && Op(s.store, d.operationId).requestId == d.requestId
  {
    InvHolds(actions);
    var s := Run(actions);
    assert DispatchSound(s, s.dispatches[k]);
    assert HandlerSound(s, s.handlers[s.dispatches[k].handler]);
  }

  lemma SeenIsCommitted(s: State, it: Handler, i: nat)
    requires OperationsSound(s.store) && HandlerSound(s, it)
    ensures i < |it.frames| && (it.frames[i].Done? || it.frames[i].Error?) ==> i == |it.frames| - 1
    ensures (i < |it.frames| && it.frames[i].Done?) || it.responded ==>
              CompletedHere(s.store, it.Id()) && EventCount(s.store.events, it.Id()) == 1
  {
    if i + 1 < |it.frames| { assert it.frames[i] == it.frames[..|it.frames| - 1][i]; }
    if CompletedHere(s.store, it.Id()) { assert OperationSound(s.store, Op(s.store, it.Id())); }
  }

  /** What a client has seen of any handler: [DONE] or an error only as the last frame, so never both, and
      [DONE] or a JSON answer only once the operation is committed as completed with its event. */
  lemma ClientsSeeCommitted(actions: seq<Action>, h: nat, i: nat)
    requires h < |Run(actions).handlers|
    ensures var s := Run(actions); var it := s.handlers[h];
            && (i < |it.frames| && (it.frames[i].Done? || it.frames[i].Error?) ==> i == |it.frames| - 1)
            && ((i < |it.frames| && it.frames[i].Done?) || it.responded ==>
                  CompletedHere(s.store, it.Id()) && EventCount(s.store.events, it.Id()) == 1)
  {
    InvHolds(actions);
    var s := Run(actions);
    SeenIsCommitted(s, s.handlers[h], i);
  }

  // ---------------------------------------------------------------- nothing committed is undone

  lemma ExecGrows(s: State, a: Action)
    ensures Grows(s, Exec(s, a))
  {
    hide Apply, Awaited, Extends, RecoveryTransaction, AfterAnswer, AfterBeat, AfterCommit, AfterRollback, Moves;
    ExtendsItself(s.store);
    match a
    case HandlerActs(h, input) =>
      if h < |s.handlers| {
        var it := s.handlers[h];
        if input.Transacts? && Awaited(it, input.dir, input.facts).Some? {
          ApplyExtends(s.store, Awaited(it, input.dir, input.facts).value);
        } else if input.Beats? {
          ApplyExtends(s.store, DoTouch(it.Id(), Max(input.clock, it.request.now)));
        }
      }
    case Lands(k) => if k < |s.inFlight| { ApplyExtends(s.store, s.inFlight[k]); }
    case WorkerActs(w, input) =>
      if w < |s.workers| && input.Commits? && (s.workers[w].phase.ClosingRemote? || s.workers[w].phase.ClosingWithoutCredit?) {
        ApplyExtends(s.store, RecoveryTransaction(s.workers[w].candidate, s.workers[w].phase, input.now));
      }
    case _ =>
  }

  lemma {:induction false} RunGrows(actions: seq<Action>, n: nat)
    requires n <= |actions|
    ensures Grows(Run(actions[..n]), Run(actions))
    decreases |actions|
  {
    if n == |actions| {
      assert actions[..n] == actions;
    } else {
      var m := |actions| - 1;
      RunGrows(actions[..m], n);
      assert actions[..m][..n] == actions[..n];
      ExecGrows(Run(actions[..m]), actions[m]);
      ExtendsTransitive(Run(actions[..n]).store, Run(actions[..m]).store, Run(actions).store);
    }
  }

  /** Once terminal, an operation and its event are the same for ever: later disconnects, retries, late
      commits and recoveries add no second event and move none of its tokens again. */
  lemma TerminalForEver(actions: seq<Action>, n: nat, i: nat)
    requires n <= |actions| && i < |Run(actions[..n]).store.operations|
    requires !Run(actions[..n]).store.operations[i].status.Pending?
    ensures var s, t := Run(actions[..n]), Run(actions);
            && i < |t.store.operations| && t.store.operations[i] == s.store.operations[i]
            && EventCount(t.store.events, s.store.operations[i].id) == 1
            && s.store.events <= t.store.events
  {
    RunGrows(actions, n);
    InvHolds(actions);
    var s, t := Run(actions[..n]), Run(actions);
    assert Evolves(s.store.operations[i], t.store.operations[i]);
    assert OperationSound(t.store, t.store.operations[i]);
  }
}
