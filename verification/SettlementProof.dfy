/** What every schedule of the settlement protocol keeps. */
module SettlementProof {
  import opened Common
  import opened QuotaSpec
  import opened QuotaInvariant
  import opened Settlement

  // ---------------------------------------------------------------- the invariant

  predicate NoCreditCode(code: string) {
    CreditRefusal(code) || code == "RECOVERED_NO_CREDIT"
  }

  /** Terminal evidence the authority backs: a completion carries its final charge and token pair, any other
      evidence its final charge, and evidence written without credit charges nothing. */
  predicate Backed(remote: map<string, Credit>, id: string, status: Status, code: string, charged: int, prompt: nat, completion: nat) {
    && (status.Completed? ==>
          id in remote && remote[id].status.SucceededCharged? && remote[id].prompt == prompt && remote[id].completion == completion)
    && (if NoCreditCode(code) then charged == 0 && !status.Completed?
        else id in remote && Final(remote[id]) && remote[id].charged == charged)
  }

  /** Evidence ready to commit for an operation whose recorded usage is already fixed if it completes. */
  predicate ReadyToClose(s: State, id: string, status: Status, code: string, charged: int) {
    && Has(s.store, id)
    && var o := Op(s.store, id);
       && (status.Completed? ==> o.usageRecorded)
       && Backed(s.remote, id, status, code, charged, o.prompt, o.completion)
  }

  predicate EventBacked(s: State, e: Event) {
    && Has(s.store, e.operationId)
    && var o := Op(s.store, e.operationId);
       Backed(s.remote, o.id, o.status, e.code, e.charged, o.prompt, o.completion)
  }

  predicate UsageCommitted(db: Store, id: string, tokens: Tokens) {
    && Has(db, id) && Op(db, id).usageRecorded
    && Op(db, id).prompt == tokens.prompt && Op(db, id).completion == tokens.completion
  }

  predicate CompletedHere(db: Store, id: string) {
    Has(db, id) && Op(db, id).status.Completed?
  }

  predicate Plain(frames: seq<Frame>) {
    forall i | 0 <= i < |frames| :: frames[i].Data? || frames[i].Heartbeat?
  }

  /** [DONE] or an error frame only last, and never both. */
  predicate FramesSound(frames: seq<Frame>) {
    frames == [] || Plain(frames[..|frames| - 1])
  }

  predicate EndsDone(frames: seq<Frame>) {
    frames != [] && frames[|frames| - 1].Done?
  }

  predicate GoalSound(g: Goal) {
    && (g.status.Completed? <==> g == JSON_SUCCESS || g == STREAM_SUCCESS)
    && (g.finish.SendDone? <==> g == STREAM_SUCCESS) && (g.finish.Respond? <==> g == JSON_SUCCESS)
    && (g.otherwise.Stop? || g.otherwise.SendError?)
  }

  function GoalOf(p: Phase): Option<Goal> {
    match p
    case Recording(g) => Some(g)
    case Settling(g) => Some(g)
    case AwaitingSettle(g) => Some(g)
    case Cancelling(g) => Some(g)
    case AwaitingCancel(g) => Some(g)
    case Closing(g, _) => Some(g)
    case _ => None
  }

  /** What the handler has already sent its client matches what is committed. */
  predicate FramesFit(s: State, h: Handler) {
    && FramesSound(h.frames)
    && (h.responded ==> CompletedHere(s.store, h.Id()))
    && (EndsDone(h.frames) ==> CompletedHere(s.store, h.Id()))
    && (!h.phase.Ended? && !EndsDone(h.frames) ==> Plain(h.frames))
    && (EndsDone(h.frames) ==> h.phase.Ended? || h.phase.AfterDone? || GoalOf(h.phase) == Some(DISCONNECTED))
  }

  predicate PhaseFits(s: State, h: Handler) {
    && (GoalOf(h.phase).Some? ==>
          && GoalSound(GoalOf(h.phase).value)
          && (NoCreditCode(GoalOf(h.phase).value.code) ==> h.phase.Closing? && h.phase.charged == 0 && GoalOf(h.phase).value.finish.Stop?))
    && (h.phase.Recording? ==> h.usage.Some?)
    && (h.phase.Settling? || h.phase.AwaitingSettle? ==> h.usage.Some? && UsageCommitted(s.store, h.Id(), h.usage.value))
    && (h.phase.Cancelling? || h.phase.AwaitingCancel? ==> !GoalOf(h.phase).value.status.Completed?)
    && (h.phase.Closing? ==> ReadyToClose(s, h.Id(), h.phase.goal.status, h.phase.goal.code, h.phase.charged))
    && (h.phase.YieldingDone? || h.phase.AfterDone? ==> CompletedHere(s.store, h.Id()))
  }

  /** The handler's operation is its own committed row, and its credit reservation is recorded before the call. */
  predicate OwnershipFits(s: State, h: Handler) {
    && (h.owned ==> Has(s.store, h.Id()) && Op(s.store, h.Id()).client == h.request.client
                    && Op(s.store, h.Id()).requestId == h.request.requestId)
    && (!h.owned ==> h.phase.Admitting? || h.phase.Ended?)
    && (h.phase.Granted? ==> h.settlementId.Some?)
    && (h.phase.Ready? ==> h.settlementId.Some? && !h.dispatched && Op(s.store, h.Id()).settlementId.Some?)
    && (h.phase.Admitting? || h.phase.AwaitingCredit? || h.phase.Granted? ==> !h.dispatched)
    && (h.dispatched ==> h.owned && Op(s.store, h.Id()).settlementId.Some?)
  }

  predicate HandlerSound(s: State, h: Handler) {
    OwnershipFits(s, h) && PhaseFits(s, h) && FramesFit(s, h)
  }

  predicate WorkerSound(s: State, w: Worker) {
    var k := w.candidate;
    && Has(s.store, k.operationId)
    && (k.usageRecorded ==> UsageCommitted(s.store, k.operationId, Tokens(k.prompt, k.completion)))
    && (w.phase.ClosingRemote? ==>
          k.operationId in s.remote && s.remote[k.operationId] == w.phase.credit && Final(w.phase.credit))
  }

  predicate DispatchSound(s: State, d: Dispatch) {
    && d.handler < |s.handlers| && s.handlers[d.handler].dispatched
    && s.handlers[d.handler].Id() == d.operationId
    && s.handlers[d.handler].request.client == d.client && s.handlers[d.handler].request.requestId == d.requestId
  }

  predicate LateSound(s: State, txn: Transaction) {
    match txn
    case DoFinalize(id, t) => ReadyToClose(s, id, t.status, t.code, t.charged)
    case DoRecordUsageAndFinalize(_, _, _, _) => false
    case _ => true
  }

  predicate HandlersSound(s: State) { forall h | 0 <= h < |s.handlers| :: HandlerSound(s, s.handlers[h]) }

  predicate OwnersDistinct(s: State) {
    forall g, h | 0 <= g < h < |s.handlers| && s.handlers[g].owned && s.handlers[h].owned :: s.handlers[g].Id() != s.handlers[h].Id()
  }

  predicate WorkersSound(s: State) { forall w | 0 <= w < |s.workers| :: WorkerSound(s, s.workers[w]) }

  predicate DispatchesSound(s: State) {
    && (forall k | 0 <= k < |s.dispatches| :: DispatchSound(s, s.dispatches[k]))
    && (forall k, l | 0 <= k < l < |s.dispatches| :: s.dispatches[k].handler != s.dispatches[l].handler)
  }

  predicate SettlesSound(s: State) {
    forall k | 0 <= k < |s.settles| :: UsageCommitted(s.store, s.settles[k].operationId, s.settles[k].tokens)
  }

  predicate LateOnesSound(s: State) { forall k | 0 <= k < |s.inFlight| :: LateSound(s, s.inFlight[k]) }

  predicate EventsBacked(s: State) { forall k | 0 <= k < |s.store.events| :: EventBacked(s, s.store.events[k]) }

  predicate Inv(s: State) {
    && LedgerInv(s.store) && HandlersSound(s) && OwnersDistinct(s) && WorkersSound(s)
    && DispatchesSound(s) && SettlesSound(s) && LateOnesSound(s) && EventsBacked(s)
  }

  // ---------------------------------------------------------------- growth

  predicate RemoteGrows(a: map<string, Credit>, b: map<string, Credit>) {
    forall id | id in a && Final(a[id]) :: id in b && b[id] == a[id]
  }

  /** Tables are extended and final credit is kept; nothing else is asked. */
  predicate Grows(s: State, t: State) {
    Extends(s.store, t.store) && RemoteGrows(s.remote, t.remote)
  }

  lemma ExtendsById(db: Store, db': Store, id: string)
    requires Extends(db, db') && Has(db, id)
    ensures Has(db', id) && Evolves(Op(db, id), Op(db', id))
  {
    var i := IndexOf(db.operations, id);
    forall j | 0 <= j < i ensures db'.operations[j].id != id {
      assert Evolves(db.operations[j], db'.operations[j]);
    }
    assert Evolves(db.operations[i], db'.operations[i]);
    IndexOfIs(db'.operations, id, i);
  }

  lemma ReadyToCloseGrows(s: State, t: State, id: string, status: Status, code: string, charged: int)
    requires Grows(s, t) && ReadyToClose(s, id, status, code, charged)
    ensures ReadyToClose(t, id, status, code, charged)
  {
    ExtendsById(s.store, t.store, id);
  }

  lemma HandlerGrows(s: State, t: State, h: Handler)
    requires Grows(s, t) && HandlerSound(s, h)
    ensures HandlerSound(t, h)
  {
    if Has(s.store, h.Id()) { ExtendsById(s.store, t.store, h.Id()); }
    if h.phase.Closing? { ReadyToCloseGrows(s, t, h.Id(), h.phase.goal.status, h.phase.goal.code, h.phase.charged); }
  }

  lemma WorkerGrows(s: State, t: State, w: Worker)
    requires Grows(s, t) && WorkerSound(s, w)
    ensures WorkerSound(t, w)
  {
    ExtendsById(s.store, t.store, w.candidate.operationId);
  }

  lemma LateGrows(s: State, t: State, txn: Transaction)
    requires Grows(s, t) && LateSound(s, txn)
    ensures LateSound(t, txn)
  {
    if txn.DoFinalize? { ReadyToCloseGrows(s, t, txn.id, txn.terminal.status, txn.terminal.code, txn.terminal.charged); }
  }

  lemma SettlesGrow(s: State, t: State)
    requires Grows(s, t) && SettlesSound(s) && t.settles == s.settles
    ensures SettlesSound(t)
  {
    forall k | 0 <= k < |t.settles| ensures UsageCommitted(t.store, t.settles[k].operationId, t.settles[k].tokens) {
      assert UsageCommitted(s.store, s.settles[k].operationId, s.settles[k].tokens);
      ExtendsById(s.store, t.store, s.settles[k].operationId);
    }
  }

  /** A committed event stays backed: its operation is terminal, so nothing it was checked against moves. */
  lemma EventGrows(s: State, t: State, e: Event)
    requires Grows(s, t) && EventBacked(s, e) && !Op(s.store, e.operationId).status.Pending?
    ensures EventBacked(t, e)
  {
    ExtendsById(s.store, t.store, e.operationId);
  }

  lemma EventIsTerminal(db: Store, k: nat)
    requires EventsSound(db) && k < |db.events|
    ensures Has(db, db.events[k].operationId) && !Op(db, db.events[k].operationId).status.Pending?
    ensures Op(db, db.events[k].operationId).code == Some(db.events[k].code)
  {
    assert EventSound(db, k);
  }

  // ---------------------------------------------------------------- terminal transactions are backed

  /** Growth leaves every committed event backed. */
  lemma OldEventsBacked(s: State, t: State)
    requires LedgerInv(s.store) && EventsBacked(s) && Grows(s, t)
    ensures forall k | 0 <= k < |s.store.events| :: EventBacked(t, s.store.events[k])
  {
    assert EventsSound(s.store);
    hide LedgerInv, Grows, EventBacked, EventsSound;
    forall k | 0 <= k < |s.store.events| ensures EventBacked(t, s.store.events[k]) {
      EventIsTerminal(s.store, k);
      assert EventBacked(s, s.store.events[k]);
      EventGrows(s, t, s.store.events[k]);
    }
  }

  lemma NewEventBacked(s: State, t: State, id: string, terminal: Terminal)
    requires Has(s.store, id) && Op(s.store, id).status.Pending? && Finalize(s.store, id, terminal).Ok?
    requires t.store == Apply(s.store, DoFinalize(id, terminal)) && t.remote == s.remote
    requires ReadyToClose(s, id, terminal.status, terminal.code, terminal.charged)
    ensures |t.store.events| == |s.store.events| + 1 && s.store.events <= t.store.events
    ensures EventBacked(t, t.store.events[|s.store.events|])
  {
    var i := IndexOf(s.store.operations, id);
    IndexOfUpdate(s.store.operations, i, Terminated(s.store.operations[i], terminal), id);
  }

  lemma FinalizeBacked(s: State, t: State, id: string, terminal: Terminal)
    requires LedgerInv(s.store) && EventsBacked(s)
    requires t.store == Apply(s.store, DoFinalize(id, terminal)) && t.remote == s.remote
    requires Has(s.store, id) && Op(s.store, id).status.Pending? ==>
               ReadyToClose(s, id, terminal.status, terminal.code, terminal.charged)
    ensures EventsBacked(t)
  {
    hide LedgerInv, Extends, EventBacked, Apply, Finalize, ReadyToClose, IndexOf;
    ApplyExtends(s.store, DoFinalize(id, terminal));
    OldEventsBacked(s, t);
    FinalizeActs(s.store, id, terminal);
    if Finalize(s.store, id, terminal).Ok? && Op(s.store, id).status.Pending? { NewEventBacked(s, t, id, terminal); }
  }

  lemma FinalizeActs(db: Store, id: string, terminal: Terminal)
    ensures Finalize(db, id, terminal).Ok? ==> Has(db, id)
    ensures !(Finalize(db, id, terminal).Ok? && Op(db, id).status.Pending?) ==> Apply(db, DoFinalize(id, terminal)) == db
  {
  }

  lemma QuietKeepsEvents(db: Store, txn: Transaction)
    requires !txn.DoFinalize? && !txn.DoRecordUsageAndFinalize?
    ensures Apply(db, txn).events == db.events
  {
    hide ReserveProblem, PendingProblem;
  }

  /** Transactions that only add evidence or operations write no event. */
  lemma QuietBacked(s: State, t: State, txn: Transaction)
    requires LedgerInv(s.store) && EventsBacked(s)
    requires !txn.DoFinalize? && !txn.DoRecordUsageAndFinalize?
    requires t.store == Apply(s.store, txn) && RemoteGrows(s.remote, t.remote)
    ensures EventsBacked(t)
  {
    ApplyExtends(s.store, txn);
    QuietKeepsEvents(s.store, txn);
    hide Apply, LedgerInv, Extends, EventBacked, RemoteGrows;
    OldEventsBacked(s, t);
  }

  lemma RecordUsageCommits(db: Store, id: string, prompt: int, completion: int, now: int)
    requires RecordUsage(db, id, prompt, completion, now).Ok?
    ensures prompt >= 0 && completion >= 0
    ensures UsageCommitted(Apply(db, DoRecordUsage(id, prompt, completion, now)), id, Tokens(prompt, completion))
  {
    var i := IndexOf(db.operations, id);
    var db' := Apply(db, DoRecordUsage(id, prompt, completion, now));
    IndexOfUpdate(db.operations, i, db'.operations[i], id);
  }

  lemma SameStoreBacked(s: State, t: State)
    requires EventsBacked(s) && t.store == s.store && t.remote == s.remote
    ensures EventsBacked(t)
  {
    forall k | 0 <= k < |t.store.events| ensures EventBacked(t, t.store.events[k]) {
      assert EventBacked(s, s.store.events[k]);
    }
  }

  lemma RecoveryBacked(s: State, t: State, id: string, prompt: int, completion: int, terminal: Terminal)
    requires LedgerInv(s.store) && EventsBacked(s)
    requires t.store == Apply(s.store, DoRecordUsageAndFinalize(id, prompt, completion, terminal)) && t.remote == s.remote
    requires prompt >= 0 && completion >= 0
    requires Backed(s.remote, id, terminal.status, terminal.code, terminal.charged, prompt, completion)
    ensures EventsBacked(t)
  {
    hide LedgerInv, EventsBacked, Finalize, RecordUsage;
    if RecordUsageAndFinalize(s.store, id, prompt, completion, terminal).Ok? {
      var recording := DoRecordUsage(id, prompt, completion, terminal.completedAt);
      var mid := s.(store := Apply(s.store, recording));
      EvidenceKeepsLedger(s.store, recording);
      QuietBacked(s, mid, recording);
      RecordUsageCommits(s.store, id, prompt, completion, terminal.completedAt);
      FinalizeBacked(mid, t, id, terminal);
    } else {
      SameStoreBacked(s, t);
    }
  }

  /** A late transaction, whenever it lands, leaves every event backed. */
  lemma LateBacked(s: State, t: State, txn: Transaction)
    requires LedgerInv(s.store) && EventsBacked(s) && LateSound(s, txn)
    requires t.store == Apply(s.store, txn) && t.remote == s.remote
    ensures EventsBacked(t)
  {
    if txn.DoFinalize? { FinalizeBacked(s, t, txn.id, txn.terminal); } else { QuietBacked(s, t, txn); }
  }

  // ---------------------------------------------------------------- everything else, by growth

  lemma OthersGrow(s: State, t: State)
    requires Inv(s) && Grows(s, t)
    ensures forall h | 0 <= h < |s.handlers| :: HandlerSound(t, s.handlers[h])
    ensures forall w | 0 <= w < |s.workers| :: WorkerSound(t, s.workers[w])
    ensures forall k | 0 <= k < |s.inFlight| :: LateSound(t, s.inFlight[k])
  {
    forall h | 0 <= h < |s.handlers| ensures HandlerSound(t, s.handlers[h]) { HandlerGrows(s, t, s.handlers[h]); }
    forall w | 0 <= w < |s.workers| ensures WorkerSound(t, s.workers[w]) { WorkerGrows(s, t, s.workers[w]); }
    forall k | 0 <= k < |s.inFlight| ensures LateSound(t, s.inFlight[k]) { LateGrows(s, t, s.inFlight[k]); }
  }

  /** One handler replaced: the invariant needs only the new handler's own facts. */
  lemma HandlerReplaced(s: State, t: State, h: nat)
    requires Inv(s) && Grows(s, t) && h < |s.handlers|
    requires LedgerInv(t.store) && EventsBacked(t) && SettlesSound(t) && DispatchesSound(t) && LateOnesSound(t)
    requires t.workers == s.workers && |t.handlers| == |s.handlers|
    requires forall g | 0 <= g < |s.handlers| && g != h :: t.handlers[g] == s.handlers[g]
    requires HandlerSound(t, t.handlers[h])
    requires t.handlers[h].Id() == s.handlers[h].Id()
    requires t.handlers[h].owned && !s.handlers[h].owned ==>
               forall g | 0 <= g < |s.handlers| && g != h && s.handlers[g].owned :: s.handlers[g].Id() != s.handlers[h].Id()
    ensures Inv(t)
  {
    OthersGrow(s, t);
    forall g | 0 <= g < |t.handlers| ensures HandlerSound(t, t.handlers[g]) {
      if g != h { assert HandlerSound(t, s.handlers[g]); }
    }
    forall w | 0 <= w < |t.workers| ensures WorkerSound(t, t.workers[w]) {
      assert WorkerSound(t, s.workers[w]);
    }
  }

  /** The dispatch log survives a handler step that keeps the request and the dispatched mark. */
  lemma DispatchesKept(s: State, t: State, h: nat)
    requires DispatchesSound(s) && t.dispatches == s.dispatches && h < |s.handlers| == |t.handlers|
    requires forall g | 0 <= g < |s.handlers| && g != h :: t.handlers[g] == s.handlers[g]
    requires t.handlers[h].request == s.handlers[h].request
    requires s.handlers[h].dispatched ==> t.handlers[h].dispatched
    ensures DispatchesSound(t)
  {
    forall k | 0 <= k < |t.dispatches| ensures DispatchSound(t, t.dispatches[k]) {
      assert DispatchSound(s, s.dispatches[k]);
    }
  }

  predicate SameIdentity(a: Handler, b: Handler) {
    b.request == a.request && b.serviceUser == a.serviceUser && b.serverRequestId == a.serverRequestId
    && (a.owned ==> b.owned) && (a.dispatched ==> b.dispatched)
  }

  // ---------------------------------------------------------------- local handler steps

  lemma FailureStarts(s: State, h: Handler, goal: Goal)
    requires HandlerSound(s, h) && h.owned && GoalSound(goal) && !goal.status.Completed? && !NoCreditCode(goal.code)
    requires h.phase.Running? || GoalOf(h.phase) == Some(STREAM_SUCCESS) || h.phase.YieldingDone? || goal == DISCONNECTED
    requires goal == DISCONNECTED || !EndsDone(h.frames)
    requires !h.phase.Ended?
    ensures HandlerSound(s, StartFailure(h, goal))
  {
  }

  lemma InterruptSound(s: State, h: Handler)
    requires HandlerSound(s, h)
    ensures HandlerSound(s, Interrupt(h)) && SameIdentity(h, Interrupt(h)) && Interrupt(h).owned == h.owned
  {
    hide IndexOf, EventCount;
    if Interrupt(h) == End(h) { EndSound(s, h); } else { FailureStarts(s, h, DISCONNECTED); }
  }

  lemma EndSound(s: State, h: Handler)
    requires HandlerSound(s, h)
    ensures HandlerSound(s, End(h))
  {
  }

  lemma FinishedSound(s: State, h: Handler, f: Finish)
    requires HandlerSound(s, h) && h.owned && GoalOf(h.phase).Some?
    requires f.SendDone? || f.Respond? ==> CompletedHere(s.store, h.Id())
    requires EndsDone(h.frames) ==> f.Stop?
    ensures HandlerSound(s, Finished(h, f)) && SameIdentity(h, Finished(h, f))
  {
    if f.SendError? { assert (h.frames + [Error(f.code)])[..|h.frames|] == h.frames; }
  }

  lemma FailedSound(s: State, h: Handler)
    requires HandlerSound(s, h) && h.owned && GoalOf(h.phase).Some? && GoalSound(GoalOf(h.phase).value)
    ensures HandlerSound(s, Failed(h, GoalOf(h.phase).value)) && SameIdentity(h, Failed(h, GoalOf(h.phase).value))
  {
    var goal := GoalOf(h.phase).value;
    if goal == STREAM_SUCCESS { FailureStarts(s, h, BROKEN); } else { FinishedSound(s, h, goal.otherwise); }
  }

  lemma FrameSound(s: State, h: Handler, frame: Frame)
    requires HandlerSound(s, h) && h.phase.Running? && (frame.Data? || frame.Heartbeat?)
    ensures HandlerSound(s, h.(frames := h.frames + [frame]))
  {
    assert (h.frames + [frame])[..|h.frames|] == h.frames;
  }

  lemma DoneSound(s: State, h: Handler)
    requires HandlerSound(s, h) && h.phase.YieldingDone?
    ensures HandlerSound(s, h.(frames := h.frames + [Done], phase := AfterDone))
  {
    assert (h.frames + [Done])[..|h.frames|] == h.frames;
  }

  lemma ProviderFailsSound(s: State, h: Handler, fault: Fault)
    requires HandlerSound(s, h) && h.phase.Running?
    ensures HandlerSound(s, Moves(h, ProviderFails(fault)))
  {
    if h.request.stream { FailureStarts(s, h, ProviderGoal(fault, true)); }
  }

  lemma BreaksSound(s: State, h: Handler)
    requires HandlerSound(s, h) && h.phase.Running?
    ensures HandlerSound(s, Moves(h, Breaks))
  {
    if h.request.stream { FailureStarts(s, h, BROKEN); } else { EndSound(s, h); }
  }

  lemma RunningMovesSound(s: State, h: Handler, input: Input)
    requires HandlerSound(s, h) && (h.phase.Running? || h.phase.AfterDone?)
    requires input.ProviderReturns? || input.StreamUsage? || input.StreamEnds? || input.Resumes?
    ensures HandlerSound(s, Moves(h, input))
  {
  }

  lemma MovesKeepIdentity(h: Handler, input: Input)
    ensures SameIdentity(h, Moves(h, input)) && Moves(h, input).owned == h.owned
  {
  }

  lemma MovesSound(s: State, h: Handler, input: Input)
    requires HandlerSound(s, h)
    ensures HandlerSound(s, Moves(h, input))
  {
    hide IndexOf, EventCount, HandlerSound, UsageCommitted;
    if input.Interrupted? {
      InterruptSound(s, h);
    } else if input.Yields? {
      if h.phase.YieldingDone? { DoneSound(s, h); }
    } else if h.phase.Running? && input.StreamFrame? {
      FrameSound(s, h, Data);
    } else if h.phase.Running? && input.ProviderFails? {
      ProviderFailsSound(s, h, input.fault);
    } else if h.phase.Running? && input.Breaks? {
      BreaksSound(s, h);
    } else if Moves(h, input) != h {
      RunningMovesSound(s, h, input);
    }
  }
}
