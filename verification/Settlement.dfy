/** The settlement protocol: any number of gateway handlers and recovery workers act on the same operations
    while the remote credit authority moves on its own. One action is one transaction, one remote answer,
    one frame, or one interruption; a handler that is never scheduled again has crashed. */
module Settlement {
  import opened Common
  import opened QuotaSpec
  import opened QuotaInvariant

  // ---------------------------------------------------------------- the credit authority

  datatype CreditStatus = CreditPending | SucceededCharged | CancelledCharged | FailedNoCharge | SettlementError

  datatype Credit = Credit(
    operationId: string, settlementId: string, serviceUser: string, model: string, provider: string,
    usageOperationId: string, status: CreditStatus, prompt: nat, completion: nat, total: nat, charged: nat)

  /** Statuses the authority never leaves. */
  predicate Final(c: Credit) {
    c.status.SucceededCharged? || c.status.CancelledCharged? || c.status.FailedNoCharge?
  }

  datatype Answer = Fails(code: string) | Reports(credit: Credit)

  // ---------------------------------------------------------------- gateway handlers

  datatype Tokens = Tokens(prompt: nat, completion: nat)

  datatype Frame = Data | Heartbeat | Done | Error(code: string)

  /** What the handler does once its terminal evidence is committed, or once it gives up committing it. */
  datatype Finish = Respond | SendDone | SendError(code: string) | Stop

  datatype Goal = Goal(
    status: TerminalStatus, outcome: Outcome, stage: Stage, code: string, finish: Finish, otherwise: Finish)

  const JSON_SUCCESS := Goal(Completed, Success, InResponse, "OK", Respond, Stop)
  const STREAM_SUCCESS := Goal(Completed, Success, InResponse, "OK", SendDone, SendError("INTERNAL_ERROR"))
  const DISCONNECTED := Goal(Abandoned, Cancelled, InResponse, "CLIENT_DISCONNECTED", Stop, Stop)
  const LEASE_LOST := Goal(Abandoned, SystemError, InRecovery, "CONTROL_PLANE_UNAVAILABLE",
                           SendError("CONTROL_PLANE_UNAVAILABLE"), SendError("CONTROL_PLANE_UNAVAILABLE"))
  const BROKEN := Goal(Abandoned, SystemError, InRecovery, "INTERNAL_ERROR",
                       SendError("INTERNAL_ERROR"), SendError("INTERNAL_ERROR"))

  datatype Fault = NotFound | TimedOut | Unavailable

  function FaultCode(f: Fault): string {
    match f
    case NotFound => "MODEL_NOT_FOUND"
    case TimedOut => "MODEL_TIMEOUT"
    case Unavailable => "MODEL_UNAVAILABLE"
  }

  function ProviderGoal(f: Fault, stream: bool): Goal {
    if stream
    then Goal(Rejected, ProviderError, InProvider, FaultCode(f), SendError(FaultCode(f)), SendError("CONTROL_PLANE_UNAVAILABLE"))
    else Goal(Rejected, ProviderError, InProvider, FaultCode(f), Stop, Stop)
  }

  function CreditGoal(code: string): Goal {
    Goal(Rejected, Refused, InCredit, code, Stop, Stop)
  }

  predicate CreditRefusal(code: string) {
    code == "CREDIT_BALANCE_EXHAUSTED" || code == "CREDIT_ACCOUNT_FROZEN"
  }

  function HttpStatus(code: string): int {
    if code == "OK" then 200
    else if code == "CREDIT_BALANCE_EXHAUSTED" then 402
    else if code == "CREDIT_ACCOUNT_FROZEN" then 403
    else if code == "MODEL_NOT_FOUND" then 404
    else if code == "CLIENT_DISCONNECTED" then 499
    else if code == "INTERNAL_ERROR" then 500
    else if code == "MODEL_TIMEOUT" then 504
    else 503
  }

  predicate Retryable(code: string) {
    code == "CONTROL_PLANE_UNAVAILABLE" || code == "MODEL_UNAVAILABLE" || code == "MODEL_TIMEOUT"
  }

  datatype Phase =
    | Admitting                            // the quota transaction has not committed
    | AwaitingCredit                       // quota reserved, credit reservation asked
    | Granted                              // the credit answer was accepted
    | Ready                                // credit reservation recorded, provider not called
    | Running                              // the provider was called
    | Recording(goal: Goal)                // provider usage is known, not yet committed here
    | Settling(goal: Goal)                 // usage committed, settle not yet sent
    | AwaitingSettle(goal: Goal)
    | Cancelling(goal: Goal)
    | AwaitingCancel(goal: Goal)
    | Closing(goal: Goal, charged: nat)    // the terminal transaction is next
    | YieldingDone                         // committed, [DONE] not yet yielded
    | AfterDone                            // suspended at the yield of [DONE]
    | Ended

  datatype Handler = Handler(
    request: ReserveRequest, serviceUser: string, serverRequestId: string, phase: Phase, owned: bool, dispatched: bool,
    settlementId: Option<string>, usage: Option<Tokens>, frames: seq<Frame>, responded: bool)
  {
    function Id(): string { request.operationId }

    function UsageId(): string { request.operationId + ":usage" }
  }

  /** Measurements a terminal transaction carries along. */
  datatype Facts = Facts(durationMs: int, qps: int, concurrency: int, clock: int)

  datatype Input =
    | Interrupted                              // cancelled, or the client closed the stream
    | Transacts(dir: Directory, facts: Facts)  // the awaited transaction commits or raises
    | Abandons(dir: Directory, facts: Facts)   // interrupted while the transaction's thread runs on
    | Answered(answer: Answer)                 // the awaited remote call returns or raises
    | Calls                                    // the provider or the authority is called
    | ProviderFails(fault: Fault)
    | ProviderReturns(usage: Tokens)           // non-streaming response
    | StreamUsage(usage: Tokens)               // the decoder accepted the usage event
    | StreamFrame                              // a data frame is yielded
    | StreamEnds                               // the decoder accepted [DONE]
    | Beats(renewed: bool, clock: int)         // leases renewed or lost, operation touched
    | Breaks                                   // any other exception inside the stream loop
    | Yields
    | Resumes

  // ---------------------------------------------------------------- recovery workers

  datatype Candidate = Candidate(
    operationId: string, serviceUser: string, model: string, settlementId: Option<string>,
    usageOperationId: Option<string>, usageRecorded: bool, prompt: nat, completion: nat, startedAt: int)

  datatype WorkerPhase =
    | Checking | SettlingStale | CancellingStale | ClosingRemote(credit: Credit) | ClosingWithoutCredit | Over

  datatype Worker = Worker(candidate: Candidate, phase: WorkerPhase)

  datatype WorkerInput = StatusAnswered(answer: Answer) | TerminalAnswered(answer: Answer) | Commits(now: int)

  // ---------------------------------------------------------------- the whole system

  datatype Dispatch = Dispatch(handler: nat, operationId: string, client: string, requestId: string)

  datatype Settle = Settle(operationId: string, tokens: Tokens)

  datatype State = State(
    store: Store, remote: map<string, Credit>, handlers: seq<Handler>, workers: seq<Worker>,
    inFlight: seq<Transaction>, dispatches: seq<Dispatch>, settles: seq<Settle>)

  const INITIAL := State(EMPTY_STORE, map[], [], [], [], [], [])

  datatype Action =
    | Arrives(request: ReserveRequest, serviceUser: string, serverRequestId: string)
    | HandlerActs(h: nat, input: Input)
    | Lands(k: nat)                                         // an abandoned transaction commits late
    | RemoteMoves(id: string, credit: Credit)
    | Scans(id: string, serviceUser: string, staleBefore: int)
    | WorkerActs(w: nat, workerInput: WorkerInput)

  predicate Has(db: Store, id: string) {
    IndexOf(db.operations, id) < |db.operations|
  }

  function Op(db: Store, id: string): Operation
    requires Has(db, id)
  {
    db.operations[IndexOf(db.operations, id)]
  }

  // ---------------------------------------------------------------- handler steps

  function End(h: Handler): Handler { h.(phase := Ended) }

  function Finished(h: Handler, f: Finish): Handler {
    match f
    case Respond => h.(phase := Ended, responded := true)
    case SendDone => h.(phase := YieldingDone)
    case SendError(code) => h.(phase := Ended, frames := h.frames + [Error(code)])
    case Stop => h.(phase := Ended)
  }

  /** The stream's failure path: settle when the provider's usage is known, cancel otherwise. */
  function StartFailure(h: Handler, goal: Goal): Handler {
    h.(phase := if h.usage.Some? then Recording(goal) else Cancelling(goal))
  }

  /** A step towards this goal failed with an ordinary exception. */
  function Failed(h: Handler, goal: Goal): Handler {
    if goal == STREAM_SUCCESS then StartFailure(h, BROKEN) else Finished(h, goal.otherwise)
  }

  /** Cancellation, or GeneratorExit at a yield: only a stream on its main path still cleans up. */
  function Interrupt(h: Handler): Handler {
    match h.phase
    case Running => if h.request.stream then StartFailure(h, DISCONNECTED) else End(h)
    case Recording(g) => if g == STREAM_SUCCESS then StartFailure(h, DISCONNECTED) else End(h)
    case Settling(g) => if g == STREAM_SUCCESS then StartFailure(h, DISCONNECTED) else End(h)
    case AwaitingSettle(g) => if g == STREAM_SUCCESS then StartFailure(h, DISCONNECTED) else End(h)
    case Closing(g, _) => if g == STREAM_SUCCESS then StartFailure(h, DISCONNECTED) else End(h)
    case YieldingDone => StartFailure(h, DISCONNECTED)
    case AfterDone => StartFailure(h, DISCONNECTED)
    case _ => End(h)
  }

  function TerminalOf(h: Handler, goal: Goal, charged: nat, f: Facts): Terminal {
    Terminal(goal.status, goal.outcome, goal.stage, HttpStatus(goal.code), goal.code, Retryable(goal.code),
             f.durationMs, charged, f.qps, f.concurrency, h.serverRequestId, Max(f.clock, h.request.now))
  }

  /** The transaction the handler awaits in this phase. */
  function Awaited(h: Handler, dir: Directory, f: Facts): Option<Transaction> {
    var clock := Max(f.clock, h.request.now);
    match h.phase
    case Admitting => Some(DoReserve(dir, h.request))
    case Granted => if h.settlementId.Some? then Some(DoRecordCredit(h.Id(), h.settlementId.value, h.UsageId(), clock)) else None
    case Recording(_) => if h.usage.Some? then Some(DoRecordUsage(h.Id(), h.usage.value.prompt, h.usage.value.completion, clock)) else None
    case Closing(goal, charged) => Some(DoFinalize(h.Id(), TerminalOf(h, goal, charged, f)))
    case _ => None
  }

  predicate Succeeds(db: Store, txn: Transaction) {
    match txn
    case DoReserve(dir, q) => Reserve(db, dir, q).Ok?
    case DoRecordCredit(id, s, u, now) => RecordCredit(db, id, s, u, now).Ok?
    case DoRecordUsage(id, p, c, now) => RecordUsage(db, id, p, c, now).Ok?
    case DoTouch(id, now) => Touch(db, id, now).Ok?
    case DoFinalize(id, t) => Finalize(db, id, t).Ok?
    case DoRecordUsageAndFinalize(id, p, c, t) => RecordUsageAndFinalize(db, id, p, c, t).Ok?
  }

  function AfterCommit(h: Handler): Handler {
    match h.phase
    case Admitting => h.(phase := AwaitingCredit, owned := true)
    case Granted => h.(phase := Ready)
    case Recording(goal) => h.(phase := Settling(goal))
    case Closing(goal, _) => Finished(h, goal.finish)
    case _ => h
  }

  function AfterRollback(h: Handler): Handler {
    match h.phase
    case Recording(goal) => Failed(h, goal)
    case Closing(goal, _) => Failed(h, goal)
    case _ => End(h)
  }

  predicate GrantAccepted(h: Handler, c: Credit) {
    && c.operationId == h.Id() && c.serviceUser == h.serviceUser && c.model == h.request.model
    && c.provider == "bifrost" && c.status.CreditPending? && c.usageOperationId == h.UsageId()
  }

  predicate SettlementAccepted(h: Handler, c: Credit) {
    && c.operationId == h.Id() && c.serviceUser == h.serviceUser && Some(c.settlementId) == h.settlementId
    && c.usageOperationId == h.UsageId() && c.model == h.request.model && c.provider == "bifrost"
    && c.status.SucceededCharged?
    && h.usage == Some(Tokens(c.prompt, c.completion)) && c.total == c.prompt + c.completion
  }

  predicate CancellationAccepted(h: Handler, c: Credit) {
    && c.operationId == h.Id() && c.serviceUser == h.serviceUser && Some(c.settlementId) == h.settlementId
    && c.usageOperationId == h.UsageId() && c.model == h.request.model && c.provider == "bifrost"
    && c.prompt == c.completion == c.total == 0 && c.charged == 0
    && (c.status.CancelledCharged? || c.status.FailedNoCharge?)
  }

  function AfterAnswer(h: Handler, a: Answer): Handler {
    match h.phase
    case AwaitingCredit =>
      if a.Fails? then
        if CreditRefusal(a.code) then h.(phase := Closing(CreditGoal(a.code), 0)) else End(h)
      else if GrantAccepted(h, a.credit) then h.(phase := Granted, settlementId := Some(a.credit.settlementId))
      else End(h)
    case AwaitingSettle(goal) =>
      if a.Reports? && SettlementAccepted(h, a.credit) then h.(phase := Closing(goal, a.credit.charged)) else Failed(h, goal)
    case AwaitingCancel(goal) =>
      if a.Reports? && CancellationAccepted(h, a.credit) then h.(phase := Closing(goal, 0)) else Failed(h, goal)
    case _ => h
  }

  function AfterCall(h: Handler): Handler {
    match h.phase
    case Ready => h.(phase := Running, dispatched := true)
    case Settling(goal) => h.(phase := AwaitingSettle(goal))
    case Cancelling(goal) => h.(phase := AwaitingCancel(goal))
    case _ => h
  }

  /** Steps that touch neither the tables nor the authority. */
  function Moves(h: Handler, input: Input): Handler {
    var stream := h.request.stream;
    match input
    case Interrupted => Interrupt(h)
    case ProviderFails(fault) =>
      if !h.phase.Running? then h
      else if stream then StartFailure(h, ProviderGoal(fault, true))
      else h.(phase := Cancelling(ProviderGoal(fault, false)))
    case ProviderReturns(u) => if h.phase.Running? && !stream then h.(usage := Some(u), phase := Recording(JSON_SUCCESS)) else h
    case StreamUsage(u) => if h.phase.Running? && stream && h.usage.None? then h.(usage := Some(u)) else h
    case StreamFrame => if h.phase.Running? && stream then h.(frames := h.frames + [Data]) else h
    case StreamEnds => if h.phase.Running? && stream && h.usage.Some? then h.(phase := Recording(STREAM_SUCCESS)) else h
    case Breaks => if h.phase.Running? then (if stream then StartFailure(h, BROKEN) else End(h)) else h
    case Yields => if h.phase.YieldingDone? then h.(frames := h.frames + [Done], phase := AfterDone) else h
    case Resumes => if h.phase.AfterDone? then End(h) else h
    case _ => h
  }

  /** A due heartbeat in the stream loop: renew both leases, touch the operation, yield a comment. */
  function AfterBeat(h: Handler, db: Store, renewed: bool, clock: int): Handler {
    if !renewed then StartFailure(h, LEASE_LOST)
    else
      var touched := Touch(db, h.Id(), Max(clock, h.request.now));
      if touched.Ok? && touched.value.value then h.(frames := h.frames + [Heartbeat]) else StartFailure(h, BROKEN)
  }

  function WithHandler(s: State, h: nat, handler: Handler): State
    requires h < |s.handlers|
  {
    s.(handlers := s.handlers[h := handler])
  }

  /** An answer may be stale or wrong, except that a final status reports what the authority holds. */
  predicate MayReport(s: State, id: string, a: Answer) {
    a.Reports? && Final(a.credit) ==> id in s.remote && s.remote[id] == a.credit
  }

  function HandlerStep(s: State, h: nat, input: Input): State
    requires h < |s.handlers|
  {
    var it := s.handlers[h];
    match input
    case Transacts(dir, f) =>
      var txn := Awaited(it, dir, f);
      if txn.None? then s
      else if Succeeds(s.store, txn.value)
      then WithHandler(s, h, AfterCommit(it)).(store := Apply(s.store, txn.value))
      else WithHandler(s, h, AfterRollback(it))
    case Abandons(dir, f) =>
      var txn := Awaited(it, dir, f);
      if txn.None? then s else WithHandler(s, h, Interrupt(it)).(inFlight := s.inFlight + [txn.value])
    case Answered(a) =>
      if MayReport(s, it.Id(), a) then WithHandler(s, h, AfterAnswer(it, a)) else s
    case Calls =>
      var s' := WithHandler(s, h, AfterCall(it));
      if it.phase.Ready? then
        s'.(dispatches := s.dispatches + [Dispatch(h, it.Id(), it.request.client, it.request.requestId)])
      else if it.phase.Settling? && it.usage.Some? then s'.(settles := s.settles + [Settle(it.Id(), it.usage.value)])
      else s'
    case Beats(renewed, clock) =>
      if it.phase.Running? && it.request.stream
      then WithHandler(s, h, AfterBeat(it, s.store, renewed, clock))
           .(store := if renewed then Apply(s.store, DoTouch(it.Id(), Max(clock, it.request.now))) else s.store)
      else s
    case _ => WithHandler(s, h, Moves(it, input))
  }

  // ---------------------------------------------------------------- recovery steps

  function CandidateOf(o: Operation, serviceUser: string): Candidate {
    Candidate(o.id, serviceUser, o.model, o.settlementId, o.usageOperationId, o.usageRecorded, o.prompt, o.completion, o.startedAt)
  }

  predicate IdentityMatches(k: Candidate, c: Credit) {
    && c.operationId == k.operationId && c.serviceUser == k.serviceUser && c.model == k.model && c.provider == "bifrost"
    && c.usageOperationId == k.operationId + ":usage"
    && (k.settlementId.Some? ==> c.settlementId == k.settlementId.value)
    && (k.usageOperationId.Some? ==> c.usageOperationId == k.usageOperationId.value)
  }

  /** The evidence check that opens _finalize. */
  predicate EvidenceValid(c: Credit) {
    c.total == c.prompt + c.completion && (c.status.FailedNoCharge? ==> c.charged == 0)
  }

  function AfterStatus(k: Candidate, a: Answer): WorkerPhase {
    match a
    case Fails(code) =>
      if code == "OPENWEBUI_CREDIT_NOT_FOUND" && k.settlementId.None? && !k.usageRecorded then ClosingWithoutCredit else Over
    case Reports(c) =>
      if !IdentityMatches(k, c) || c.status.SettlementError? then Over
      else if c.status.CreditPending? then (if k.usageRecorded then SettlingStale else CancellingStale)
      else if EvidenceValid(c) then ClosingRemote(c) else Over
  }

  function AfterTerminal(k: Candidate, phase: WorkerPhase, a: Answer): WorkerPhase {
    match a
    case Fails(_) => Over
    case Reports(c) =>
      if !IdentityMatches(k, c) || !EvidenceValid(c) then Over
      else if phase.SettlingStale? && c.status.SucceededCharged? then ClosingRemote(c)
      else if phase.CancellingStale? && (c.status.CancelledCharged? || c.status.FailedNoCharge?) then ClosingRemote(c)
      else Over
  }

  function RecoveryTerminal(k: Candidate, status: TerminalStatus, code: string, charged: nat, now: int): Terminal {
    var completedAt := Max(now, k.startedAt);
    var ok := status == Completed;
    Terminal(status, if ok then Success else GivenUp, InRecovery, if ok then 200 else 499, code, false,
             Min((completedAt - k.startedAt) * 1_000, SIGNED_BIGINT_MAX), charged, 0, 0, "recovery_" + k.operationId, completedAt)
  }

  function RecoveryTransaction(k: Candidate, phase: WorkerPhase, now: int): Transaction
    requires phase.ClosingRemote? || phase.ClosingWithoutCredit?
  {
    match phase
    case ClosingWithoutCredit => DoFinalize(k.operationId, RecoveryTerminal(k, Abandoned, "RECOVERED_NO_CREDIT", 0, now))
    case ClosingRemote(c) =>
      var succeeded := c.status.SucceededCharged?;
      var t := if succeeded then RecoveryTerminal(k, Completed, "OK", c.charged, now)
               else RecoveryTerminal(k, Abandoned, "RECOVERED_CANCELLED", c.charged, now);
      if succeeded || c.total > 0 || k.usageRecorded
      then DoRecordUsageAndFinalize(k.operationId, c.prompt, c.completion, t)
      else DoFinalize(k.operationId, t)
  }

  function WorkerStep(s: State, w: nat, input: WorkerInput): State
    requires w < |s.workers|
  {
    var it := s.workers[w];
    var k := it.candidate;
    match input
    case StatusAnswered(a) =>
      if !it.phase.Checking? || !MayReport(s, k.operationId, a) then s
      else
        var phase := AfterStatus(k, a);
        s.(workers := s.workers[w := it.(phase := phase)],
           settles := if phase.SettlingStale? then s.settles + [Settle(k.operationId, Tokens(k.prompt, k.completion))] else s.settles)
    case TerminalAnswered(a) =>
      if !(it.phase.SettlingStale? || it.phase.CancellingStale?) || !MayReport(s, k.operationId, a) then s
      else s.(workers := s.workers[w := it.(phase := AfterTerminal(k, it.phase, a))])
    case Commits(now) =>
      if it.phase.ClosingRemote? || it.phase.ClosingWithoutCredit?
      then s.(store := Apply(s.store, RecoveryTransaction(k, it.phase, now)), workers := s.workers[w := it.(phase := Over)])
      else s
  }

  // ---------------------------------------------------------------- runs

  function Exec(s: State, a: Action): State {
    match a
    case Arrives(q, user, serverId) =>
      s.(handlers := s.handlers + [Handler(q, user, serverId, Admitting, false, false, None, None, [], false)])
    case HandlerActs(h, input) => if h < |s.handlers| then HandlerStep(s, h, input) else s
    case Lands(k) => if k < |s.inFlight| then s.(store := Apply(s.store, s.inFlight[k])) else s
    case RemoteMoves(id, c) =>
      if id in s.remote && Final(s.remote[id]) then s else s.(remote := s.remote[id := c])
    case Scans(id, user, staleBefore) =>
      if Has(s.store, id) && Op(s.store, id).status.Pending? && Op(s.store, id).updatedAt <= staleBefore
      then s.(workers := s.workers + [Worker(CandidateOf(Op(s.store, id), user), Checking)])
      else s
    case WorkerActs(w, input) => if w < |s.workers| then WorkerStep(s, w, input) else s
  }

  /** The state a schedule leads to; every interleaving, crash and late commit is some schedule. */
  function Run(actions: seq<Action>): State {
    if actions == [] then INITIAL else Exec(Run(actions[..|actions| - 1]), actions[|actions| - 1])
  }
}
