/** The quota ledger as values: its tables, and one function per database transaction.

    A transaction function returns the committed tables and the call's answer, or the
    exception that rolls everything back. The methods of QuotaLedger (QuotaService.dfy)
    change the tables in place and are proved to commit exactly these functions. */
module QuotaSpec {
  import opened Common

  const SIGNED_BIGINT_MAX: int := 0x7FFF_FFFF_FFFF_FFFF
  const SECONDS_PER_DAY: int := 86_400

  datatype Status = Pending | Completed | Rejected | Abandoned

  type TerminalStatus = s: Status | s != Pending witness Completed

  datatype Stage = InRequest | InAuth | InPermission | InRateLimit | InQuota | InCredit | InProvider | InResponse | InRecovery

  datatype Outcome = Success | Cancelled | Refused | ProviderError | SystemError | GivenUp

  /** The unique key (api_client_id, scope, period_start) of a quota row. */
  datatype RowKey = Daily(client: string, day: int) | Lifetime(client: string)

  datatype Row = Row(requests: nat, reserved: nat, consumed: nat, version: nat, updatedAt: int)

  datatype Operation = Operation(
    id: string, client: string, credential: string, requestId: string, fingerprint: string,
    model: string, stream: bool, reserved: nat, startedAt: int,
    status: Status, prompt: nat, completion: nat, usageRecorded: bool,
    settlementId: Option<string>, usageOperationId: Option<string>,
    httpStatus: Option<int>, code: Option<string>, completedAt: Option<int>, updatedAt: int)
  {
    /** The stored total; the table's own constraint keeps it equal to this sum. */
    function Total(): nat { prompt + completion }

    function DailyKey(): RowKey
      requires startedAt >= 0
    { Daily(client, UtcDayStart(startedAt)) }

    function LifetimeKey(): RowKey { Lifetime(client) }
  }

  datatype Event = Event(
    serverRequestId: string, operationId: string, client: string, requestId: string, credential: string,
    model: string, stream: bool, outcome: Outcome, stage: Stage, httpStatus: int, code: string, retryable: bool,
    durationMs: int, overrun: bool, prompt: nat, completion: nat, charged: nat, qps: nat, concurrency: nat,
    dailyRequestsAfter: nat, dailyTokensAfter: nat, totalRequestsAfter: nat, totalTokensAfter: nat,
    startedAt: int, completedAt: int)
  {
    function Total(): nat { prompt + completion }
  }

  datatype Store = Store(rows: map<RowKey, Row>, operations: seq<Operation>, events: seq<Event>)

  const EMPTY_STORE := Store(map[], [], [])

  datatype Client = Client(
    active: bool, endpoints: set<string>, models: set<string>,
    dailyRequestLimit: Option<int>, dailyTokenLimit: Option<int>,
    totalRequestLimit: Option<int>, totalTokenLimit: Option<int>)

  datatype Credential = Credential(client: string, active: bool, expiresAt: Option<int>)

  /** The caller tables that admission reads and never writes. */
  datatype Directory = Directory(clients: map<string, Client>, credentials: map<string, Credential>)

  datatype QuotaError =
    | AdmissionError(code: string, operationId: Option<string>)
    | StateError(problem: Problem)
    | ValueError
    | IntegrityError

  datatype Problem =
    | RowsUnavailable | CallerUnavailable | OperationExists | ReservationInconsistent | CounterOverflow
    | OperationUnavailable | AlreadyTerminal | CreditConflicts | UsageConflicts | TerminalConflicts

  /** The committed tables and what the call returns. */
  datatype Commit<T> = Commit(store: Store, value: T)

  // ---------------------------------------------------------------- reservations

  datatype ReserveRequest = ReserveRequest(
    client: string, credential: string, operationId: string, requestId: string, fingerprint: string,
    model: string, stream: bool, reserved: int, now: int)

  datatype Reservation = Reservation(
    operationId: string, dailyRequestsAfter: nat, dailyTokensReservedAfter: nat,
    totalRequestsAfter: nat, totalTokensReservedAfter: nat)

  function UtcDayStart(timestamp: int): (day: int)
    requires timestamp >= 0
    ensures day % SECONDS_PER_DAY == 0 && day <= timestamp < day + SECONDS_PER_DAY
  {
    timestamp - timestamp % SECONDS_PER_DAY
  }

  predicate IsRequestIdChar(c: char) {
    'A' <= c <= 'Z' || 'a' <= c <= 'z' || '0' <= c <= '9' || c == '_' || c == '-'
  }

  predicate IsRequestId(s: string) {
    16 <= |s| <= 64 && forall i | 0 <= i < |s| :: IsRequestIdChar(s[i])
  }

  predicate IsFingerprint(s: string) {
    |s| == 64 && forall i | 0 <= i < |s| :: '0' <= s[i] <= '9' || 'a' <= s[i] <= 'f'
  }

  /** The position of the operation with this primary key, or the table's length. */
  function IndexOf(ops: seq<Operation>, id: string): (i: nat)
    ensures i <= |ops|
    ensures i < |ops| ==> ops[i].id == id
    ensures forall j | 0 <= j < i :: ops[j].id != id
  {
    if ops == [] then 0 else if ops[0].id == id then 0 else 1 + IndexOf(ops[1..], id)
  }

  /** The position of the caller's operation with this client request ID, or the table's length. */
  function IndexOfRequest(ops: seq<Operation>, client: string, requestId: string): (i: nat)
    ensures i <= |ops|
    ensures i < |ops| ==> ops[i].client == client && ops[i].requestId == requestId
    ensures forall j | 0 <= j < i :: ops[j].client != client || ops[j].requestId != requestId
  {
    if ops == [] then 0
    else if ops[0].client == client && ops[0].requestId == requestId then 0
    else 1 + IndexOfRequest(ops[1..], client, requestId)
  }

  function ReusedRequestError(o: Operation, fingerprint: string): QuotaError {
    AdmissionError(
      if o.fingerprint != fingerprint then "REQUEST_ID_CONFLICT"
      else if o.status.Pending? then "REQUEST_IN_PROGRESS"
      else "REQUEST_ALREADY_COMPLETED",
      Some(o.id))
  }

  function RowOrNew(rows: map<RowKey, Row>, key: RowKey, now: int): Row {
    if key in rows then rows[key] else Row(0, 0, 0, 1, now)
  }

  function LimitProblem(
    row: Row, requestLimit: Option<int>, tokenLimit: Option<int>, reserved: int,
    requestCode: string, tokenCode: string): Option<QuotaError>
  {
    var projected := row.consumed + row.reserved + reserved;
    if requestLimit.Some? && row.requests + 1 > requestLimit.value then Some(AdmissionError(requestCode, None))
    else if tokenLimit.Some? && projected > tokenLimit.value then Some(AdmissionError(tokenCode, None))
    else if projected > SIGNED_BIGINT_MAX then Some(StateError(CounterOverflow))
    else None
  }

  function RequestProblem(q: ReserveRequest): Option<QuotaError> {
    if !IsRequestId(q.requestId) || !IsFingerprint(q.fingerprint) || q.model == "" || |q.model| > 255
       || !(1 <= q.reserved <= SIGNED_BIGINT_MAX)
    then Some(ValueError) else None
  }

  function CallerProblem(dir: Directory, q: ReserveRequest): (p: Option<QuotaError>)
    ensures p.None? ==> q.client in dir.clients
  {
    if q.client !in dir.clients || q.credential !in dir.credentials || dir.credentials[q.credential].client != q.client
    then Some(StateError(CallerUnavailable))
    else
      var client := dir.clients[q.client];
      var credential := dir.credentials[q.credential];
      if !client.active then Some(AdmissionError("CLIENT_DISABLED", None))
      else if !credential.active then Some(AdmissionError("CREDENTIAL_REVOKED", None))
      else if credential.expiresAt.Some? && credential.expiresAt.value <= q.now then Some(AdmissionError("CREDENTIAL_EXPIRED", None))
      else if "chat.completions" !in client.endpoints then Some(AdmissionError("ENDPOINT_FORBIDDEN", None))
      else if q.model !in client.models then Some(AdmissionError("MODEL_FORBIDDEN", None))
      else None
  }

  /** A negative clock has no UTC day; the first day of the epoch violates the daily row's own constraint. */
  function PeriodProblem(now: int): Option<QuotaError> {
    if now < 0 then Some(ValueError) else if UtcDayStart(now) == 0 then Some(IntegrityError) else None
  }

  function TableProblem(db: Store, client: Client, q: ReserveRequest): Option<QuotaError>
    requires q.now >= 0
  {
    var at := IndexOfRequest(db.operations, q.client, q.requestId);
    var daily := RowOrNew(db.rows, Daily(q.client, UtcDayStart(q.now)), q.now);
    var lifetime := RowOrNew(db.rows, Lifetime(q.client), q.now);
    if at < |db.operations| then Some(ReusedRequestError(db.operations[at], q.fingerprint))
    else if IndexOf(db.operations, q.operationId) < |db.operations| then Some(StateError(OperationExists))
    else
      var p := LimitProblem(daily, client.dailyRequestLimit, client.dailyTokenLimit, q.reserved,
                            "DAILY_REQUEST_QUOTA_EXCEEDED", "DAILY_TOKEN_QUOTA_EXCEEDED");
      if p.Some? then p
      else LimitProblem(lifetime, client.totalRequestLimit, client.totalTokenLimit, q.reserved,
                        "TOTAL_REQUEST_QUOTA_EXCEEDED", "TOTAL_TOKEN_QUOTA_EXCEEDED")
  }

  /** The exception reserve_operation raises, checks in the order the code makes them. */
  function ReserveProblem(db: Store, dir: Directory, q: ReserveRequest): (p: Option<QuotaError>)
    ensures p.None? ==> RequestProblem(q).None? && CallerProblem(dir, q).None? && PeriodProblem(q.now).None?
    ensures p.None? ==> TableProblem(db, dir.clients[q.client], q).None?
  {
    if RequestProblem(q).Some? then RequestProblem(q)
    else if CallerProblem(dir, q).Some? then CallerProblem(dir, q)
    else if PeriodProblem(q.now).Some? then PeriodProblem(q.now)
    else TableProblem(db, dir.clients[q.client], q)
  }

  function RowAfterReserve(row: Row, reserved: nat, now: int): Row {
    Row(row.requests + 1, row.reserved + reserved, row.consumed, row.version + 1, now)
  }

  function NewOperation(q: ReserveRequest): Operation
    requires q.reserved >= 0
  {
    Operation(q.operationId, q.client, q.credential, q.requestId, q.fingerprint, q.model, q.stream, q.reserved, q.now,
              Pending, 0, 0, false, None, None, None, None, None, q.now)
  }

  function Reserve(db: Store, dir: Directory, q: ReserveRequest): Result<Commit<Reservation>, QuotaError> {
    var p := ReserveProblem(db, dir, q);
    if p.Some? then Err(p.value)
    else
      var dailyKey, lifetimeKey := Daily(q.client, UtcDayStart(q.now)), Lifetime(q.client);
      var daily := RowAfterReserve(RowOrNew(db.rows, dailyKey, q.now), q.reserved, q.now);
      var lifetime := RowAfterReserve(RowOrNew(db.rows, lifetimeKey, q.now), q.reserved, q.now);
      Ok(Commit(
        Store(db.rows[dailyKey := daily][lifetimeKey := lifetime], db.operations + [NewOperation(q)], db.events),
        Reservation(q.operationId, daily.requests, daily.consumed + daily.reserved,
                    lifetime.requests, lifetime.consumed + lifetime.reserved)))
  }

  // ---------------------------------------------------------------- set-once evidence

  function PendingProblem(db: Store, id: string): (p: Option<QuotaError>)
    ensures p.None? ==> IndexOf(db.operations, id) < |db.operations|
    ensures p.None? ==> db.operations[IndexOf(db.operations, id)].status.Pending?
  {
    var i := IndexOf(db.operations, id);
    if i == |db.operations| then Some(StateError(OperationUnavailable))
    else if !db.operations[i].status.Pending? then Some(StateError(AlreadyTerminal))
    else None
  }

  function WithOperation(db: Store, i: nat, o: Operation): Store
    requires i < |db.operations|
  {
    db.(operations := db.operations[i := o])
  }

  function RecordCredit(
    db: Store, id: string, settlementId: string, usageOperationId: string, now: int): Result<Commit<()>, QuotaError>
  {
    var p := PendingProblem(db, id);
    if p.Some? then Err(p.value)
    else
      var i := IndexOf(db.operations, id);
      var o := db.operations[i];
      if o.settlementId.Some? || o.usageOperationId.Some? then
        if o.settlementId == Some(settlementId) && o.usageOperationId == Some(usageOperationId) then Ok(Commit(db, ()))
        else Err(StateError(CreditConflicts))
      else
        Ok(Commit(WithOperation(db, i, o.(settlementId := Some(settlementId),
                                           usageOperationId := Some(usageOperationId), updatedAt := now)), ()))
  }

  function RecordUsage(db: Store, id: string, prompt: int, completion: int, now: int): Result<Commit<()>, QuotaError> {
    if prompt < 0 || completion < 0 || prompt + completion > SIGNED_BIGINT_MAX then Err(ValueError)
    else
      var p := PendingProblem(db, id);
      if p.Some? then Err(p.value)
      else
        var i := IndexOf(db.operations, id);
        var o := db.operations[i];
        if o.usageRecorded && (o.prompt != prompt || o.completion != completion) then Err(StateError(UsageConflicts))
        else Ok(Commit(WithOperation(db, i, o.(prompt := prompt, completion := completion,
                                               usageRecorded := true, updatedAt := now)), ()))
  }

  function Touch(db: Store, id: string, now: int): Result<Commit<bool>, QuotaError> {
    var i := IndexOf(db.operations, id);
    if now < 0 then Err(ValueError)
    else if i == |db.operations| then Err(StateError(OperationUnavailable))
    else
      var o := db.operations[i];
      if !o.status.Pending? then Ok(Commit(db, false))
      else Ok(Commit(WithOperation(db, i, o.(updatedAt := Max(o.updatedAt, now))), true))
  }

  // ---------------------------------------------------------------- terminal evidence

  datatype Terminal = Terminal(
    status: TerminalStatus, outcome: Outcome, stage: Stage, httpStatus: int, code: string, retryable: bool,
    durationMs: int, charged: int, qps: int, concurrency: int, serverRequestId: string, completedAt: int)
  {
    /** The checks OperationTerminal makes when it is built. */
    predicate Valid() {
      && 100 <= httpStatus <= 599
      && 1 <= |code| <= 64
      && 0 <= durationMs <= SIGNED_BIGINT_MAX
      && charged >= 0 && qps >= 0 && concurrency >= 0
      && 1 <= |serverRequestId| <= 128
    }
  }

  datatype Snapshot = Snapshot(
    operationId: string, totalTokens: nat, dailyRequestsAfter: nat, dailyTokensAfter: nat,
    totalRequestsAfter: nat, totalTokensAfter: nat, overrun: bool)

  function TerminalSnapshot(o: Operation, daily: Row, lifetime: Row): Snapshot {
    Snapshot(o.id, o.Total(), daily.requests, daily.consumed, lifetime.requests, lifetime.consumed,
             o.Total() > o.reserved)
  }

  /** How many events carry this operation's ID. */
  function EventCount(events: seq<Event>, id: string): nat {
    if events == [] then 0
    else EventCount(events[..|events| - 1], id) + if events[|events| - 1].operationId == id then 1 else 0
  }

  predicate ServerIdUsed(events: seq<Event>, serverRequestId: string) {
    exists k | 0 <= k < |events| :: events[k].serverRequestId == serverRequestId
  }

  function RowProblem(row: Row, o: Operation): Option<QuotaError> {
    if row.reserved < o.reserved then Some(StateError(ReservationInconsistent))
    else if row.consumed + o.Total() > SIGNED_BIGINT_MAX then Some(StateError(CounterOverflow))
    else None
  }

  function RowAfterFinalize(row: Row, o: Operation, now: int): Row
    requires row.reserved >= o.reserved
  {
    Row(row.requests, row.reserved - o.reserved, row.consumed + o.Total(), row.version + 1, now)
  }

  function Terminated(o: Operation, t: Terminal): Operation {
    o.(status := t.status, httpStatus := Some(t.httpStatus), code := Some(t.code),
       completedAt := Some(t.completedAt), updatedAt := t.completedAt)
  }

  function TerminalEvent(o: Operation, t: Terminal, daily: Row, lifetime: Row): Event
    requires t.Valid()
  {
    Event(t.serverRequestId, o.id, o.client, o.requestId, o.credential, o.model, o.stream, t.outcome, t.stage,
          t.httpStatus, t.code, t.retryable, t.durationMs, o.Total() > o.reserved, o.prompt, o.completion,
          t.charged, t.qps, t.concurrency, daily.requests, daily.consumed, lifetime.requests, lifetime.consumed,
          o.startedAt, t.completedAt)
  }

  predicate HasRows(db: Store, o: Operation) {
    o.startedAt >= 0 && o.DailyKey() in db.rows && o.LifetimeKey() in db.rows
  }

  function FinalizeTerminal(db: Store, o: Operation, t: Terminal): Result<Commit<Snapshot>, QuotaError>
    requires HasRows(db, o)
  {
    if EventCount(db.events, o.id) == 0 || o.status != t.status || o.httpStatus != Some(t.httpStatus) || o.code != Some(t.code)
    then Err(StateError(TerminalConflicts))
    else Ok(Commit(db, TerminalSnapshot(o, db.rows[o.DailyKey()], db.rows[o.LifetimeKey()])))
  }

  function FinalizePendingProblem(db: Store, o: Operation, t: Terminal): Option<QuotaError>
    requires HasRows(db, o)
  {
    if t.completedAt < o.startedAt then Some(ValueError)
    else if RowProblem(db.rows[o.DailyKey()], o).Some? then RowProblem(db.rows[o.DailyKey()], o)
    else if RowProblem(db.rows[o.LifetimeKey()], o).Some? then RowProblem(db.rows[o.LifetimeKey()], o)
    else if ServerIdUsed(db.events, t.serverRequestId) || EventCount(db.events, o.id) > 0 then Some(IntegrityError)
    else None
  }

  function FinalizePending(db: Store, i: nat, t: Terminal): Result<Commit<Snapshot>, QuotaError>
    requires i < |db.operations| && HasRows(db, db.operations[i]) && t.Valid()
  {
    var o := db.operations[i];
    var p := FinalizePendingProblem(db, o, t);
    if p.Some? then Err(p.value)
    else
      var daily := RowAfterFinalize(db.rows[o.DailyKey()], o, t.completedAt);
      var lifetime := RowAfterFinalize(db.rows[o.LifetimeKey()], o, t.completedAt);
      var closed := Terminated(o, t);
      Ok(Commit(
        Store(db.rows[o.DailyKey() := daily][o.LifetimeKey() := lifetime], db.operations[i := closed],
              db.events + [TerminalEvent(o, t, daily, lifetime)]),
        TerminalSnapshot(closed, daily, lifetime)))
  }

  function Finalize(db: Store, id: string, t: Terminal): Result<Commit<Snapshot>, QuotaError> {
    var i := IndexOf(db.operations, id);
    if !t.Valid() then Err(ValueError)
    else if i == |db.operations| then Err(StateError(OperationUnavailable))
    else if db.operations[i].startedAt < 0 then Err(ValueError)
    else if !HasRows(db, db.operations[i]) then Err(StateError(RowsUnavailable))
    else if !db.operations[i].status.Pending? then FinalizeTerminal(db, db.operations[i], t)
    else FinalizePending(db, i, t)
  }

  /** Recovery commits the remote token pair and the terminal evidence in one transaction. */
  function RecordUsageAndFinalize(
    db: Store, id: string, prompt: int, completion: int, t: Terminal): Result<Commit<Snapshot>, QuotaError>
  {
    var recorded := RecordUsage(db, id, prompt, completion, t.completedAt);
    if recorded.Err? then Err(recorded.error) else Finalize(recorded.value.store, id, t)
  }

  // ---------------------------------------------------------------- runs

  datatype Transaction =
    | DoReserve(dir: Directory, request: ReserveRequest)
    | DoRecordCredit(id: string, settlementId: string, usageOperationId: string, now: int)
    | DoRecordUsage(id: string, prompt: int, completion: int, now: int)
    | DoTouch(id: string, now: int)
    | DoFinalize(id: string, terminal: Terminal)
    | DoRecordUsageAndFinalize(id: string, prompt: int, completion: int, terminal: Terminal)

  function Committed<T>(db: Store, r: Result<Commit<T>, QuotaError>): Store {
    if r.Ok? then r.value.store else db
  }

  /** The tables after one transaction: committed, or rolled back. */
  function Apply(db: Store, txn: Transaction): Store {
    match txn
    case DoReserve(dir, q) => Committed(db, Reserve(db, dir, q))
    case DoRecordCredit(id, s, u, now) => Committed(db, RecordCredit(db, id, s, u, now))
    case DoRecordUsage(id, p, c, now) => Committed(db, RecordUsage(db, id, p, c, now))
    case DoTouch(id, now) => Committed(db, Touch(db, id, now))
    case DoFinalize(id, t) => Committed(db, Finalize(db, id, t))
    case DoRecordUsageAndFinalize(id, p, c, t) => Committed(db, RecordUsageAndFinalize(db, id, p, c, t))
  }

  /** The tables after a serial history, starting empty. */
  function RunTransactions(txns: seq<Transaction>): Store {
    if txns == [] then EMPTY_STORE
    else Apply(RunTransactions(txns[..|txns| - 1]), txns[|txns| - 1])
  }
}
