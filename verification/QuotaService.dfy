/** The quota service over mutable tables. Each method is one database transaction: it checks and updates
    row by row as the code does, and an exception restores the tables found at the start. */
module QuotaService {
  import opened Common
  import opened QuotaSpec
  import opened QuotaInvariant

  /** The method ended as its transaction function says: committed with its answer, or rolled back. */
  ghost predicate Ends<T>(before: Store, txn: Result<Commit<T>, QuotaError>, after: Store, r: Result<T, QuotaError>) {
    && after == Committed(before, txn)
    && r == if txn.Ok? then Ok(txn.value.value) else Err(txn.error)
  }

  class QuotaLedger {
    var rows: map<RowKey, Row>
    var operations: seq<Operation>
    var events: seq<Event>

    ghost function Tables(): Store
      reads this
    {
      Store(rows, operations, events)
    }

    constructor ()
      ensures Tables() == EMPTY_STORE && LedgerInv(Tables())
    {
      rows, operations, events := map[], [], [];
    }

    method InsertRowIfMissing(key: RowKey, now: int)
      modifies this`rows
      ensures rows == old(rows)[key := RowOrNew(old(rows), key, now)]
    {
      if key !in rows { rows := rows[key := Row(0, 0, 0, 1, now)]; }
    }

    /** Counts the request and reserves its tokens in both rows. */
    method ReserveInRows(daily: RowKey, lifetime: RowKey, reserved: nat, now: int)
      requires daily != lifetime && daily in rows && lifetime in rows
      modifies this`rows
      ensures rows == old(rows)[daily := RowAfterReserve(old(rows)[daily], reserved, now)]
                               [lifetime := RowAfterReserve(old(rows)[lifetime], reserved, now)]
    {
      var keys := [daily, lifetime];
      for i := 0 to 2
        invariant rows.Keys == old(rows).Keys
        invariant forall key | key in old(rows) ::
          rows[key] == if key in keys[..i] then RowAfterReserve(old(rows)[key], reserved, now) else old(rows)[key]
      {
        var row := rows[keys[i]];
        rows := rows[keys[i] := Row(row.requests + 1, row.reserved + reserved, row.consumed, row.version + 1, now)];
        assert keys[..i + 1] == keys[..i] + [keys[i]];
      }
      assert keys[..2] == keys;
    }

    method ReserveOperation(dir: Directory, q: ReserveRequest) returns (r: Result<Reservation, QuotaError>)
      modifies this
      ensures Ends(old(Tables()), Reserve(old(Tables()), dir, q), Tables(), r)
    {
      hide LimitProblem, IndexOf, IndexOfRequest;
      var problem := RequestProblem(q);
      if problem.Some? { return Err(problem.value); }
      assert q.reserved > 0;
      hide RequestProblem;
      problem := CallerProblem(dir, q);
      if problem.Some? { return Err(problem.value); }
      problem := PeriodProblem(q.now);
      if problem.Some? { return Err(problem.value); }

      var saved := rows;
      var client := dir.clients[q.client];
      var dailyKey, lifetimeKey := Daily(q.client, UtcDayStart(q.now)), Lifetime(q.client);
      InsertRowIfMissing(dailyKey, q.now);
      InsertRowIfMissing(lifetimeKey, q.now);
      var existing := IndexOfRequest(operations, q.client, q.requestId);
      if existing < |operations| {
        rows := saved;
        return Err(ReusedRequestError(operations[existing], q.fingerprint));
      }
      if IndexOf(operations, q.operationId) < |operations| {
        rows := saved;
        return Err(StateError(OperationExists));
      }
      problem := LimitProblem(rows[dailyKey], client.dailyRequestLimit, client.dailyTokenLimit, q.reserved,
                              "DAILY_REQUEST_QUOTA_EXCEEDED", "DAILY_TOKEN_QUOTA_EXCEEDED");
      if problem.None? {
        problem := LimitProblem(rows[lifetimeKey], client.totalRequestLimit, client.totalTokenLimit, q.reserved,
                                "TOTAL_REQUEST_QUOTA_EXCEEDED", "TOTAL_TOKEN_QUOTA_EXCEEDED");
      }
      if problem.Some? {
        rows := saved;
        return Err(problem.value);
      }
      ReserveInRows(dailyKey, lifetimeKey, q.reserved, q.now);
      operations := operations + [NewOperation(q)];
      var daily, lifetime := rows[dailyKey], rows[lifetimeKey];
      r := Ok(Reservation(q.operationId, daily.requests, daily.consumed + daily.reserved,
                          lifetime.requests, lifetime.consumed + lifetime.reserved));
    }

    method RecordCreditReservation(id: string, settlementId: string, usageOperationId: string, now: int)
      returns (r: Result<(), QuotaError>)
      modifies this`operations
      ensures Ends(old(Tables()), RecordCredit(old(Tables()), id, settlementId, usageOperationId, now), Tables(), r)
    {
      var i := IndexOf(operations, id);
      if i == |operations| { return Err(StateError(OperationUnavailable)); }
      var o := operations[i];
      if !o.status.Pending? { return Err(StateError(AlreadyTerminal)); }
      if o.settlementId.Some? || o.usageOperationId.Some? {
        if o.settlementId == Some(settlementId) && o.usageOperationId == Some(usageOperationId) { return Ok(()); }
        return Err(StateError(CreditConflicts));
      }
      operations := operations[i := o.(settlementId := Some(settlementId),
                                       usageOperationId := Some(usageOperationId), updatedAt := now)];
      r := Ok(());
    }

    method RecordProviderUsage(id: string, prompt: int, completion: int, now: int) returns (r: Result<(), QuotaError>)
      modifies this`operations
      ensures Ends(old(Tables()), RecordUsage(old(Tables()), id, prompt, completion, now), Tables(), r)
    {
      if prompt < 0 || completion < 0 || prompt + completion > SIGNED_BIGINT_MAX { return Err(ValueError); }
      var i := IndexOf(operations, id);
      if i == |operations| { return Err(StateError(OperationUnavailable)); }
      var o := operations[i];
      if !o.status.Pending? { return Err(StateError(AlreadyTerminal)); }
      if o.usageRecorded && (o.prompt, o.completion) != (prompt, completion) { return Err(StateError(UsageConflicts)); }
      operations := operations[i := o.(prompt := prompt, completion := completion, usageRecorded := true, updatedAt := now)];
      r := Ok(());
    }

    method TouchPendingOperation(id: string, now: int) returns (r: Result<bool, QuotaError>)
      modifies this`operations
      ensures Ends(old(Tables()), Touch(old(Tables()), id, now), Tables(), r)
    {
      if now < 0 { return Err(ValueError); }
      var i := IndexOf(operations, id);
      if i == |operations| { return Err(StateError(OperationUnavailable)); }
      var o := operations[i];
      if !o.status.Pending? { return Ok(false); }
      operations := operations[i := o.(updatedAt := Max(o.updatedAt, now))];
      r := Ok(true);
    }

    /** Moves the operation's tokens from reserved to consumed, row by row; stops at the first row that cannot. */
    method ConsumeInRows(daily: RowKey, lifetime: RowKey, o: Operation, now: int) returns (problem: Option<QuotaError>)
      requires daily != lifetime && daily in rows && lifetime in rows
      modifies this`rows
      ensures problem == if RowProblem(old(rows)[daily], o).Some? then RowProblem(old(rows)[daily], o) else RowProblem(old(rows)[lifetime], o)
      ensures problem.None? ==> rows == old(rows)[daily := RowAfterFinalize(old(rows)[daily], o, now)]
                                                 [lifetime := RowAfterFinalize(old(rows)[lifetime], o, now)]
    {
      var keys := [daily, lifetime];
      for i := 0 to 2
        invariant rows.Keys == old(rows).Keys
        invariant forall j | 0 <= j < i :: RowProblem(old(rows)[keys[j]], o).None?
        invariant forall key | key in old(rows) ::
          if key in keys[..i] then old(rows)[key].reserved >= o.reserved && rows[key] == RowAfterFinalize(old(rows)[key], o, now)
          else rows[key] == old(rows)[key]
      {
        assert keys[i] !in keys[..i] && (i == 1 ==> RowProblem(old(rows)[keys[0]], o).None?);
        var row := rows[keys[i]];
        assert row == old(rows)[keys[i]];
        if row.reserved < o.reserved { return Some(StateError(ReservationInconsistent)); }
        if row.consumed + o.Total() > SIGNED_BIGINT_MAX { return Some(StateError(CounterOverflow)); }
        rows := rows[keys[i] := Row(row.requests, row.reserved - o.reserved, row.consumed + o.Total(), row.version + 1, now)];
        assert keys[..i + 1] == keys[..i] + [keys[i]];
      }
      assert keys[..2] == keys;
      problem := None;
    }

    method FinalizeOperation(id: string, t: Terminal) returns (r: Result<Snapshot, QuotaError>)
      modifies this
      ensures Ends(old(Tables()), Finalize(old(Tables()), id, t), Tables(), r)
    {
      if !t.Valid() { return Err(ValueError); }
      var at := IndexOf(operations, id);
      if at == |operations| { return Err(StateError(OperationUnavailable)); }
      var o := operations[at];
      if o.startedAt < 0 { return Err(ValueError); }
      var dailyKey, lifetimeKey := o.DailyKey(), o.LifetimeKey();
      if dailyKey !in rows || lifetimeKey !in rows { return Err(StateError(RowsUnavailable)); }
      if !o.status.Pending? {
        if EventCount(events, o.id) == 0 || o.status != t.status || o.httpStatus != Some(t.httpStatus) || o.code != Some(t.code) {
          return Err(StateError(TerminalConflicts));
        }
        return Ok(TerminalSnapshot(o, rows[dailyKey], rows[lifetimeKey]));
      }
      if t.completedAt < o.startedAt { return Err(ValueError); }

      var saved := rows;
      var problem := ConsumeInRows(dailyKey, lifetimeKey, o, t.completedAt);
      if problem.None? && (ServerIdUsed(events, t.serverRequestId) || EventCount(events, o.id) > 0) { problem := Some(IntegrityError); }
      if problem.Some? {
        rows := saved;
        return Err(problem.value);
      }
      var daily, lifetime := rows[dailyKey], rows[lifetimeKey];
      operations := operations[at := Terminated(o, t)];
      events := events + [TerminalEvent(o, t, daily, lifetime)];
      r := Ok(TerminalSnapshot(operations[at], daily, lifetime));
    }
  }
}
