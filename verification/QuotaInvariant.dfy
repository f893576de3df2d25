/** What every committed history of the quota tables keeps: conservation of requests and tokens per
    day and lifetime, one event per terminal operation, prefix sums, and the real quota bound. */
module QuotaInvariant {
  import opened Common
  import opened QuotaSpec
  import Sequences

  // ---------------------------------------------------------------- sums over the operation table

  datatype Measure = Requests | Reserved | Consumed | Overrun | Writes

  predicate Covers(key: RowKey, o: Operation) {
    match key
    case Daily(client, day) => o.client == client && o.startedAt >= 0 && UtcDayStart(o.startedAt) == day
    case Lifetime(client) => o.client == client
  }

  /** What one operation contributes to the rows that cover it. */
  function Share(m: Measure, o: Operation): nat {
    match m
    case Requests => 1
    case Reserved => if o.status.Pending? then o.reserved else 0
    case Consumed => if o.status.Pending? then 0 else o.Total()
    case Overrun => if o.status.Pending? || o.Total() <= o.reserved then 0 else o.Total() - o.reserved
    case Writes => if o.status.Pending? then 1 else 2
  }

  function Weight(m: Measure, key: RowKey, o: Operation): nat {
    if Covers(key, o) then Share(m, o) else 0
  }

  function Sum(m: Measure, key: RowKey, ops: seq<Operation>): nat {
    if ops == [] then 0 else Sum(m, key, ops[..|ops| - 1]) + Weight(m, key, ops[|ops| - 1])
  }

  lemma SumAppend(m: Measure, key: RowKey, ops: seq<Operation>, o: Operation)
    ensures Sum(m, key, ops + [o]) == Sum(m, key, ops) + Weight(m, key, o)
  {
    assert (ops + [o])[..|ops|] == ops;
  }

  lemma {:induction false} SumUpdate(m: Measure, key: RowKey, ops: seq<Operation>, i: nat, o: Operation)
    requires i < |ops|
    ensures Sum(m, key, ops[i := o]) == Sum(m, key, ops) - Weight(m, key, ops[i]) + Weight(m, key, o)
    decreases |ops|
  {
    var n := |ops| - 1;
    if i == n {
      assert ops[i := o][..n] == ops[..n];
    } else {
      assert ops[i := o][..n] == ops[..n][i := o];
      SumUpdate(m, key, ops[..n], i, o);
    }
  }

  /** A sum is at least any one share in it, and a day's sum is at most the lifetime's. */
  lemma {:induction false} SumAtLeast(m: Measure, key: RowKey, ops: seq<Operation>, i: nat)
    requires i < |ops|
    ensures Sum(m, key, ops) >= Weight(m, key, ops[i])
    decreases |ops|
  {
    if i < |ops| - 1 { SumAtLeast(m, key, ops[..|ops| - 1], i); }
  }

  lemma {:induction false} DayAtMostLifetime(m: Measure, client: string, day: int, ops: seq<Operation>)
    ensures Sum(m, Daily(client, day), ops) <= Sum(m, Lifetime(client), ops)
    decreases |ops|
  {
    if ops != [] { DayAtMostLifetime(m, client, day, ops[..|ops| - 1]); }
  }

  /** The tokens of the events a row covers. */
  predicate EventCovered(key: RowKey, e: Event) {
    match key
    case Daily(client, day) => e.client == client && e.startedAt >= 0 && UtcDayStart(e.startedAt) == day
    case Lifetime(client) => e.client == client
  }

  function EventTokens(key: RowKey, events: seq<Event>): nat {
    if events == [] then 0
    else EventTokens(key, events[..|events| - 1])
         + if EventCovered(key, events[|events| - 1]) then events[|events| - 1].Total() else 0
  }

  lemma EventTokensAppend(key: RowKey, events: seq<Event>, e: Event)
    ensures EventTokens(key, events + [e]) == EventTokens(key, events) + if EventCovered(key, e) then e.Total() else 0
    ensures EventCount(events + [e], e.operationId) == EventCount(events, e.operationId) + 1
    ensures forall id :: id != e.operationId ==> EventCount(events + [e], id) == EventCount(events, id)
  {
    assert (events + [e])[..|events|] == events;
  }

  // ---------------------------------------------------------------- the invariant

  predicate RowExact(key: RowKey, row: Row, ops: seq<Operation>) {
    && row.requests == Sum(Requests, key, ops)
    && row.reserved == Sum(Reserved, key, ops)
    && row.consumed == Sum(Consumed, key, ops)
    && row.version == 1 + Sum(Writes, key, ops)
  }

  /** Conservation: every row counts exactly the operations it covers. */
  predicate RowsExact(db: Store) {
    forall key | key in db.rows :: RowExact(key, db.rows[key], db.operations)
  }

  predicate OperationSound(db: Store, o: Operation) {
    && HasRows(db, o)
    && (o.status.Pending? ==> EventCount(db.events, o.id) == 0 && o.completedAt.None?)
    && (!o.status.Pending? ==> EventCount(db.events, o.id) == 1 && o.completedAt.Some? && o.completedAt.value >= o.startedAt)
    && (!o.usageRecorded ==> o.Total() == 0)
    && (o.settlementId.Some? <==> o.usageOperationId.Some?)
  }

  predicate OperationsSound(db: Store) {
    forall i | 0 <= i < |db.operations| :: OperationSound(db, db.operations[i])
  }

  predicate KeysDistinct(db: Store) {
    && (forall i, j | 0 <= i < j < |db.operations| :: db.operations[i].id != db.operations[j].id)
    && (forall i, j | 0 <= i < j < |db.operations| ::
          db.operations[i].client != db.operations[j].client || db.operations[i].requestId != db.operations[j].requestId)
  }

  /** The event repeats its operation's identity, tokens and terminal evidence. */
  predicate EventFits(o: Operation, e: Event) {
    && e.operationId == o.id && e.client == o.client && e.requestId == o.requestId && e.credential == o.credential
    && e.model == o.model && e.stream == o.stream && e.startedAt == o.startedAt
    && !o.status.Pending? && o.httpStatus == Some(e.httpStatus) && o.code == Some(e.code)
    && o.completedAt == Some(e.completedAt)
    && e.prompt == o.prompt && e.completion == o.completion && (e.overrun <==> o.Total() > o.reserved)
  }

  predicate EventSound(db: Store, k: nat)
    requires k < |db.events|
  {
    var e := db.events[k];
    var i := IndexOf(db.operations, e.operationId);
    && i < |db.operations| && EventFits(db.operations[i], e)
    && e.startedAt >= 0
    && e.dailyTokensAfter == EventTokens(Daily(e.client, UtcDayStart(e.startedAt)), db.events[..k + 1])
    && e.totalTokensAfter == EventTokens(Lifetime(e.client), db.events[..k + 1])
  }

  predicate EventsSound(db: Store) {
    && (forall k | 0 <= k < |db.events| :: EventSound(db, k))
    && (forall k, l | 0 <= k < l < |db.events| :: db.events[k].serverRequestId != db.events[l].serverRequestId)
  }

  /** Each row's consumed tokens are also the sum over its events. */
  predicate RowsMatchEvents(db: Store) {
    forall key | key in db.rows :: db.rows[key].consumed == EventTokens(key, db.events)
  }

  predicate CountersFit(db: Store) {
    forall key | key in db.rows :: db.rows[key].consumed <= SIGNED_BIGINT_MAX && db.rows[key].reserved <= SIGNED_BIGINT_MAX
  }

  predicate LedgerInv(db: Store) {
    && RowsExact(db) && OperationsSound(db) && KeysDistinct(db)
    && EventsSound(db) && RowsMatchEvents(db) && CountersFit(db)
  }

  // ---------------------------------------------------------------- lookups

  /** The first match is characterised by its position alone. */
  lemma {:induction false} IndexOfIs(ops: seq<Operation>, id: string, i: nat)
    requires i <= |ops| && (i < |ops| ==> ops[i].id == id)
    requires forall j | 0 <= j < i :: ops[j].id != id
    ensures IndexOf(ops, id) == i
    decreases |ops|
  {
    if 0 < i { IndexOfIs(ops[1..], id, i - 1); }
  }

  lemma IndexOfUpdate(ops: seq<Operation>, i: nat, o: Operation, id: string)
    requires i < |ops| && o.id == ops[i].id
    ensures IndexOf(ops[i := o], id) == IndexOf(ops, id)
  {
    IndexOfIs(ops[i := o], id, IndexOf(ops, id));
  }

  lemma IndexOfAppend(ops: seq<Operation>, o: Operation, id: string)
    ensures IndexOf(ops, id) < |ops| ==> IndexOf(ops + [o], id) == IndexOf(ops, id)
    ensures IndexOf(ops, id) == |ops| ==> IndexOf(ops + [o], id) == if o.id == id then |ops| else |ops| + 1
  {
    var i := IndexOf(ops, id);
    IndexOfIs(ops + [o], id, if i == |ops| && o.id != id then i + 1 else i);
  }

  lemma {:induction false} EventCountZero(events: seq<Event>, id: string)
    requires forall k | 0 <= k < |events| :: events[k].operationId != id
    ensures EventCount(events, id) == 0
    decreases |events|
  {
    if events != [] { EventCountZero(events[..|events| - 1], id); }
  }

  // ---------------------------------------------------------------- reserve keeps the invariant

  lemma ReserveShape(db: Store, dir: Directory, q: ReserveRequest)
    requires Reserve(db, dir, q).Ok?
    ensures q.reserved > 0 && q.now >= 0
    ensures var db' := Reserve(db, dir, q).value.store;
            var dailyKey, lifetimeKey := Daily(q.client, UtcDayStart(q.now)), Lifetime(q.client);
            && db'.operations == db.operations + [NewOperation(q)] && db'.events == db.events
            && db'.rows == db.rows[dailyKey := RowAfterReserve(RowOrNew(db.rows, dailyKey, q.now), q.reserved, q.now)]
                                  [lifetimeKey := RowAfterReserve(RowOrNew(db.rows, lifetimeKey, q.now), q.reserved, q.now)]
            && RowOrNew(db.rows, dailyKey, q.now).consumed + RowOrNew(db.rows, dailyKey, q.now).reserved + q.reserved <= SIGNED_BIGINT_MAX
            && RowOrNew(db.rows, lifetimeKey, q.now).consumed + RowOrNew(db.rows, lifetimeKey, q.now).reserved + q.reserved <= SIGNED_BIGINT_MAX
            && IndexOf(db.operations, q.operationId) == |db.operations|
            && IndexOfRequest(db.operations, q.client, q.requestId) == |db.operations|
  {
  }

  /** A row that covers the new operation. */
  lemma ReservedRow(db: Store, key: RowKey, q: ReserveRequest)
    requires RowsExact(db) && OperationsSound(db) && EventsSound(db) && RowsMatchEvents(db)
    requires q.reserved > 0 && Covers(key, NewOperation(q))
    ensures var row := RowAfterReserve(RowOrNew(db.rows, key, q.now), q.reserved, q.now);
            RowExact(key, row, db.operations + [NewOperation(q)]) && row.consumed == EventTokens(key, db.events)
  {
    var o := NewOperation(q);
    SumAppend(Requests, key, db.operations, o);
    SumAppend(Reserved, key, db.operations, o);
    SumAppend(Consumed, key, db.operations, o);
    SumAppend(Writes, key, db.operations, o);
    if key in db.rows { assert RowExact(key, db.rows[key], db.operations); } else { NoRowNoOperation(db, key); }
  }

  /** A row that does not. */
  lemma UnreservedRow(db: Store, key: RowKey, o: Operation)
    requires RowsExact(db) && key in db.rows && !Covers(key, o)
    ensures RowExact(key, db.rows[key], db.operations + [o])
  {
    SumAppend(Requests, key, db.operations, o);
    SumAppend(Reserved, key, db.operations, o);
    SumAppend(Consumed, key, db.operations, o);
    SumAppend(Writes, key, db.operations, o);
  }

  lemma ReserveKeepsRows(db: Store, dir: Directory, q: ReserveRequest)
    requires LedgerInv(db) && Reserve(db, dir, q).Ok?
    ensures RowsExact(Reserve(db, dir, q).value.store)
    ensures CountersFit(Reserve(db, dir, q).value.store)
    ensures RowsMatchEvents(Reserve(db, dir, q).value.store)
  {
    var db' := Reserve(db, dir, q).value.store;
    ReserveShape(db, dir, q);
    hide Reserve, RowExact, OperationsSound, EventsSound, IndexOf, IndexOfRequest;
    forall key | key in db'.rows
      ensures RowExact(key, db'.rows[key], db'.operations)
      ensures db'.rows[key].consumed <= SIGNED_BIGINT_MAX && db'.rows[key].reserved <= SIGNED_BIGINT_MAX
      ensures db'.rows[key].consumed == EventTokens(key, db'.events)
    {
      if Covers(key, NewOperation(q)) { ReservedRow(db, key, q); } else { UnreservedRow(db, key, NewOperation(q)); }
    }
  }

  /** A missing row covers no operation and no event. */
  lemma NoRowNoOperation(db: Store, key: RowKey)
    requires OperationsSound(db) && EventsSound(db) && key !in db.rows
    ensures Sum(Requests, key, db.operations) == Sum(Reserved, key, db.operations) == 0
    ensures Sum(Consumed, key, db.operations) == Sum(Writes, key, db.operations) == 0
    ensures EventTokens(key, db.events) == 0
  {
    forall i | 0 <= i < |db.operations| ensures !Covers(key, db.operations[i]) {
      assert OperationSound(db, db.operations[i]);
    }
    forall k | 0 <= k < |db.events| ensures !EventCovered(key, db.events[k]) {
      assert EventSound(db, k);
      assert OperationSound(db, db.operations[IndexOf(db.operations, db.events[k].operationId)]);
    }
    UncoveredSum(Requests, key, db.operations);
    UncoveredSum(Reserved, key, db.operations);
    UncoveredSum(Consumed, key, db.operations);
    UncoveredSum(Writes, key, db.operations);
    UncoveredEvents(key, db.events);
  }

  lemma {:induction false} UncoveredSum(m: Measure, key: RowKey, ops: seq<Operation>)
    requires forall i | 0 <= i < |ops| :: !Covers(key, ops[i])
    ensures Sum(m, key, ops) == 0
    decreases |ops|
  {
    if ops != [] { UncoveredSum(m, key, ops[..|ops| - 1]); }
  }

  lemma {:induction false} UncoveredEvents(key: RowKey, events: seq<Event>)
    requires forall k | 0 <= k < |events| :: !EventCovered(key, events[k])
    ensures EventTokens(key, events) == 0
    decreases |events|
  {
    if events != [] { UncoveredEvents(key, events[..|events| - 1]); }
  }

  lemma ReserveKeepsOperations(db: Store, dir: Directory, q: ReserveRequest)
    requires LedgerInv(db) && Reserve(db, dir, q).Ok?
    ensures OperationsSound(Reserve(db, dir, q).value.store)
  {
    var db' := Reserve(db, dir, q).value.store;
    ReserveShape(db, dir, q);
    hide Reserve, RowsExact, RowsMatchEvents, CountersFit, KeysDistinct, OperationSound, IndexOfRequest, RowAfterReserve, RowOrNew;
    forall i | 0 <= i < |db'.operations| ensures OperationSound(db', db'.operations[i]) {
      if i < |db.operations| { StaysSound(db, db', db.operations[i]); } else { NewIsSound(db, db', q); }
    }
  }

  /** More rows take nothing from an operation. */
  lemma StaysSound(db: Store, db': Store, o: Operation)
    requires OperationSound(db, o) && db.rows.Keys <= db'.rows.Keys && db'.events == db.events
    ensures OperationSound(db', o)
  {
  }

  lemma NewIsSound(db: Store, db': Store, q: ReserveRequest)
    requires EventsSound(db) && IndexOf(db.operations, q.operationId) == |db.operations| && db'.events == db.events
    requires q.reserved > 0 && q.now >= 0 && Daily(q.client, UtcDayStart(q.now)) in db'.rows && Lifetime(q.client) in db'.rows
    ensures OperationSound(db', NewOperation(q))
  {
    forall k | 0 <= k < |db.events| ensures db.events[k].operationId != q.operationId { assert EventSound(db, k); }
    EventCountZero(db.events, q.operationId);
  }

  lemma ReserveKeepsKeys(db: Store, dir: Directory, q: ReserveRequest)
    requires KeysDistinct(db) && Reserve(db, dir, q).Ok?
    ensures KeysDistinct(Reserve(db, dir, q).value.store)
  {
    ReserveShape(db, dir, q);
    hide Reserve;
  }

  lemma ReserveKeepsEvents(db: Store, dir: Directory, q: ReserveRequest)
    requires LedgerInv(db) && Reserve(db, dir, q).Ok?
    ensures EventsSound(Reserve(db, dir, q).value.store)
  {
    var db' := Reserve(db, dir, q).value.store;
    forall k | 0 <= k < |db'.events| ensures EventSound(db', k) {
      assert EventSound(db, k);
      IndexOfAppend(db.operations, NewOperation(q), db.events[k].operationId);
    }
  }

  lemma ReserveKeepsLedger(db: Store, dir: Directory, q: ReserveRequest)
    requires LedgerInv(db) && Reserve(db, dir, q).Ok?
    ensures LedgerInv(Reserve(db, dir, q).value.store)
  {
    ReserveKeepsRows(db, dir, q);
    ReserveKeepsOperations(db, dir, q);
    ReserveKeepsKeys(db, dir, q);
    ReserveKeepsEvents(db, dir, q);
  }

  // ---------------------------------------------------------------- evidence keeps the invariant

  /** Rewriting a pending operation without touching what the rows count keeps everything. */
  predicate SameShare(o: Operation, p: Operation) {
    && o.status.Pending? && p.status.Pending? && p.completedAt.None?
    && p.id == o.id && p.client == o.client && p.requestId == o.requestId && p.startedAt == o.startedAt
    && p.reserved == o.reserved
    && (!p.usageRecorded ==> p.Total() == 0)
    && (p.settlementId.Some? <==> p.usageOperationId.Some?)
  }

  lemma RewriteKeepsRows(db: Store, i: nat, p: Operation)
    requires RowsExact(db) && i < |db.operations| && SameShare(db.operations[i], p)
    ensures RowsExact(WithOperation(db, i, p))
  {
    forall key | key in db.rows ensures RowExact(key, db.rows[key], db.operations[i := p]) {
      SumUpdate(Requests, key, db.operations, i, p);
      SumUpdate(Reserved, key, db.operations, i, p);
      SumUpdate(Consumed, key, db.operations, i, p);
      SumUpdate(Writes, key, db.operations, i, p);
    }
  }

  lemma RewriteKeepsOperations(db: Store, i: nat, p: Operation)
    requires OperationsSound(db) && KeysDistinct(db) && i < |db.operations| && SameShare(db.operations[i], p)
    ensures OperationsSound(WithOperation(db, i, p)) && KeysDistinct(WithOperation(db, i, p))
  {
    var db' := WithOperation(db, i, p);
    KeysStay(db, db', i, p);
    forall j | 0 <= j < |db'.operations| ensures OperationSound(db', db'.operations[j]) {
      assert OperationSound(db, db.operations[j]);
    }
  }

  /** Keys stay distinct when one operation is rewritten under its own. */
  lemma KeysStay(db: Store, db': Store, i: nat, p: Operation)
    requires KeysDistinct(db) && i < |db.operations| && db'.operations == db.operations[i := p]
    requires p.id == db.operations[i].id && p.client == db.operations[i].client && p.requestId == db.operations[i].requestId
    ensures KeysDistinct(db')
  {
  }

  lemma RewriteKeepsEvents(db: Store, i: nat, p: Operation)
    requires EventsSound(db) && i < |db.operations| && SameShare(db.operations[i], p)
    ensures EventsSound(WithOperation(db, i, p))
  {
    var db' := WithOperation(db, i, p);
    forall k | 0 <= k < |db'.events| ensures EventSound(db', k) {
      assert EventSound(db, k);
      IndexOfUpdate(db.operations, i, p, db.events[k].operationId);
    }
  }

  lemma RewriteKeepsLedger(db: Store, i: nat, p: Operation)
    requires LedgerInv(db) && i < |db.operations| && SameShare(db.operations[i], p)
    ensures LedgerInv(WithOperation(db, i, p))
  {
    RewriteKeepsRows(db, i, p);
    RewriteKeepsOperations(db, i, p);
    RewriteKeepsEvents(db, i, p);
  }

  lemma EvidenceKeepsLedger(db: Store, txn: Transaction)
    requires LedgerInv(db) && (txn.DoRecordCredit? || txn.DoRecordUsage? || txn.DoTouch?)
    ensures LedgerInv(Apply(db, txn))
  {
    var db' := Apply(db, txn);
    var i := IndexOf(db.operations, txn.id);
    if db' != db {
      assert OperationSound(db, db.operations[i]);
      RewriteKeepsLedger(db, i, db'.operations[i]);
      assert db' == WithOperation(db, i, db'.operations[i]);
    }
  }

  // ---------------------------------------------------------------- finalize keeps the invariant

  /** In reach, finalising a pending operation finds both rows, enough reserved tokens and no earlier event:
      it is refused only for evidence the caller brings or for counter overflow. */
  lemma FinalizeRefusedExactlyWhen(db: Store, id: string, t: Terminal)
    requires LedgerInv(db) && IndexOf(db.operations, id) < |db.operations|
    requires db.operations[IndexOf(db.operations, id)].status.Pending?
    ensures var o := db.operations[IndexOf(db.operations, id)];
            && HasRows(db, o)
            && db.rows[o.DailyKey()].reserved >= o.reserved && db.rows[o.LifetimeKey()].reserved >= o.reserved
            && EventCount(db.events, o.id) == 0
            && (Finalize(db, id, t).Err? <==>
                  || !t.Valid() || t.completedAt < o.startedAt
                  || db.rows[o.LifetimeKey()].consumed + o.Total() > SIGNED_BIGINT_MAX
                  || ServerIdUsed(db.events, t.serverRequestId))
  {
    var i := IndexOf(db.operations, id);
    var o := db.operations[i];
    assert OperationSound(db, o);
    SumAtLeast(Reserved, o.DailyKey(), db.operations, i);
    SumAtLeast(Reserved, o.LifetimeKey(), db.operations, i);
    assert RowExact(o.DailyKey(), db.rows[o.DailyKey()], db.operations);
    assert RowExact(o.LifetimeKey(), db.rows[o.LifetimeKey()], db.operations);
    DayAtMostLifetime(Consumed, o.client, UtcDayStart(o.startedAt), db.operations);
  }

  lemma FinalizeKeepsRow(db: Store, i: nat, t: Terminal, key: RowKey)
    requires RowsExact(db) && CountersFit(db)
    requires i < |db.operations| && db.operations[i].status.Pending? && HasRows(db, db.operations[i])
    requires t.Valid() && FinalizePending(db, i, t).Ok? && key in db.rows
    ensures var db' := FinalizePending(db, i, t).value.store;
            && key in db'.rows && RowExact(key, db'.rows[key], db'.operations)
            && db'.rows[key].consumed <= SIGNED_BIGINT_MAX && db'.rows[key].reserved <= SIGNED_BIGINT_MAX
  {
    var closed := Terminated(db.operations[i], t);
    assert RowExact(key, db.rows[key], db.operations);
    SumUpdate(Requests, key, db.operations, i, closed);
    SumUpdate(Reserved, key, db.operations, i, closed);
    SumUpdate(Consumed, key, db.operations, i, closed);
    SumUpdate(Writes, key, db.operations, i, closed);
  }

  lemma FinalizeKeepsRows(db: Store, i: nat, t: Terminal)
    requires RowsExact(db) && CountersFit(db)
    requires i < |db.operations| && db.operations[i].status.Pending? && HasRows(db, db.operations[i])
    requires t.Valid() && FinalizePending(db, i, t).Ok?
    ensures RowsExact(FinalizePending(db, i, t).value.store)
    ensures CountersFit(FinalizePending(db, i, t).value.store)
  {
    var db' := FinalizePending(db, i, t).value.store;
    assert db'.rows.Keys == db.rows.Keys;
    forall key | key in db'.rows
      ensures RowExact(key, db'.rows[key], db'.operations)
      ensures db'.rows[key].consumed <= SIGNED_BIGINT_MAX && db'.rows[key].reserved <= SIGNED_BIGINT_MAX
    {
      FinalizeKeepsRow(db, i, t, key);
    }
  }

  lemma FinalizeMatchesEvents(db: Store, i: nat, t: Terminal)
    requires RowsMatchEvents(db)
    requires i < |db.operations| && db.operations[i].status.Pending? && HasRows(db, db.operations[i])
    requires t.Valid() && FinalizePending(db, i, t).Ok?
    ensures RowsMatchEvents(FinalizePending(db, i, t).value.store)
  {
    hide EventTokens, EventCount, UtcDayStart, ServerIdUsed, Terminated, TerminalSnapshot;
    var db' := FinalizePending(db, i, t).value.store;
    forall key | key in db'.rows ensures db'.rows[key].consumed == EventTokens(key, db'.events) {
      assert key in db.rows;
      EventTokensAppend(key, db.events, db'.events[|db.events|]);
    }
  }

  lemma FinalizeKeepsOldEvent(db: Store, i: nat, t: Terminal, k: nat)
    requires EventsSound(db)
    requires i < |db.operations| && db.operations[i].status.Pending? && HasRows(db, db.operations[i])
    requires t.Valid() && FinalizePending(db, i, t).Ok? && k < |db.events|
    ensures EventSound(FinalizePending(db, i, t).value.store, k)
  {
    var db' := FinalizePending(db, i, t).value.store;
    IndexOfUpdate(db.operations, i, Terminated(db.operations[i], t), db.events[k].operationId);
    assert EventSound(db, k);
    assert db'.events[..k + 1] == db.events[..k + 1];
  }

  lemma FinalizeAddsEvent(db: Store, i: nat, t: Terminal)
    requires RowsMatchEvents(db) && KeysDistinct(db)
    requires i < |db.operations| && db.operations[i].status.Pending? && HasRows(db, db.operations[i])
    requires t.Valid() && FinalizePending(db, i, t).Ok?
    ensures EventSound(FinalizePending(db, i, t).value.store, |db.events|)
  {
    var db' := FinalizePending(db, i, t).value.store;
    var o := db.operations[i];
    IndexOfIs(db'.operations, o.id, i);
    FinalizeMatchesEvents(db, i, t);
    assert db'.events[..|db.events| + 1] == db'.events;
    assert o.DailyKey() in db'.rows && o.LifetimeKey() in db'.rows;
  }

  lemma FinalizeKeepsEvents(db: Store, i: nat, t: Terminal)
    requires EventsSound(db) && RowsMatchEvents(db) && KeysDistinct(db)
    requires i < |db.operations| && db.operations[i].status.Pending? && HasRows(db, db.operations[i])
    requires t.Valid() && FinalizePending(db, i, t).Ok?
    ensures EventsSound(FinalizePending(db, i, t).value.store)
  {
    var db' := FinalizePending(db, i, t).value.store;
    forall k | 0 <= k < |db'.events| ensures EventSound(db', k) {
      if k < |db.events| { FinalizeKeepsOldEvent(db, i, t, k); } else { FinalizeAddsEvent(db, i, t); }
    }
  }

  lemma FinalizeShape(db: Store, i: nat, t: Terminal)
    requires i < |db.operations| && db.operations[i].status.Pending? && HasRows(db, db.operations[i])
    requires t.Valid() && FinalizePending(db, i, t).Ok?
    ensures t.completedAt >= db.operations[i].startedAt && EventCount(db.events, db.operations[i].id) == 0
    ensures var db' := FinalizePending(db, i, t).value.store;
            && db'.operations == db.operations[i := Terminated(db.operations[i], t)] && db'.rows.Keys == db.rows.Keys
            && |db'.events| == |db.events| + 1 && db'.events == db.events + [db'.events[|db.events|]]
            && db'.events[|db.events|].operationId == db.operations[i].id
  {
  }

  /** The closed operation has its event. */
  lemma ClosedIsSound(db: Store, db': Store, o: Operation, t: Terminal, e: Event)
    requires OperationSound(db, o) && o.status.Pending? && t.completedAt >= o.startedAt
    requires db'.rows.Keys == db.rows.Keys && db'.events == db.events + [e] && e.operationId == o.id
    ensures OperationSound(db', Terminated(o, t))
  {
    EventTokensAppend(o.LifetimeKey(), db.events, e);
  }

  /** Every other operation has the events it had. */
  lemma OtherIsSound(db: Store, db': Store, o: Operation, e: Event)
    requires OperationSound(db, o) && db'.rows.Keys == db.rows.Keys && db'.events == db.events + [e] && e.operationId != o.id
    ensures OperationSound(db', o)
  {
    EventTokensAppend(o.LifetimeKey(), db.events, e);
  }

  lemma FinalizeKeepsOperations(db: Store, i: nat, t: Terminal)
    requires OperationsSound(db) && KeysDistinct(db)
    requires i < |db.operations| && db.operations[i].status.Pending? && HasRows(db, db.operations[i])
    requires t.Valid() && FinalizePending(db, i, t).Ok?
    ensures OperationsSound(FinalizePending(db, i, t).value.store)
    ensures KeysDistinct(FinalizePending(db, i, t).value.store)
  {
    var db', o := FinalizePending(db, i, t).value.store, db.operations[i];
    FinalizeShape(db, i, t);
    hide FinalizePending, OperationSound, EventCount, IndexOf, Terminal.Valid;
    var e := db'.events[|db.events|];
    KeysStay(db, db', i, Terminated(o, t));
    forall j | 0 <= j < |db'.operations| ensures OperationSound(db', db'.operations[j]) {
      if j == i { ClosedIsSound(db, db', o, t, e); } else { OtherIsSound(db, db', db.operations[j], e); }
    }
  }

  lemma FinalizeKeepsLedger(db: Store, id: string, t: Terminal)
    requires LedgerInv(db)
    ensures LedgerInv(Apply(db, DoFinalize(id, t)))
  {
    var i := IndexOf(db.operations, id);
    hide RowsExact, OperationsSound, KeysDistinct, EventsSound, RowsMatchEvents, CountersFit, FinalizePending;
    if Finalize(db, id, t).Ok? && db.operations[i].status.Pending? {
      FinalizeKeepsRows(db, i, t);
      FinalizeMatchesEvents(db, i, t);
      FinalizeKeepsEvents(db, i, t);
      FinalizeKeepsOperations(db, i, t);
    }
  }

  // ---------------------------------------------------------------- every history

  lemma RecoveryKeepsLedger(db: Store, id: string, prompt: int, completion: int, t: Terminal)
    requires LedgerInv(db)
    ensures LedgerInv(Apply(db, DoRecordUsageAndFinalize(id, prompt, completion, t)))
  {
    hide LedgerInv, Finalize, RecordUsage;
    var recording := DoRecordUsage(id, prompt, completion, t.completedAt);
    EvidenceKeepsLedger(db, recording);
    FinalizeKeepsLedger(Apply(db, recording), id, t);
  }

  lemma ApplyKeepsLedger(db: Store, txn: Transaction)
    requires LedgerInv(db)
    ensures LedgerInv(Apply(db, txn))
  {
    if txn.DoReserve? {
      if Reserve(db, txn.dir, txn.request).Ok? { ReserveKeepsLedger(db, txn.dir, txn.request); }
    } else if txn.DoFinalize? {
      FinalizeKeepsLedger(db, txn.id, txn.terminal);
    } else if txn.DoRecordUsageAndFinalize? {
      RecoveryKeepsLedger(db, txn.id, txn.prompt, txn.completion, txn.terminal);
    } else {
      EvidenceKeepsLedger(db, txn);
    }
  }

  /** Conservation, one event per terminal operation and prefix sums hold after every serial history. */
  lemma {:induction false} LedgerHolds(txns: seq<Transaction>)
    ensures LedgerInv(RunTransactions(txns))
    decreases |txns|
  {
    if txns != [] {
      LedgerHolds(txns[..|txns| - 1]);
      ApplyKeepsLedger(RunTransactions(txns[..|txns| - 1]), txns[|txns| - 1]);
    }
  }

  // ---------------------------------------------------------------- lifetime is the sum of the days

  function Field(m: Measure, row: Row): int {
    match m
    case Requests => row.requests
    case Reserved => row.reserved
    case Consumed => row.consumed
    case _ => 0
  }

  function SumOverDays(m: Measure, client: string, days: seq<int>, ops: seq<Operation>): nat {
    if days == [] then 0
    else SumOverDays(m, client, days[..|days| - 1], ops) + Sum(m, Daily(client, days[|days| - 1]), ops)
  }

  function DayRows(m: Measure, client: string, days: seq<int>, rows: map<RowKey, Row>): int
    requires forall i | 0 <= i < |days| :: Daily(client, days[i]) in rows
  {
    if days == [] then 0
    else DayRows(m, client, days[..|days| - 1], rows) + Field(m, rows[Daily(client, days[|days| - 1])])
  }

  lemma {:induction false} DaysOfOne(m: Measure, client: string, days: seq<int>, ops: seq<Operation>, o: Operation)
    requires Sequences.Distinct(days)
    requires o.client == client ==> o.startedAt >= 0
    ensures SumOverDays(m, client, days, ops + [o])
         == SumOverDays(m, client, days, ops)
            + if o.client == client && UtcDayStart(o.startedAt) in days then Share(m, o) else 0
    decreases |days|
  {
    if days != [] {
      var n := |days| - 1;
      DaysOfOne(m, client, days[..n], ops, o);
      SumAppend(m, Daily(client, days[n]), ops, o);
      assert days == days[..n] + [days[n]];
    }
  }

  lemma {:induction false} DaysPartitionLifetime(m: Measure, client: string, days: seq<int>, ops: seq<Operation>)
    requires Sequences.Distinct(days)
    requires forall i | 0 <= i < |ops| && ops[i].client == client :: ops[i].startedAt >= 0 && UtcDayStart(ops[i].startedAt) in days
    ensures SumOverDays(m, client, days, ops) == Sum(m, Lifetime(client), ops)
    decreases |ops|
  {
    if ops == [] {
      NoOperationsNoDays(m, client, days);
    } else {
      var n := |ops| - 1;
      DaysPartitionLifetime(m, client, days, ops[..n]);
      DaysOfOne(m, client, days, ops[..n], ops[n]);
      assert ops == ops[..n] + [ops[n]];
    }
  }

  lemma {:induction false} NoOperationsNoDays(m: Measure, client: string, days: seq<int>)
    ensures SumOverDays(m, client, days, []) == 0
    decreases |days|
  {
    if days != [] { NoOperationsNoDays(m, client, days[..|days| - 1]); }
  }

  lemma {:induction false} DayRowsAreSums(m: Measure, client: string, days: seq<int>, db: Store)
    requires RowsExact(db) && m in {Requests, Reserved, Consumed}
    requires forall i | 0 <= i < |days| :: Daily(client, days[i]) in db.rows
    ensures DayRows(m, client, days, db.rows) == SumOverDays(m, client, days, db.operations)
    decreases |days|
  {
    if days != [] { DayRowsAreSums(m, client, days[..|days| - 1], db); }
  }

  /** The lifetime row is, field by field, the sum of the caller's daily rows. */
  lemma LifetimeIsSumOfDays(m: Measure, client: string, days: seq<int>, db: Store)
    requires LedgerInv(db) && m in {Requests, Reserved, Consumed} && Lifetime(client) in db.rows
    requires Sequences.Distinct(days) && forall day :: day in days <==> Daily(client, day) in db.rows
    ensures Field(m, db.rows[Lifetime(client)]) == DayRows(m, client, days, db.rows)
  {
    DayRowsAreSums(m, client, days, db);
    forall i | 0 <= i < |db.operations| && db.operations[i].client == client
      ensures db.operations[i].startedAt >= 0 && UtcDayStart(db.operations[i].startedAt) in days
    {
      assert OperationSound(db, db.operations[i]);
    }
    DaysPartitionLifetime(m, client, days, db.operations);
  }

  // ---------------------------------------------------------------- the real bound on every row

  datatype Limits = Limits(
    dailyRequests: Option<int>, dailyTokens: Option<int>, totalRequests: Option<int>, totalTokens: Option<int>)

  function LimitsOf(c: Client): Limits {
    Limits(c.dailyRequestLimit, c.dailyTokenLimit, c.totalRequestLimit, c.totalTokenLimit)
  }

  /** Every admission of the history reads these limits; status, credentials and permissions may vary. */
  predicate LimitsHeld(txns: seq<Transaction>, limits: map<string, Limits>) {
    forall i | 0 <= i < |txns| && txns[i].DoReserve? ::
      forall c | c in txns[i].dir.clients :: c in limits && LimitsOf(txns[i].dir.clients[c]) == limits[c]
  }

  function RequestLimit(key: RowKey, limits: map<string, Limits>): Option<int>
    requires key.client in limits
  {
    if key.Daily? then limits[key.client].dailyRequests else limits[key.client].totalRequests
  }

  function TokenLimit(key: RowKey, limits: map<string, Limits>): Option<int>
    requires key.client in limits
  {
    if key.Daily? then limits[key.client].dailyTokens else limits[key.client].totalTokens
  }

  predicate RowBounded(key: RowKey, row: Row, ops: seq<Operation>, limits: map<string, Limits>) {
    && key.client in limits
    && (RequestLimit(key, limits).Some? ==> row.requests <= RequestLimit(key, limits).value)
    && (TokenLimit(key, limits).Some? ==>
          row.consumed + row.reserved <= TokenLimit(key, limits).value + Sum(Overrun, key, ops))
  }

  predicate Bounded(db: Store, limits: map<string, Limits>) {
    forall key | key in db.rows :: RowBounded(key, db.rows[key], db.operations, limits)
  }

  lemma ReserveKeepsBound(db: Store, dir: Directory, q: ReserveRequest, limits: map<string, Limits>)
    requires Bounded(db, limits) && Reserve(db, dir, q).Ok?
    requires q.client in limits && LimitsOf(dir.clients[q.client]) == limits[q.client]
    ensures Bounded(Reserve(db, dir, q).value.store, limits)
  {
    var db' := Reserve(db, dir, q).value.store;
    forall key | key in db'.rows ensures RowBounded(key, db'.rows[key], db'.operations, limits) {
      SumAppend(Overrun, key, db.operations, NewOperation(q));
    }
  }

  lemma FinalizeKeepsBound(db: Store, i: nat, t: Terminal, limits: map<string, Limits>)
    requires Bounded(db, limits)
    requires i < |db.operations| && db.operations[i].status.Pending? && HasRows(db, db.operations[i])
    requires t.Valid() && FinalizePending(db, i, t).Ok?
    ensures Bounded(FinalizePending(db, i, t).value.store, limits)
  {
    var db' := FinalizePending(db, i, t).value.store;
    assert db'.rows.Keys == db.rows.Keys;
    forall key | key in db'.rows ensures RowBounded(key, db'.rows[key], db'.operations, limits) {
      assert RowBounded(key, db.rows[key], db.operations, limits);
      SumUpdate(Overrun, key, db.operations, i, Terminated(db.operations[i], t));
    }
  }

  lemma RewriteKeepsBound(db: Store, i: nat, p: Operation, limits: map<string, Limits>)
    requires Bounded(db, limits)
    requires i < |db.operations| && SameShare(db.operations[i], p)
    ensures Bounded(WithOperation(db, i, p), limits)
  {
    forall key | key in db.rows ensures RowBounded(key, db.rows[key], db.operations[i := p], limits) {
      assert RowBounded(key, db.rows[key], db.operations, limits);
      SumUpdate(Overrun, key, db.operations, i, p);
    }
  }

  lemma EvidenceKeepsBound(db: Store, txn: Transaction, limits: map<string, Limits>)
    requires LedgerInv(db) && Bounded(db, limits) && (txn.DoRecordCredit? || txn.DoRecordUsage? || txn.DoTouch?)
    ensures Bounded(Apply(db, txn), limits)
  {
    var db' := Apply(db, txn);
    var i := IndexOf(db.operations, txn.id);
    if db' != db {
      assert OperationSound(db, db.operations[i]);
      RewriteKeepsBound(db, i, db'.operations[i], limits);
      assert db' == WithOperation(db, i, db'.operations[i]);
    }
  }

  lemma TerminalKeepsBound(db: Store, id: string, t: Terminal, limits: map<string, Limits>)
    requires Bounded(db, limits)
    ensures Bounded(Apply(db, DoFinalize(id, t)), limits)
  {
    var i := IndexOf(db.operations, id);
    if Finalize(db, id, t).Ok? && db.operations[i].status.Pending? { FinalizeKeepsBound(db, i, t, limits); }
  }

  lemma RecoveryKeepsBound(db: Store, id: string, prompt: int, completion: int, t: Terminal, limits: map<string, Limits>)
    requires LedgerInv(db) && Bounded(db, limits)
    ensures Bounded(Apply(db, DoRecordUsageAndFinalize(id, prompt, completion, t)), limits)
  {
    hide Finalize, RecordUsage, Bounded, LedgerInv;
    var recording := DoRecordUsage(id, prompt, completion, t.completedAt);
    EvidenceKeepsBound(db, recording, limits);
    TerminalKeepsBound(Apply(db, recording), id, t, limits);
  }

  lemma ApplyKeepsBound(db: Store, txn: Transaction, limits: map<string, Limits>)
    requires LedgerInv(db) && Bounded(db, limits) && LimitsHeld([txn], limits)
    ensures Bounded(Apply(db, txn), limits)
  {
    if txn.DoReserve? {
      assert [txn][0].DoReserve?;
      if Reserve(db, txn.dir, txn.request).Ok? { ReserveKeepsBound(db, txn.dir, txn.request, limits); }
    } else if txn.DoFinalize? {
      TerminalKeepsBound(db, txn.id, txn.terminal, limits);
    } else if txn.DoRecordUsageAndFinalize? {
      RecoveryKeepsBound(db, txn.id, txn.prompt, txn.completion, txn.terminal, limits);
    } else {
      EvidenceKeepsBound(db, txn, limits);
    }
  }

  /** With limits held, every row of every history stays within its request limit, and within its token
      limit plus the tokens by which finalised operations overran their reservations. */
  lemma {:induction false} QuotaBoundHolds(txns: seq<Transaction>, limits: map<string, Limits>)
    requires LimitsHeld(txns, limits)
    ensures Bounded(RunTransactions(txns), limits)
    decreases |txns|
  {
    if txns != [] {
      var n := |txns| - 1;
      QuotaBoundHolds(txns[..n], limits);
      LedgerHolds(txns[..n]);
      assert [txns[n]][0] == txns[n];
      ApplyKeepsBound(RunTransactions(txns[..n]), txns[n], limits);
    }
  }

  /** Without an overrun the token limit itself holds. */
  lemma {:induction false} NoOverrunNoExcess(key: RowKey, ops: seq<Operation>)
    requires forall i | 0 <= i < |ops| && Covers(key, ops[i]) && !ops[i].status.Pending? :: ops[i].Total() <= ops[i].reserved
    ensures Sum(Overrun, key, ops) == 0
    decreases |ops|
  {
    if ops != [] { NoOverrunNoExcess(key, ops[..|ops| - 1]); }
  }

  // ---------------------------------------------------------------- exactly which calls are admitted

  /** The caller's own operations leave room for one more call under these limits. */
  predicate LeavesRoom(key: RowKey, ops: seq<Operation>, requestLimit: Option<int>, tokenLimit: Option<int>, reserved: int) {
    var tokens := Sum(Consumed, key, ops) + Sum(Reserved, key, ops) + reserved;
    && (requestLimit.Some? ==> Sum(Requests, key, ops) + 1 <= requestLimit.value)
    && (tokenLimit.Some? ==> tokens <= tokenLimit.value)
    && tokens <= SIGNED_BIGINT_MAX
  }

  lemma RowLeavesRoom(db: Store, key: RowKey, requestLimit: Option<int>, tokenLimit: Option<int>, reserved: int, now: int,
                      requestCode: string, tokenCode: string)
    requires LedgerInv(db)
    ensures LimitProblem(RowOrNew(db.rows, key, now), requestLimit, tokenLimit, reserved, requestCode, tokenCode).None?
        <==> LeavesRoom(key, db.operations, requestLimit, tokenLimit, reserved)
  {
    if key in db.rows { assert RowExact(key, db.rows[key], db.operations); } else { NoRowNoOperation(db, key); }
  }

  /** A call is admitted exactly when request and caller pass their checks, neither ID is used, and what the
      caller's operations of the day, and of its lifetime, hold and used leaves room for the reservation. */
  lemma ReserveAdmitsExactlyWhen(db: Store, dir: Directory, q: ReserveRequest)
    requires LedgerInv(db)
    ensures Reserve(db, dir, q).Ok? <==>
            && RequestProblem(q).None? && CallerProblem(dir, q).None? && PeriodProblem(q.now).None?
            && (forall i | 0 <= i < |db.operations| ::
                  && db.operations[i].id != q.operationId
                  && (db.operations[i].client != q.client || db.operations[i].requestId != q.requestId))
            && LeavesRoom(Daily(q.client, UtcDayStart(q.now)), db.operations,
                          dir.clients[q.client].dailyRequestLimit, dir.clients[q.client].dailyTokenLimit, q.reserved)
            && LeavesRoom(Lifetime(q.client), db.operations,
                          dir.clients[q.client].totalRequestLimit, dir.clients[q.client].totalTokenLimit, q.reserved)
  {
    if CallerProblem(dir, q).None? && PeriodProblem(q.now).None? {
      var client := dir.clients[q.client];
      RowLeavesRoom(db, Daily(q.client, UtcDayStart(q.now)), client.dailyRequestLimit, client.dailyTokenLimit, q.reserved, q.now,
                    "DAILY_REQUEST_QUOTA_EXCEEDED", "DAILY_TOKEN_QUOTA_EXCEEDED");
      RowLeavesRoom(db, Lifetime(q.client), client.totalRequestLimit, client.totalTokenLimit, q.reserved, q.now,
                    "TOTAL_REQUEST_QUOTA_EXCEEDED", "TOTAL_TOKEN_QUOTA_EXCEEDED");
    }
  }

  // ---------------------------------------------------------------- what no later transaction undoes

  /** How one operation may change between two committed states. */
  predicate Evolves(o: Operation, p: Operation) {
    && p.id == o.id && p.client == o.client && p.credential == o.credential && p.requestId == o.requestId
    && p.fingerprint == o.fingerprint && p.model == o.model && p.stream == o.stream
    && p.reserved == o.reserved && p.startedAt == o.startedAt
    && (!o.status.Pending? ==> p == o)
    && (o.usageRecorded ==> p.usageRecorded && p.prompt == o.prompt && p.completion == o.completion)
    && (o.settlementId.Some? ==> p.settlementId == o.settlementId && p.usageOperationId == o.usageOperationId)
  }

  /** Operations and events are append-only, terminal operations frozen, evidence set once. */
  predicate Extends(db: Store, db': Store) {
    && |db.operations| <= |db'.operations|
    && (forall i | 0 <= i < |db.operations| :: Evolves(db.operations[i], db'.operations[i]))
    && db.events <= db'.events
  }

  lemma ExtendsTransitive(a: Store, b: Store, c: Store)
    requires Extends(a, b) && Extends(b, c)
    ensures Extends(a, c)
  {
    forall i | 0 <= i < |a.operations| ensures Evolves(a.operations[i], c.operations[i]) {
      assert Evolves(a.operations[i], b.operations[i]) && Evolves(b.operations[i], c.operations[i]);
    }
  }

  lemma RewriteExtends(db: Store, db': Store, i: nat, p: Operation)
    requires i < |db.operations| && Evolves(db.operations[i], p)
    requires db'.operations == db.operations[i := p] && db.events <= db'.events
    ensures Extends(db, db')
  {
  }

  lemma ReserveExtends(db: Store, dir: Directory, q: ReserveRequest)
    ensures Extends(db, Apply(db, DoReserve(dir, q)))
  {
    hide ReserveProblem;
  }

  lemma EvidenceExtends(db: Store, txn: Transaction)
    requires txn.DoRecordCredit? || txn.DoRecordUsage? || txn.DoTouch?
    ensures Extends(db, Apply(db, txn))
  {
    var db', i := Apply(db, txn), IndexOf(db.operations, txn.id);
    hide Extends;
    if db' == db { ExtendsItself(db); } else { RewriteExtends(db, db', i, db'.operations[i]); }
  }

  lemma ExtendsItself(db: Store)
    ensures Extends(db, db)
  {
  }

  lemma FinalizeExtends(db: Store, id: string, t: Terminal)
    ensures Extends(db, Apply(db, DoFinalize(id, t)))
  {
    var i := IndexOf(db.operations, id);
    hide Extends, FinalizePending;
    if Finalize(db, id, t).Ok? && db.operations[i].status.Pending? {
      FinalizeShape(db, i, t);
      RewriteExtends(db, Apply(db, DoFinalize(id, t)), i, Terminated(db.operations[i], t));
    } else {
      ExtendsItself(db);
    }
  }

  lemma ApplyExtends(db: Store, txn: Transaction)
    ensures Extends(db, Apply(db, txn))
  {
    hide Extends, Reserve, RecordUsage, Finalize;
    if txn.DoReserve? {
      ReserveExtends(db, txn.dir, txn.request);
    } else if txn.DoFinalize? {
      FinalizeExtends(db, txn.id, txn.terminal);
    } else if txn.DoRecordUsageAndFinalize? {
      var recording := DoRecordUsage(txn.id, txn.prompt, txn.completion, txn.terminal.completedAt);
      var mid := Apply(db, recording);
      ExtendsItself(db);
      EvidenceExtends(db, recording);
      FinalizeExtends(mid, txn.id, txn.terminal);
      ExtendsTransitive(db, mid, Apply(mid, DoFinalize(txn.id, txn.terminal)));
    } else {
      EvidenceExtends(db, txn);
    }
  }

  lemma {:induction false} RunExtends(txns: seq<Transaction>, n: nat)
    requires n <= |txns|
    ensures Extends(RunTransactions(txns[..n]), RunTransactions(txns))
    decreases |txns|
  {
    if n == |txns| {
      assert txns[..n] == txns;
    } else {
      var m := |txns| - 1;
      RunExtends(txns[..m], n);
      assert txns[..m][..n] == txns[..n];
      ApplyExtends(RunTransactions(txns[..m]), txns[m]);
      ExtendsTransitive(RunTransactions(txns[..n]), RunTransactions(txns[..m]), RunTransactions(txns));
    }
  }

  /** Finalising again changes nothing, and succeeds exactly on the same status, HTTP status and code. */
  lemma FinalizeAgain(db: Store, id: string, t: Terminal)
    requires LedgerInv(db) && t.Valid() && IndexOf(db.operations, id) < |db.operations|
    requires !db.operations[IndexOf(db.operations, id)].status.Pending?
    ensures Apply(db, DoFinalize(id, t)) == db
    ensures var o := db.operations[IndexOf(db.operations, id)];
            Finalize(db, id, t).Ok? <==> o.status == t.status && o.httpStatus == Some(t.httpStatus) && o.code == Some(t.code)
  {
    assert OperationSound(db, db.operations[IndexOf(db.operations, id)]);
  }

  /** A committed finalisation replayed at once answers the same snapshot and commits nothing. */
  lemma FinalizeTwice(db: Store, id: string, t: Terminal)
    requires LedgerInv(db) && Finalize(db, id, t).Ok?
    ensures Finalize(Apply(db, DoFinalize(id, t)), id, t) == Ok(Commit(Apply(db, DoFinalize(id, t)), Finalize(db, id, t).value.value))
  {
    var i := IndexOf(db.operations, id);
    var db' := Apply(db, DoFinalize(id, t));
    if db.operations[i].status.Pending? {
      FinalizeKeepsLedger(db, id, t);
      assert OperationSound(db', db'.operations[i]);
      hide LedgerInv, EventCount;
      IndexOfUpdate(db.operations, i, Terminated(db.operations[i], t), id);
      TerminalAnswers(db, i, t);
    }
  }

  /** What a pending finalisation answered is what its rows and terminal operation answer. */
  lemma TerminalAnswers(db: Store, i: nat, t: Terminal)
    requires i < |db.operations| && db.operations[i].status.Pending? && HasRows(db, db.operations[i])
    requires t.Valid() && FinalizePending(db, i, t).Ok?
    ensures var db' := FinalizePending(db, i, t).value.store; var o := Terminated(db.operations[i], t);
            && HasRows(db', o) && TerminalSnapshot(o, db'.rows[o.DailyKey()], db'.rows[o.LifetimeKey()]) == FinalizePending(db, i, t).value.value
  {
  }
}
