/** The control outbox as values: its tables, and one function per database transaction.

    A client and its binding are one to one, so both are found under the client's id. */
module OutboxSpec {
  import opened Common

  datatype ClientStatus = ClientActive | ClientDisabled | ClientArchived

  datatype Sync = Pending | Active | Disabled | Error

  datatype Action = Create | Update | Disable

  datatype Status = Waiting | Processing | Completed | Failed

  /** Texts that validation requires to be non-empty. */
  type NonEmptyString = s: string | s != "" witness "x"

  /** The desired configuration, as far as the worker compares it. */
  datatype Spec = Spec(name: string, provider: string, model: string)

  datatype Binding = Binding(
    serviceUser: Option<string>, keyId: Option<string>, ciphertext: Option<string>, keyVersion: Option<string>,
    sync: Sync, version: nat)

  datatype Item = Item(
    client: string, action: Action, idempotencyKey: string, version: nat, desired: Option<Spec>,
    status: Status, attempts: nat, availableAt: int, lockedAt: Option<int>)

  datatype Tables = Tables(clients: map<string, ClientStatus>, bindings: map<string, Binding>, items: seq<Item>)

  const EMPTY := Tables(map[], map[], [])

  datatype Config = Config(maxAttempts: nat, baseRetry: nat, maxRetry: nat, claimTimeout: nat, batch: nat)

  predicate ValidConfig(c: Config) {
    1 <= c.maxAttempts <= 100 && 1 <= c.batch <= 100 && 1 <= c.baseRetry <= c.maxRetry && 1 <= c.claimTimeout
  }

  datatype Fault = ValueFault | IntegrityFault | NotFound | StateFault

  /** The committed tables, or the exception that rolls back. */
  datatype Txn = Commits(tables: Tables) | Aborts(fault: Fault)

  function After(before: Tables, txn: Txn): Tables { if txn.Commits? then txn.tables else before }

  predicate NonEmpty(field: Option<string>) { field.Some? && field.value != "" }

  predicate RemoteFieldsComplete(b: Binding) {
    NonEmpty(b.serviceUser) && NonEmpty(b.keyId) && NonEmpty(b.ciphertext) && NonEmpty(b.keyVersion)
  }

  // ---------------------------------------------------------------- staging

  predicate KeyUsed(items: seq<Item>, key: string) { exists i | 0 <= i < |items| :: items[i].idempotencyKey == key }

  /** The version bump and the new item. */
  function Queue(t: Tables, id: string, action: Action, key: string, desired: Option<Spec>, now: int): Txn
    requires id in t.bindings
  {
    var b := t.bindings[id];
    if KeyUsed(t.items, key) then Aborts(IntegrityFault)
    else Commits(t.(bindings := t.bindings[id := b.(sync := Pending, version := b.version + 1)],
                    items := t.items + [Item(id, action, key, b.version + 1, desired, Waiting, 0, now, None)]))
  }

  function StageSync(t: Tables, id: string, action: Action, key: string, spec: Spec, now: int): Txn
    requires id in t.bindings
  {
    if action.Disable? then Aborts(ValueFault)
    else if action.Create? && t.bindings[id].keyId.Some? then Aborts(ValueFault)
    else if action.Update? && t.bindings[id].keyId.None? then Aborts(ValueFault)
    else Queue(t, id, action, key, Some(spec), now)
  }

  predicate ServiceUserUsed(t: Tables, user: string) { exists id | id in t.bindings :: t.bindings[id].serviceUser == Some(user) }

  function CreateCaller(t: Tables, id: string, user: NonEmptyString, key: string, spec: Spec, now: int): Txn {
    if id in t.clients || id in t.bindings || ServiceUserUsed(t, user) then Aborts(IntegrityFault)
    else
      var b := Binding(Some(user), None, None, None, Pending, 1);
      StageSync(Tables(t.clients[id := ClientActive], t.bindings[id := b], t.items), id, Create, key, spec, now)
  }

  function DisableCaller(t: Tables, id: string, key: string, now: int): Txn {
    if id !in t.clients then Aborts(NotFound)
    else if t.clients[id].ClientDisabled? then Commits(t)
    else if !t.clients[id].ClientActive? || id !in t.bindings then Aborts(StateFault)
    else Queue(t.(clients := t.clients[id := ClientDisabled]), id, Disable, key, None, now)
  }

  // ---------------------------------------------------------------- claiming

  predicate Eligible(c: Config, item: Item, now: int) {
    && item.attempts < c.maxAttempts
    && (|| ((item.status.Waiting? || item.status.Failed?) && item.availableAt <= now)
        || (item.status.Processing? && item.lockedAt.Some? && item.lockedAt.value <= now - c.claimTimeout))
  }

  function ClaimedItem(item: Item, now: int): Item {
    item.(status := Processing, attempts := item.attempts + 1, lockedAt := Some(now))
  }

  function Claim(t: Tables, picked: seq<nat>, now: int): Tables {
    t.(items := seq(|t.items|, i requires 0 <= i < |t.items| => if i in picked then ClaimedItem(t.items[i], now) else t.items[i]))
  }

  /** A row the query may return: eligible, and not skipped because another transaction holds it. */
  predicate Open(c: Config, items: seq<Item>, locked: set<nat>, now: int, i: nat) {
    i < |items| && i !in locked && Eligible(c, items[i], now)
  }

  /** What the claiming query returns: the batch of open rows available first, earliest first. */
  ghost predicate Chosen(c: Config, items: seq<Item>, locked: set<nat>, now: int, picked: seq<nat>) {
    && |picked| <= c.batch
    && (forall k | 0 <= k < |picked| :: Open(c, items, locked, now, picked[k]))
    && (forall k, l | 0 <= k < l < |picked| ::
          picked[k] != picked[l] && items[picked[k]].availableAt <= items[picked[l]].availableAt)
    && (forall i: nat | Open(c, items, locked, now, i) && i !in picked ::
          |picked| == c.batch && forall k | 0 <= k < |picked| :: items[picked[k]].availableAt <= items[i].availableAt)
  }

  // ---------------------------------------------------------------- the remote call

  datatype KeyState = KeyState(id: NonEmptyString, name: string, provider: string, model: string, isActive: bool)

  /** One remote call: an answer, an upstream error, or a refusal to send. */
  datatype Answer<T> = Answered(value: T) | Upstream(notFound: bool, retryable: bool) | Unsendable

  /** Whatever the remote would answer to each call. */
  datatype Remote = Remote(
    disabled: Answer<KeyState>, material: Answer<KeyState>, found: Answer<Option<KeyState>>,
    created: Answer<KeyState>, updated: Answer<KeyState>)

  datatype Effect = NoKey | Stated(state: KeyState) | Material(state: KeyState)

  datatype Ran = Did(effect: Effect) | Raised(retryable: bool)

  predicate Verified(state: KeyState, desired: Spec) {
    state.name == desired.name && state.provider == desired.provider && state.model == desired.model && state.isActive
  }

  function Checked(a: Answer<KeyState>, desired: Spec, material: bool): Ran {
    match a
    case Upstream(_, retryable) => Raised(retryable)
    case Unsendable => Raised(false)
    case Answered(s) =>
      if !Verified(s, desired) then Raised(true) else Did(if material then Material(s) else Stated(s))
  }

  function FindOrCreate(found: Answer<Option<KeyState>>, created: Answer<KeyState>): Answer<KeyState> {
    match found
    case Upstream(notFound, retryable) => Upstream(notFound, retryable)
    case Unsendable => Unsendable
    case Answered(existing) => if existing.Some? then Answered(existing.value) else created
  }

  function Execute(action: Action, keyId: Option<string>, desired: Option<Spec>, remote: Remote): Ran {
    if action.Disable? then
      if keyId.None? then Did(NoKey)
      else
        match remote.disabled
        case Upstream(notFound, retryable) => if notFound then Did(NoKey) else Raised(retryable)
        case Unsendable => Raised(false)
        case Answered(s) => if s.isActive then Raised(true) else Did(Stated(s))
    else if desired.None? then Raised(false)
    else if action.Create? then
      Checked(if NonEmpty(keyId) then remote.material else FindOrCreate(remote.found, remote.created), desired.value, true)
    else if NonEmpty(keyId) then Checked(remote.updated, desired.value, false)
    else Raised(false)
  }

  // ---------------------------------------------------------------- completing and failing

  datatype Sealed = Sealed(ciphertext: NonEmptyString, keyVersion: NonEmptyString)

  predicate MultiLine(s: string) { '\n' in s || '\r' in s }

  predicate KeyIdUsed(t: Tables, id: string, keyId: string) {
    exists other | other in t.bindings && other != id :: t.bindings[other].keyId == Some(keyId)
  }

  /** The binding with a created or found key's fields; sealing may fail, and refuses identifiers of several lines. */
  function WithKey(b: Binding, s: KeyState, sealed: Option<Sealed>): Option<Binding> {
    if sealed.None? || MultiLine(s.id) then None
    else
      var b1 := b.(keyId := Some(s.id), ciphertext := Some(sealed.value.ciphertext), keyVersion := Some(sealed.value.keyVersion));
      Some(b1.(sync := if !RemoteFieldsComplete(b1) then Pending else if s.isActive then Active else Disabled))
  }

  function Complete(t: Tables, i: nat, effect: Effect, sealed: Option<Sealed>): Txn {
    if i >= |t.items| || !t.items[i].status.Processing? then Commits(t)
    else
      var item := t.items[i];
      if item.client !in t.bindings then Aborts(ValueFault)
      else
        var b := t.bindings[item.client];
        var synced :=
          if effect.Material? then WithKey(b, effect.state, sealed)
          else Some(b.(sync := if !RemoteFieldsComplete(b) then Pending else if item.action.Disable? then Disabled else Active));
        if synced.None? then Aborts(ValueFault)
        else if effect.Material? && KeyIdUsed(t, item.client, effect.state.id) then Aborts(IntegrityFault)
        else
          var b1 := if b.version != item.version then synced.value.(sync := Pending) else synced.value;
          Commits(t.(bindings := t.bindings[item.client := b1],
                     items := t.items[i := item.(status := Completed, lockedAt := None)]))
  }

  function Pow2(n: int): nat
    decreases n
  {
    if n <= 0 then 1 else 2 * Pow2(n - 1)
  }

  function Delay(c: Config, attempts: nat): nat { Min(c.baseRetry * Pow2(attempts - 1), c.maxRetry) }

  function FailedItem(c: Config, item: Item, retryable: bool, now: int): Item {
    if retryable then item.(status := Failed, lockedAt := None, availableAt := now + Delay(c, item.attempts))
    else item.(status := Failed, lockedAt := None, attempts := c.maxAttempts, availableAt := now)
  }

  function Fail(c: Config, t: Tables, i: nat, retryable: bool, now: int): Tables {
    if i >= |t.items| || !t.items[i].status.Processing? then t
    else
      var item := t.items[i];
      Tables(t.clients,
             if item.client in t.bindings && t.bindings[item.client].version == item.version
             then t.bindings[item.client := t.bindings[item.client].(sync := Error)] else t.bindings,
             t.items[i := FailedItem(c, item, retryable, now)])
  }
}
