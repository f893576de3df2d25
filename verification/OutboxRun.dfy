/** Every interleaving of the staging services and any number of outbox workers.

    A job is one claimed row in one worker's hands. Each database transaction and each remote call is one
    step, a worker may stop between any two, and a row carries no token of its claim: a job whose claim has
    been taken over goes on all the same. */
module OutboxRun {
  import opened Common
  import opened OutboxSpec

  datatype Job =
    | Claimed(item: nat, now: int)
    | Loaded(item: nat, now: int, action: Action, keyId: Option<string>, desired: Option<Spec>)
    | Returned(item: nat, now: int, ran: Ran)
    | Over

  datatype Claiming = Claiming(item: nat, now: int, attempts: nat)

  /** A completed row and what the remote answered. */
  datatype Completion = Completion(client: string, item: nat, effect: Effect)

  /** What a remote call does to the keys there, whatever it answers. */
  datatype KeyEffect = Nothing | Makes(key: string) | Darkens(key: string)

  /** The tables, the jobs, what has happened (claims and completions in order), and the remote's keys: for
      which client each was made, and which are active. */
  datatype State = State(
    tables: Tables, jobs: seq<Job>, claims: seq<Claiming>, done: seq<Completion>, made: map<string, string>, live: set<string>)

  const INITIAL := State(EMPTY, [], [], [], map[], {})

  datatype Step =
    | NewCaller(id: string, user: NonEmptyString, key: string, spec: Spec, now: int)
    | SyncCaller(id: string, action: Action, key: string, spec: Spec, now: int)
    | StopCaller(id: string, key: string, now: int)
    | ClaimRows(locked: set<nat>, picked: seq<nat>, now: int)
    | Load(job: nat)
    | Call(job: nat, remote: Remote, keys: KeyEffect)
    | Finish(job: nat, sealed: Option<Sealed>)

  function LoadJob(t: Tables, job: Job): Job
    requires job.Claimed?
  {
    if job.item >= |t.items| || !t.items[job.item].status.Processing? || t.items[job.item].client !in t.bindings
    then Returned(job.item, job.now, Raised(false))
    else
      var item := t.items[job.item];
      Loaded(job.item, job.now, item.action, t.bindings[item.client].keyId, item.desired)
  }

  function FinishJob(c: Config, s: State, j: nat, sealed: Option<Sealed>): State
    requires j < |s.jobs| && s.jobs[j].Returned?
  {
    var job := s.jobs[j];
    if job.ran.Raised? then s.(tables := Fail(c, s.tables, job.item, job.ran.retryable, job.now), jobs := s.jobs[j := Over])
    else
      var txn := Complete(s.tables, job.item, job.ran.effect, sealed);
      if txn.Aborts? then
        s.(jobs := s.jobs[j := if txn.fault.ValueFault? then Returned(job.item, job.now, Raised(false)) else Over])
      else
        s.(tables := txn.tables, jobs := s.jobs[j := Over],
           done := s.done + if job.item < |s.tables.items| && s.tables.items[job.item].status.Processing?
                            then [Completion(s.tables.items[job.item].client, job.item, job.ran.effect)] else [])
  }

  function NewClaims(items: seq<Item>, picked: seq<nat>, now: int): (r: seq<Claiming>)
    requires forall k | 0 <= k < |picked| :: picked[k] < |items|
    ensures |r| == |picked| && forall k | 0 <= k < |r| :: r[k] == Claiming(picked[k], now, items[picked[k]].attempts + 1)
  {
    seq(|picked|, k requires 0 <= k < |picked| => Claiming(picked[k], now, items[picked[k]].attempts + 1))
  }

  function ClaimAll(s: State, picked: seq<nat>, now: int): State
    requires forall k | 0 <= k < |picked| :: picked[k] < |s.tables.items|
  {
    s.(tables := Claim(s.tables, picked, now),
       jobs := s.jobs + seq(|picked|, k requires 0 <= k < |picked| => Claimed(picked[k], now)),
       claims := s.claims + NewClaims(s.tables.items, picked, now))
  }

  function ClientOf(s: State, i: nat): string { if i < |s.tables.items| then s.tables.items[i].client else "" }

  ghost function Take(c: Config, s: State, step: Step): State {
    match step
    case NewCaller(id, user, key, spec, now) => s.(tables := After(s.tables, CreateCaller(s.tables, id, user, key, spec, now)))
    case SyncCaller(id, action, key, spec, now) =>
      if id !in s.tables.bindings then s
      else s.(tables := After(s.tables, StageSync(s.tables, id, action, key, spec, now)))
    case StopCaller(id, key, now) => s.(tables := After(s.tables, DisableCaller(s.tables, id, key, now)))
    case ClaimRows(locked, picked, now) =>
      if Chosen(c, s.tables.items, locked, now, picked) then ClaimAll(s, picked, now) else s
    case Load(j) =>
      if j < |s.jobs| && s.jobs[j].Claimed? then s.(jobs := s.jobs[j := LoadJob(s.tables, s.jobs[j])]) else s
    case Call(j, remote, keys) =>
      if j < |s.jobs| && s.jobs[j].Loaded? then
        var job := s.jobs[j];
        s.(jobs := s.jobs[j := Returned(job.item, job.now, Execute(job.action, job.keyId, job.desired, remote))],
           made := if keys.Makes? then s.made[keys.key := ClientOf(s, job.item)] else s.made,
           live := if keys.Makes? then s.live + {keys.key} else if keys.Darkens? then s.live - {keys.key} else s.live)
      else s
    case Finish(j, sealed) =>
      if j < |s.jobs| && s.jobs[j].Returned? then FinishJob(c, s, j, sealed) else s
  }

  ghost function Run(c: Config, s: State, steps: seq<Step>): State {
    if steps == [] then s else Take(c, Run(c, s, steps[..|steps| - 1]), steps[|steps| - 1])
  }

  // ---------------------------------------------------------------- the invariant

  /** Every row belongs to a binding, and one binding's rows carry rising versions up to its own. */
  predicate RowsHold(c: Config, t: Tables) {
    && t.bindings.Keys == t.clients.Keys
    && (forall i | 0 <= i < |t.items| :: RowHolds(c, t, t.items[i]))
    && (forall i, j | 0 <= i < j < |t.items| && t.items[i].client == t.items[j].client :: t.items[i].version < t.items[j].version)
  }

  predicate RowHolds(c: Config, t: Tables, item: Item) {
    && item.client in t.bindings && item.version <= t.bindings[item.client].version
    && (item.desired.Some? <==> !item.action.Disable?)
    && item.attempts <= c.maxAttempts
    && (item.status.Processing? ==> item.attempts > 0 && item.lockedAt.Some?)
  }

  /** A caller's user is known from the start, and its key's three fields are stored together. */
  predicate FieldsHold(t: Tables) {
    forall id | id in t.bindings :: NonEmpty(t.bindings[id].serviceUser)
      && (t.bindings[id].keyId.Some? ==> RemoteFieldsComplete(t.bindings[id]))
  }

  /** The row staged last for a binding. */
  predicate Newest(t: Tables, id: string, n: nat) {
    id in t.bindings && n < |t.items| && t.items[n].client == id && t.items[n].version == t.bindings[id].version
  }

  ghost predicate NewestExists(t: Tables) { forall id | id in t.bindings :: exists n :: Newest(t, id, n) }

  /** What the remote call that completed a row must have answered. */
  predicate EffectRight(item: Item, effect: Effect) {
    if item.action.Disable? then effect.NoKey? || (effect.Stated? && !effect.state.isActive)
    else
      && item.desired.Some? && !effect.NoKey? && (effect.Material? <==> item.action.Create?)
      && Verified(effect.state, item.desired.value)
  }

  predicate JobHolds(items: seq<Item>, job: Job) {
    match job
    case Over => true
    case Claimed(i, _) => i < |items|
    case Loaded(i, _, action, _, desired) => i < |items| && action == items[i].action && desired == items[i].desired
    case Returned(i, _, ran) => i < |items| && (ran.Did? ==> EffectRight(items[i], ran.effect))
  }

  predicate JobsHold(s: State) { forall j | 0 <= j < |s.jobs| :: JobHolds(s.tables.items, s.jobs[j]) }

  predicate CompletionHolds(items: seq<Item>, d: Completion) {
    && d.item < |items| && items[d.item].status.Completed? && items[d.item].client == d.client
    && EffectRight(items[d.item], d.effect)
  }

  /** The completions are of completed rows, each once. */
  predicate DoneHolds(s: State) {
    && (forall k | 0 <= k < |s.done| :: CompletionHolds(s.tables.items, s.done[k]))
    && (forall k, l | 0 <= k < l < |s.done| :: s.done[k].item != s.done[l].item)
  }

  /** The row a client's last completion completed. */
  function LastDone(done: seq<Completion>, id: string): (r: Option<Completion>)
    ensures r.Some? ==> r.value in done && r.value.client == id
  {
    if done == [] then None
    else if done[|done| - 1].client == id then Some(done[|done| - 1])
    else LastDone(done[..|done| - 1], id)
  }

  /** The client's remote fields are complete and its last completion was of its newest row. */
  predicate Settled(s: State, id: string) {
    && id in s.tables.bindings && RemoteFieldsComplete(s.tables.bindings[id])
    && LastDone(s.done, id).Some? && Newest(s.tables, id, LastDone(s.done, id).value.item)
  }

  predicate SyncRight(s: State, id: string)
    requires id in s.tables.bindings
  {
    var b := s.tables.bindings[id];
    && (b.sync.Active? <==> Settled(s, id) && !s.tables.items[LastDone(s.done, id).value.item].action.Disable?)
    && (b.sync.Disabled? <==> Settled(s, id) && s.tables.items[LastDone(s.done, id).value.item].action.Disable?)
  }

  predicate SyncHolds(s: State) { forall id | id in s.tables.bindings :: SyncRight(s, id) }

  ghost predicate Inv(c: Config, s: State) {
    RowsHold(c, s.tables) && FieldsHold(s.tables) && NewestExists(s.tables) && JobsHold(s) && DoneHolds(s) && SyncHolds(s)
  }
}
