/** The outbox over mutable tables: each method is one transaction of the worker or of the staging service. */
module OutboxWorker {
  import opened Common
  import opened OutboxSpec

  class ControlOutbox {
    const config: Config
    var clients: map<string, ClientStatus>
    var bindings: map<string, Binding>
    var items: seq<Item>

    ghost function Rows(): Tables
      reads this
    {
      Tables(clients, bindings, items)
    }

    constructor (config: Config)
      requires ValidConfig(config)
      ensures this.config == config && Rows() == EMPTY
    {
      this.config := config;
      clients, bindings, items := map[], map[], [];
    }

    method QueueBindingSync(id: string, action: Action, key: string, desired: Option<Spec>, now: int) returns (fault: Option<Fault>)
      requires id in bindings
      modifies this`bindings, this`items
      ensures var txn := Queue(old(Rows()), id, action, key, desired, now);
              Rows() == After(old(Rows()), txn) && fault == if txn.Commits? then None else Some(txn.fault)
    {
      if exists i | 0 <= i < |items| :: items[i].idempotencyKey == key { return Some(IntegrityFault); }
      var b := bindings[id];
      b := b.(sync := Pending);
      b := b.(version := b.version + 1);
      bindings := bindings[id := b];
      items := items + [Item(id, action, key, b.version, desired, Waiting, 0, now, None)];
      return None;
    }

    method StageBindingSync(id: string, action: Action, key: string, spec: Spec, now: int) returns (fault: Option<Fault>)
      requires id in bindings
      modifies this`bindings, this`items
      ensures var txn := StageSync(old(Rows()), id, action, key, spec, now);
              Rows() == After(old(Rows()), txn) && fault == if txn.Commits? then None else Some(txn.fault)
    {
      if action.Disable? { return Some(ValueFault); }
      if action.Create? && bindings[id].keyId.Some? { return Some(ValueFault); }
      if action.Update? && bindings[id].keyId.None? { return Some(ValueFault); }
      fault := QueueBindingSync(id, action, key, Some(spec), now);
    }

    method DisableClient(id: string, key: string, now: int) returns (fault: Option<Fault>)
      modifies this
      ensures var txn := DisableCaller(old(Rows()), id, key, now);
              Rows() == After(old(Rows()), txn) && fault == if txn.Commits? then None else Some(txn.fault)
    {
      if id !in clients { return Some(NotFound); }
      if clients[id].ClientDisabled? { return None; }
      if !clients[id].ClientActive? || id !in bindings { return Some(StateFault); }
      var saved := clients;
      clients := clients[id := ClientDisabled];
      fault := QueueBindingSync(id, Disable, key, None, now);
      if fault.Some? { clients := saved; }
    }

    /** The open rows in order of availability, up to the batch size. */
    method SelectOpen(locked: set<nat>, now: int) returns (picked: seq<nat>)
      ensures Chosen(config, items, locked, now, picked)
    {
      picked := [];
      while |picked| < config.batch
        invariant |picked| <= config.batch
        invariant forall k | 0 <= k < |picked| :: Open(config, items, locked, now, picked[k])
        invariant forall k, l | 0 <= k < l < |picked| ::
          picked[k] != picked[l] && items[picked[k]].availableAt <= items[picked[l]].availableAt
        invariant forall i: nat | Open(config, items, locked, now, i) && i !in picked ::
          forall k | 0 <= k < |picked| :: items[picked[k]].availableAt <= items[i].availableAt
      {
        var best: nat := |items|;
        for i := 0 to |items|
          invariant best == |items| || (best < |items| && Open(config, items, locked, now, best) && best !in picked)
          invariant forall j: nat | j < i && Open(config, items, locked, now, j) && j !in picked ::
            best < |items| && items[best].availableAt <= items[j].availableAt
        {
          if i !in picked && i !in locked && Eligible(config, items[i], now)
             && (best == |items| || items[i].availableAt < items[best].availableAt) {
            best := i;
          }
        }
        if best == |items| { return; }
        picked := picked + [best];
      }
    }

    /** Claims a batch: every picked row, and no other, is locked by this worker. */
    method ClaimBatch(locked: set<nat>, now: int) returns (picked: seq<nat>)
      modifies this`items
      ensures Chosen(config, old(items), locked, now, picked)
      ensures Rows() == Claim(old(Rows()), picked, now)
    {
      picked := SelectOpen(locked, now);
      for n := 0 to |picked|
        invariant |items| == |old(items)|
        invariant forall i | 0 <= i < |items| ::
          items[i] == if i in picked[..n] then ClaimedItem(old(items)[i], now) else old(items)[i]
      {
        var i := picked[n];
        assert i < |items| && Open(config, old(items), locked, now, i);
        assert i !in picked[..n];
        items := items[i := items[i].(status := Processing, attempts := items[i].attempts + 1, lockedAt := Some(now))];
        assert picked[..n + 1] == picked[..n] + [i];
      }
      assert picked[..|picked|] == picked;
    }

    /** Stores a created or found key; false when it cannot be sealed. */
    method PersistCreatedBinding(b: Binding, s: KeyState, sealed: Option<Sealed>) returns (r: Option<Binding>)
      ensures r == WithKey(b, s, sealed)
    {
      if sealed.None? || MultiLine(s.id) { return None; }
      var b1 := b;
      b1 := b1.(keyId := Some(s.id));
      b1 := b1.(ciphertext := Some(sealed.value.ciphertext));
      b1 := b1.(keyVersion := Some(sealed.value.keyVersion));
      if RemoteFieldsComplete(b1) {
        b1 := b1.(sync := if s.isActive then Active else Disabled);
      } else {
        b1 := b1.(sync := Pending);
      }
      return Some(b1);
    }

    method CompleteItem(i: nat, effect: Effect, sealed: Option<Sealed>) returns (fault: Option<Fault>)
      modifies this`bindings, this`items
      ensures var txn := Complete(old(Rows()), i, effect, sealed);
              Rows() == After(old(Rows()), txn) && fault == if txn.Commits? then None else Some(txn.fault)
    {
      if i >= |items| || !items[i].status.Processing? { return None; }
      var item := items[i];
      if item.client !in bindings { return Some(ValueFault); }
      var b := bindings[item.client];
      if effect.Material? {
        var persisted := PersistCreatedBinding(b, effect.state, sealed);
        if persisted.None? { return Some(ValueFault); }
        b := persisted.value;
        if exists other | other in bindings && other != item.client :: bindings[other].keyId == Some(effect.state.id) {
          return Some(IntegrityFault);
        }
      } else if item.action.Disable? {
        b := b.(sync := if RemoteFieldsComplete(b) then Disabled else Pending);
      } else {
        b := b.(sync := if RemoteFieldsComplete(b) then Active else Pending);
      }
      if b.version != item.version { b := b.(sync := Pending); }
      bindings := bindings[item.client := b];
      items := items[i := item.(status := Completed, lockedAt := None)];
      return None;
    }

    method FailItem(i: nat, retryable: bool, now: int)
      modifies this`bindings, this`items
      ensures Rows() == Fail(config, old(Rows()), i, retryable, now)
    {
      if i >= |items| || !items[i].status.Processing? { return; }
      var item := items[i];
      item := item.(status := Failed, lockedAt := None);
      if retryable {
        var delay := Min(config.baseRetry * Pow2(item.attempts - 1), config.maxRetry);
        item := item.(availableAt := now + delay);
      } else {
        item := item.(attempts := config.maxAttempts, availableAt := now);
      }
      items := items[i := item];
      if item.client in bindings && bindings[item.client].version == item.version {
        bindings := bindings[item.client := bindings[item.client].(sync := Error)];
      }
    }
  }
}
