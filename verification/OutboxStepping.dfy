/** Single steps of the outbox, spelled out, for building runs. */
module OutboxStepping {
  import opened Common
  import opened OutboxSpec
  import opened OutboxRun

  predicate WorkerStep(step: Step) { step.ClaimRows? || step.Load? || step.Call? || step.Finish? }

  predicate WorkerSteps(ws: seq<Step>) { forall k | 0 <= k < |ws| :: WorkerStep(ws[k]) }

  lemma RunFour(c: Config, s: State, a: Step, b: Step, d: Step, e: Step)
    ensures Run(c, s, [a, b, d, e]) == Take(c, Take(c, Take(c, Take(c, s, a), b), d), e)
  {
    hide Take;
    var all := [a, b, d, e];
    assert all[..3] == [a, b, d] && all[..3][..2] == [a, b] && all[..2][..1] == [a] && all[..1][..0] == [];
    assert Run(c, s, [a]) == Take(c, s, a) by { assert [a][..0] == []; }
    assert Run(c, s, [a, b]) == Take(c, Run(c, s, [a]), b) by { assert [a, b][..1] == [a]; }
    assert Run(c, s, [a, b, d]) == Take(c, Run(c, s, [a, b]), d) by { assert [a, b, d][..2] == [a, b]; }
  }

  lemma RunSnoc(c: Config, s: State, steps: seq<Step>, k: nat)
    requires k < |steps|
    ensures Run(c, s, steps[..k + 1]) == Take(c, Run(c, s, steps[..k]), steps[k])
  {
    hide Take;
    assert steps[..k + 1][..k] == steps[..k];
  }

  // ---------------------------------------------------------------- one row by itself

  function AllBut(n: nat, i: nat): (r: set<nat>)
    ensures forall j: nat :: j in r <==> j < n && j != i
  {
    if n == 0 then {} else AllBut(n - 1, i) + if n - 1 == i then {} else {n - 1}
  }

  lemma ClaimsJust(c: Config, items: seq<Item>, i: nat, now: int)
    requires ValidConfig(c) && i < |items| && Eligible(c, items[i], now)
    ensures Chosen(c, items, AllBut(|items|, i), now, [i])
  {
    assert Open(c, items, AllBut(|items|, i), now, i);
  }

  /** One row claimed and nothing else. */
  function ClaimedAt(s: State, i: nat, now: int): State
    requires i < |s.tables.items|
  {
    var row := s.tables.items[i];
    s.(tables := s.tables.(items := s.tables.items[i := ClaimedItem(row, now)]),
       jobs := s.jobs + [Claimed(i, now)], claims := s.claims + [Claiming(i, now, row.attempts + 1)])
  }

  lemma ClaimsAlone(c: Config, s: State, i: nat, now: int)
    requires ValidConfig(c) && i < |s.tables.items| && Eligible(c, s.tables.items[i], now)
    ensures Take(c, s, ClaimRows(AllBut(|s.tables.items|, i), [i], now)) == ClaimedAt(s, i, now)
  {
    ClaimsJust(c, s.tables.items, i, now);
    hide Chosen, Eligible;
    var s1 := ClaimAll(s, [i], now);
    assert s1.tables.items == s.tables.items[i := ClaimedItem(s.tables.items[i], now)];
    assert NewClaims(s.tables.items, [i], now) == [Claiming(i, now, s.tables.items[i].attempts + 1)];
  }

  lemma LoadsOne(c: Config, s: State, j: nat, n: nat, now: int)
    requires j < |s.jobs| && s.jobs[j] == Claimed(n, now) && n < |s.tables.items| && s.tables.items[n].status.Processing?
    requires s.tables.items[n].client in s.tables.bindings
    ensures var row, s1 := s.tables.items[n], Take(c, s, Load(j));
            s1 == s.(jobs := s.jobs[j := Loaded(n, now, row.action, s.tables.bindings[row.client].keyId, row.desired)])
  {
  }

  lemma CallsOne(c: Config, s: State, j: nat, remote: Remote, keys: KeyEffect, effect: Effect)
    requires j < |s.jobs| && s.jobs[j].Loaded? && Execute(s.jobs[j].action, s.jobs[j].keyId, s.jobs[j].desired, remote) == Did(effect)
    ensures var s1 := Take(c, s, Call(j, remote, keys));
            s1.tables == s.tables && s1.jobs == s.jobs[j := Returned(s.jobs[j].item, s.jobs[j].now, Did(effect))]
  {
    hide Execute;
  }

  lemma FinishesOne(c: Config, s: State, j: nat, n: nat, effect: Effect)
    requires j < |s.jobs| && s.jobs[j].Returned? && s.jobs[j].item == n && s.jobs[j].ran == Did(effect)
    requires Complete(s.tables, n, effect, SEALED).Commits?
    ensures Take(c, s, Finish(j, SEALED)).tables == Complete(s.tables, n, effect, SEALED).tables
  {
    hide Complete;
  }

  // ---------------------------------------------------------------- a willing remote

  /** A text of this many letters. */
  function Letters(n: nat): (s: string)
    ensures |s| == n && forall i | 0 <= i < n :: s[i] == 'k'
  {
    seq(n, i => 'k')
  }

  lemma BeyondAll(used: set<string>) returns (n: nat)
    ensures forall m: nat :: m >= n ==> Letters(m) !in used
    decreases used
  {
    if used == {} {
      n := 0;
    } else {
      var one :| one in used;
      n := BeyondAll(used - {one});
      if n <= |one| { n := |one| + 1; }
      forall m: nat | m >= n ensures Letters(m) !in used { assert |Letters(m)| != |one|; }
    }
  }

  /** A key that no binding holds. */
  lemma UnusedKey(t: Tables, id: string, made: set<string>) returns (key: NonEmptyString)
    ensures !KeyIdUsed(t, id, key) && !MultiLine(key) && key !in made
  {
    var held := set other | other in t.bindings && t.bindings[other].keyId.Some? :: t.bindings[other].keyId.value;
    var n := BeyondAll(held + made);
    key := Letters(n + 1);
    assert key !in held + made;
    forall other | other in t.bindings && other != id ensures t.bindings[other].keyId != Some(key) {
      assert t.bindings[other].keyId.Some? ==> t.bindings[other].keyId.value in held;
    }
  }

  function Granted(key: NonEmptyString, desired: Spec): Remote {
    var s := KeyState(key, desired.name, desired.provider, desired.model, true);
    Remote(Unsendable, Unsendable, Answered(None), Answered(s), Answered(s))
  }

  const SEALED := Some(Sealed("c", "v"))

  /** The answer of a willing remote. */
  lemma WillingAnswers(row: Item, keyId: Option<string>, key: NonEmptyString)
    requires row.desired.Some? && (if row.action.Create? then keyId.None? else row.action.Update? && NonEmpty(keyId))
    ensures var s := Granted(key, row.desired.value).created.value;
            Execute(row.action, keyId, row.desired, Granted(key, row.desired.value)) == Did(if row.action.Create? then Material(s) else Stated(s))
  {
  }
}
