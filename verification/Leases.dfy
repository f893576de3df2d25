/** The gateway's control flow around its leases: queue ticket, model-pool slot, concurrency lease.
    Every awaited call takes the next reply of a script, so a method is proved for every combination of
    returns, refusals, exceptions and cancellations; an await past the script's end never returns. */
module Leases {
  import opened Common

  datatype Work =
    | ReserveQuota | ReserveCredit | RecordCredit | CallProvider | CancelCredit | RecordUsage | SettleCredit | Terminalize

  datatype Kind =
    | ClaimNonce | LoadPolicy | AdmitQps
    | AdmitPool | ReadClock | QueueSleep | CancelTicket
    | AcquireLease | ReleaseLease | ReleaseSlot
    | CheckPayload | WaitFor(work: Work) | RenewLease | RenewSlot | DrainTask
    | WaitChunk | BeatDue | TouchOperation | YieldFrame | FeedChunk | SettleStream | FinishFailure | DrainPending | CloseUpstream

  datatype Reply =
    | Fine | Refused | Queued | TimedOut
    | Upstream | Exhausted | ControlPlane | Cancelled | Crashed

  datatype Call = Call(kind: Kind, reply: Reply)

  predicate IsException(r: Reply) {
    r.Upstream? || r.Exhausted? || r.ControlPlane? || r.Cancelled? || r.Crashed?
  }

  /** How a coroutine ends: it returns, raises, or is still waiting when the script ends. */
  datatype Exit = Returned | Raised(cause: Reply) | Hung

  /** What an await gives its caller; an exception or an endless wait propagates. */
  datatype Awaited = Got(reply: Reply) | Left(exit: Exit) {
    predicate IsFailure() { Left? }

    function PropagateFailure(): Exit
      requires Left?
    { exit }

    function Extract(): Reply
      requires Got?
    { reply }
  }

  // ---------------------------------------------------------------- what a trace leaves held

  /** Grants minus attempted releases, whether a queue ticket is held, and whether releasing has begun. */
  datatype Held = Held(slots: int, leases: int, ticket: bool, releasing: bool)

  const NOTHING := Held(0, 0, false, false)
  const BOTH := Held(1, 1, false, false)

  /** A call that raises grants nothing; an attempted release counts whatever it answers. A ticket is held from a
      queued admission until the next decision or an attempted cancel. */
  function After(h: Held, c: Call): Held {
    match c.kind
    case AdmitPool =>
      if IsException(c.reply) then h else h.(slots := h.slots + (if c.reply.Fine? then 1 else 0), ticket := c.reply.Queued?)
    case AcquireLease => if c.reply.Fine? then h.(leases := h.leases + 1) else h
    case CancelTicket => h.(ticket := false)
    case ReleaseLease => h.(leases := h.leases - 1, releasing := true)
    case ReleaseSlot => h.(slots := h.slots - 1)
    case DrainPending => h.(releasing := true)
    case _ => h
  }

  function HeldAfter(trace: seq<Call>): Held {
    if trace == [] then NOTHING else After(HeldAfter(trace[..|trace| - 1]), trace[|trace| - 1])
  }

  function Count(kind: Kind, trace: seq<Call>, granting: bool): nat {
    if trace == [] then 0
    else
      var c := trace[|trace| - 1];
      Count(kind, trace[..|trace| - 1], granting) + if c.kind == kind && (!granting || c.reply.Fine?) then 1 else 0
  }

  /** The fold is the plain count: granted admissions minus attempted releases, for slots and for leases. */
  lemma {:induction false} HeldIsGrantsMinusReleases(trace: seq<Call>)
    ensures HeldAfter(trace).slots == Count(AdmitPool, trace, true) - Count(ReleaseSlot, trace, false)
    ensures HeldAfter(trace).leases == Count(AcquireLease, trace, true) - Count(ReleaseLease, trace, false)
    decreases |trace|
  {
    if trace != [] { HeldIsGrantsMinusReleases(trace[..|trace| - 1]); }
  }

  predicate LastIs(trace: seq<Call>, kind: Kind) {
    trace != [] && trace[|trace| - 1].kind == kind
  }

  /** The concurrency release ended in an exception other than ControlPlaneUnavailable. */
  predicate ReleaseInterrupted(trace: seq<Call>) {
    && LastIs(trace, ReleaseLease)
    && IsException(trace[|trace| - 1].reply) && !trace[|trace| - 1].reply.ControlPlane?
  }

  /** Draining the stream's pending read ended in an exception. */
  predicate DrainInterrupted(trace: seq<Call>) {
    LastIs(trace, DrainPending) && IsException(trace[|trace| - 1].reply)
  }

  predicate AllFine(script: seq<Reply>, n: nat) {
    n <= |script| && forall i | 0 <= i < n :: script[i].Fine?
  }

  class Gateway {
    const script: seq<Reply>
    var trace: seq<Call>
    var terminalCommitted: bool
    var pending: bool
    ghost var held: Held  // what the trace leaves held

    ghost predicate Valid()
      reads this
    {
      |trace| <= |script| && held == HeldAfter(trace)
    }

    constructor (script: seq<Reply>)
      ensures Valid() && this.script == script && trace == [] && !terminalCommitted && !pending
    {
      this.script := script;
      trace, terminalCommitted, pending, held := [], false, false, NOTHING;
    }

    /** One awaited call. */
    method Await(kind: Kind) returns (a: Awaited)
      requires Valid()
      modifies this`trace, this`held
      ensures Valid()
      ensures |old(trace)| == |script| ==> trace == old(trace) && held == old(held) && a == Left(Hung)
      ensures |old(trace)| < |script| ==>
                var r := script[|old(trace)|];
                && trace == old(trace) + [Call(kind, r)] && held == After(old(held), Call(kind, r))
                && a == if IsException(r) then Left(Raised(r)) else Got(r)
    {
      if |trace| == |script| { return Left(Hung); }
      var r := script[|trace|];
      ghost var before := trace;
      trace, held := trace + [Call(kind, r)], After(held, Call(kind, r));
      assert trace[..|trace| - 1] == before;
      a := if IsException(r) then Left(Raised(r)) else Got(r);
    }

    // -------------------------------------------------------------- admission

    /** The polling loop after a first queued decision: admitted, refused, out of time, or raising. */
    method PollQueue() returns (e: Exit, queued: bool)
      requires Valid() && held.ticket
      modifies this`trace, this`held
      ensures Valid()
      ensures e.Returned? ==> held == old(held).(slots := old(held).slots + 1, ticket := false)
      ensures e.Raised? ==> held == old(held).(ticket := queued)
    {
      queued := true;
      while true
        invariant Valid() && held == old(held) && queued
        decreases |script| - |trace|
      {
        var clock := Await(ReadClock);
        if clock.Left? { return clock.exit, true; }
        if !clock.reply.Fine? { return Raised(Refused), true; }
        var slept := Await(QueueSleep);
        if slept.Left? { return slept.exit, true; }
        clock := Await(ReadClock);
        if clock.Left? { return clock.exit, true; }
        if !clock.reply.Fine? { return Raised(Refused), true; }
        var decision := Await(AdmitPool);
        if decision.Left? { return decision.exit, true; }
        queued := decision.reply.Queued?;
        if decision.reply.Fine? { return Returned, false; }
        if !queued { return Raised(Refused), false; }
      }
    }

    /** Admission to the model pool: a slot on return, neither slot nor ticket on any exception. */
    method AcquireModelPool() returns (e: Exit)
      requires Valid() && held == NOTHING
      modifies this`trace, this`held
      ensures Valid()
      ensures e.Returned? ==> held == NOTHING.(slots := 1)
      ensures e.Raised? ==> held == NOTHING
      ensures |old(trace)| < |script| && script[|old(trace)|].Fine? ==> e.Returned? && |trace| == |old(trace)| + 1
    {
      var decision :- Await(AdmitPool);
      if decision.Fine? { return Returned; }
      if !decision.Queued? { return Raised(Refused); }
      var queued;
      e, queued := PollQueue();
      if e.Raised? && (e.cause.Cancelled? || queued) {
        var ticket := Await(CancelTicket);
        if ticket.Left? && !(e.cause.Cancelled? && ticket.exit == Raised(ControlPlane)) { return ticket.exit; }
      }
    }

    /** Both admissions in order; an exception or refusal at the second gives the slot back. */
    method Admit() returns (e: Exit)
      requires Valid() && trace == []
      modifies this`trace, this`held
      ensures Valid()
      ensures e.Returned? ==> held == BOTH
      ensures e.Raised? ==> held == NOTHING
      ensures AllFine(script, 5) ==> e.Returned? && |trace| == 5
    {
      var claimed :- Await(ClaimNonce);
      if !claimed.Fine? { return Raised(Refused); }
      var policy :- Await(LoadPolicy);
      if !policy.Fine? { return Raised(Refused); }
      var qps :- Await(AdmitQps);
      if !qps.Fine? { return Raised(Refused); }
      e := AcquireModelPool();
      if !e.Returned? { return e; }
      var lease := Await(AcquireLease);
      if lease == Left(Hung) { return Hung; }
      if lease.Left? || !lease.reply.Fine? {
        var _ :- Await(ReleaseSlot);
        return if lease.Left? then lease.exit else Raised(Refused);
      }
    }

    // -------------------------------------------------------------- release

    method ReleaseActiveLeases() returns (e: Exit, clean: bool)
      requires Valid()
      modifies this`trace, this`held
      ensures Valid()
      ensures !e.Hung? ==>
                held == Held(old(held).slots - (if ReleaseInterrupted(trace) then 0 else 1), old(held).leases - 1, old(held).ticket, true)
      ensures e.Returned? ==> !ReleaseInterrupted(trace)
      ensures !e.Hung? ==> !LastIs(trace, DrainPending)
      ensures |old(trace)| < |script| && script[|old(trace)|].Cancelled? ==>
                e == Raised(Cancelled) && trace == old(trace) + [Call(ReleaseLease, Cancelled)]
    {
      clean := true;
      var lease := Await(ReleaseLease);
      if lease.Left? {
        if lease.exit != Raised(ControlPlane) { return lease.exit, false; }
        clean := false;
      }
      var slot := Await(ReleaseSlot);
      if slot.Left? {
        if slot.exit != Raised(ControlPlane) { return slot.exit, false; }
        clean := false;
      }
      e := Returned;
    }

    // -------------------------------------------------------------- the lease guard

    method Heartbeat() returns (e: Exit)
      requires Valid()
      modifies this`trace, this`held
      ensures Valid() && held == old(held) && |old(trace)| <= |trace|
    {
      var lease :- Await(RenewLease);
      var slot :- Await(RenewSlot);
      e := if lease.Fine? && slot.Fine? then Returned else Raised(ControlPlane);
    }

    /** The guard is leaving early: cancel the task, wait for it, re-raise. */
    method Abort(cause: Exit) returns (a: Awaited)
      requires Valid() && cause.Raised?
      modifies this`trace, this`held
      ensures Valid() && held == old(held)
      ensures a.Left? && !a.exit.Returned?
    {
      var drained := Await(DrainTask);
      a := if drained.Left? then drained else Left(cause);
    }

    /** Runs one piece of work, renewing both leases at every heartbeat; a lost lease cancels the work. */
    method Guarded(work: Work) returns (a: Awaited)
      requires Valid()
      modifies this`trace, this`held
      ensures Valid() && held == old(held)
      ensures a.Left? ==> !a.exit.Returned?
      ensures |old(trace)| < |script| && script[|old(trace)|].Fine? ==> a == Got(Fine) && |trace| == |old(trace)| + 1
    {
      hide HeldAfter;
      ghost var start := |trace|;
      while true
        invariant Valid() && held == old(held)
        invariant |trace| == start || (start < |script| && !script[start].Fine?)
        decreases |script| - |trace|
      {
        a := Await(WaitFor(work));
        if a == Left(Raised(Cancelled)) {
          a := Abort(a.exit);
          return;
        }
        if a.Left? || !a.reply.TimedOut? { return; }
        var beat := Heartbeat();
        if beat.Hung? { return Left(Hung); }
        if beat.Raised? {
          a := Abort(beat);
          return;
        }
      }
    }

    // -------------------------------------------------------------- execute

    /** The first half of the served part, shared with streams: quota, credit, recorded credit. */
    method ReserveBoth() returns (e: Exit)
      requires Valid() && !terminalCommitted
      modifies this`trace, this`held, this`terminalCommitted
      ensures Valid() && held == old(held)
      ensures e.Returned? ==> !terminalCommitted
      ensures |old(trace)| < |script| && IsException(script[|old(trace)|]) ==>
                e == Raised(script[|old(trace)|]) && |trace| == |old(trace)| + 1
      ensures AllFine(script, |old(trace)| + 4) ==> e.Returned? && |trace| == |old(trace)| + 4
    {
      var _ :- Await(CheckPayload);
      var _ :- Guarded(ReserveQuota);
      var credit := Guarded(ReserveCredit);
      if credit.Left? {
        if credit.exit == Raised(Exhausted) {
          var _ :- Guarded(Terminalize);
          terminalCommitted := true;
        }
        return credit.exit;
      }
      if !credit.reply.Fine? { return Raised(Refused); }
      var _ :- Guarded(RecordCredit);
      e := Returned;
    }

    /** The provider failed: cancel the credit, then commit the rejection. */
    method RejectProvider() returns (e: Exit)
      requires Valid()
      modifies this`trace, this`held, this`terminalCommitted
      ensures Valid() && held == old(held)
      ensures !e.Returned?
    {
      var cancelled :- Guarded(CancelCredit);
      if !cancelled.Fine? { return Raised(Refused); }
      var _ :- Guarded(Terminalize);
      terminalCommitted := true;
      e := Raised(Upstream);
    }

    /** The part of execute that runs between admission and release. */
    method Serve() returns (e: Exit)
      requires Valid() && !terminalCommitted
      modifies this`trace, this`held, this`terminalCommitted
      ensures Valid() && held == old(held)
      ensures e.Returned? ==> terminalCommitted
      ensures |old(trace)| < |script| && IsException(script[|old(trace)|]) ==>
                e == Raised(script[|old(trace)|]) && |trace| == |old(trace)| + 1
    {
      e := ReserveBoth();
      if !e.Returned? { return e; }
      var response := Guarded(CallProvider);
      if response == Left(Raised(Upstream)) {
        e := RejectProvider();
        return e;
      }
      if response.Left? { return response.exit; }
      var _ :- Guarded(RecordUsage);
      var settled :- Guarded(SettleCredit);
      if !settled.Fine? { return Raised(Refused); }
      var _ :- Guarded(Terminalize);
      terminalCommitted := true;
      e := Returned;
    }

    /** Whatever every awaited call does, a finished execute holds nothing, but for one slot exactly when the
        concurrency release was itself interrupted; it returns a response only after the terminal commit. */
    method Execute() returns (e: Exit)
      requires Valid() && trace == [] && !terminalCommitted
      modifies this`trace, this`held, this`terminalCommitted
      ensures Valid()
      ensures !e.Hung? ==> !held.ticket && held.leases == 0 && held.slots == if ReleaseInterrupted(trace) then 1 else 0
      ensures e.Returned? ==> terminalCommitted && !ReleaseInterrupted(trace)
      ensures AllFine(script, 5) && |script| > 6 && IsException(script[5]) && script[6].Cancelled? ==>
                e == Raised(Cancelled) && ReleaseInterrupted(trace)
    {
      e := Admit();
      if !e.Returned? { return e; }
      e := Serve();
      if e.Hung? { return e; }
      var released, clean := ReleaseActiveLeases();
      if !released.Returned? { return released; }
      if !clean && !terminalCommitted { return Raised(ControlPlane); }
    }

    // -------------------------------------------------------------- streams

    /** A prepared stream carries both leases to its generator; a refused one holds nothing. */
    method PrepareStream() returns (e: Exit)
      requires Valid() && trace == [] && !terminalCommitted
      modifies this`trace, this`held, this`terminalCommitted
      ensures Valid()
      ensures e.Returned? ==> held == BOTH && !terminalCommitted
      ensures e.Raised? ==> !held.ticket && held.leases == 0 && held.slots == if ReleaseInterrupted(trace) then 1 else 0
      ensures AllFine(script, 9) ==> e.Returned? && |trace| == 9
    {
      e := Admit();
      if !e.Returned? { return e; }
      e := ReserveBoth();
      if !e.Raised? { return e; }
      var released, clean := ReleaseActiveLeases();
      if !released.Returned? { return released; }
      if !clean && !terminalCommitted { return Raised(ControlPlane); }
    }

    /** A due heartbeat inside the stream: renew, touch the operation, yield the comment. */
    method BeatStream() returns (e: Exit)
      requires Valid()
      modifies this`trace, this`held
      ensures Valid() && held == old(held) && |old(trace)| <= |trace|
    {
      e := Heartbeat();
      if !e.Returned? { return e; }
      var touched :- Await(TouchOperation);
      if !touched.Fine? { return Raised(Crashed); }
      var _ :- Await(YieldFrame);
      e := Returned;
    }

    /** The frames of one fed chunk; [DONE] is yielded only after settlement and the terminal commit. */
    method YieldFrames() returns (e: Exit, finished: bool)
      requires Valid() && !terminalCommitted
      modifies this`trace, this`held, this`terminalCommitted
      ensures Valid() && held == old(held) && |old(trace)| <= |trace|
      ensures finished ==> terminalCommitted
      ensures e.Returned? && !finished ==> !terminalCommitted
    {
      hide HeldAfter;
      finished := false;
      while true
        invariant Valid() && held == old(held) && |old(trace)| <= |trace| && !terminalCommitted && !finished
        decreases |script| - |trace|
      {
        var frame := Await(FeedChunk);
        if frame.Left? { return frame.exit, false; }
        if frame.reply.TimedOut? { return Returned, false; }
        if frame.reply.Fine? {
          var yielded := Await(YieldFrame);
          if yielded.Left? { return yielded.exit, false; }
        } else {
          var settled := Await(SettleStream);
          if settled.Left? { return settled.exit, false; }
          var committed := Await(WaitFor(Terminalize));
          if committed.Left? { return committed.exit, false; }
          terminalCommitted := true;
          var yielded := Await(YieldFrame);
          return (if yielded.Left? then yielded.exit else Returned), true;
        }
      }
    }

    method StreamLoop() returns (e: Exit)
      requires Valid() && !terminalCommitted && !pending
      modifies this`trace, this`held, this`terminalCommitted, this`pending
      ensures Valid() && held == old(held)
      ensures e.Returned? ==> terminalCommitted
      ensures |old(trace)| < |script| && script[|old(trace)|].Cancelled? ==>
                e == Raised(Cancelled) && pending && trace == old(trace) + [Call(WaitChunk, Cancelled)]
    {
      hide HeldAfter;
      ghost var start := |trace|;
      while true
        invariant Valid() && held == old(held) && !terminalCommitted
        invariant (|trace| == start && trace == old(trace)) || (start < |script| && !IsException(script[start]))
        decreases |script| - |trace|
      {
        pending := true;
        var completed :- Await(WaitChunk);
        if completed.TimedOut? {
          var beat := BeatStream();
          if !beat.Returned? { return beat; }
        } else {
          pending := false;
          var due :- Await(BeatDue);
          if due.TimedOut? {
            var beat := BeatStream();
            if !beat.Returned? { return beat; }
          }
          if completed.Refused? { return Raised(Upstream); }
          var finished;
          e, finished := YieldFrames();
          if finished || !e.Returned? { return e; }
        }
      }
    }

    /** The except clauses: try to settle or cancel, then an error frame unless the client is gone. */
    method HandleFailure(cause: Reply) returns (e: Exit)
      requires Valid()
      modifies this`trace, this`held, this`terminalCommitted
      ensures Valid() && held == old(held)
      ensures |old(trace)| < |script| && script[|old(trace)|].Fine? && cause.Cancelled? ==>
                e == Raised(Cancelled) && trace == old(trace) + [Call(FinishFailure, Fine)]
    {
      var ended := Await(FinishFailure);
      if ended == Left(Hung) || ended == Left(Raised(Cancelled)) { return ended.exit; }
      terminalCommitted := ended.Got?;
      if cause.Cancelled? { return Raised(cause); }
      var _ :- Await(YieldFrame);
      e := Returned;
    }

    /** The finally clause: drain the pending read, close the upstream, release both leases. */
    method CleanUp(ended: Exit) returns (e: Exit)
      requires Valid() && held == BOTH && !ended.Hung?
      modifies this`trace, this`held
      ensures Valid()
      ensures !e.Hung? ==>
                && !held.ticket
                && held.slots == (if DrainInterrupted(trace) || ReleaseInterrupted(trace) then 1 else 0)
                && held.leases == (if DrainInterrupted(trace) then 1 else 0)
      ensures pending && |old(trace)| < |script| && script[|old(trace)|].Cancelled? ==> e == Raised(Cancelled) && DrainInterrupted(trace)
    {
      hide HeldAfter;
      e := ended;
      if pending {
        var drained := Await(DrainPending);
        if drained.Left? { return drained.exit; }
      }
      var closed := Await(CloseUpstream);
      if closed == Left(Hung) { return Hung; }
      var released, clean := ReleaseActiveLeases();
      if !released.Returned? { return released; }
      if !clean && !terminalCommitted { return Raised(ControlPlane); }
      if closed == Left(Raised(Cancelled)) { return closed.exit; }
    }

    /** A finished stream generator that was started holding both leases has attempted both releases, except
        exactly when draining the pending read, or the concurrency release, was itself interrupted. */
    method StreamResponse() returns (e: Exit)
      requires Valid() && held == BOTH && !terminalCommitted && !pending
      modifies this`trace, this`held, this`terminalCommitted, this`pending
      ensures Valid()
      ensures !e.Hung? ==>
                && !held.ticket
                && held.slots == (if DrainInterrupted(trace) || ReleaseInterrupted(trace) then 1 else 0)
                && held.leases == (if DrainInterrupted(trace) then 1 else 0)
      ensures |old(trace)| + 2 < |script| && script[|old(trace)|].Cancelled? && script[|old(trace)| + 1].Fine?
                && script[|old(trace)| + 2].Cancelled? ==>
                e == Raised(Cancelled) && DrainInterrupted(trace)
    {
      hide HeldAfter, DrainInterrupted, ReleaseInterrupted;
      e := StreamLoop();
      if e.Raised? { e := HandleFailure(e.cause); }
      if e.Hung? { return e; }
      e := CleanUp(e);
    }
  }

  /** The exception is real: admitted, refused by payload validation, then cancelled in the first release. */
  method LoseOneSlot() returns (trace: seq<Call>)
    ensures HeldAfter(trace).slots == 1 && HeldAfter(trace).leases == 0 && ReleaseInterrupted(trace)
  {
    var g := new Gateway([Fine, Fine, Fine, Fine, Fine, Crashed, Cancelled]);
    var e := g.Execute();
    trace := g.trace;
  }

  /** So is the stream's: the client leaves during a read, and again while the read is drained. */
  method LoseBothLeases() returns (trace: seq<Call>)
    ensures HeldAfter(trace).slots == 1 && HeldAfter(trace).leases == 1 && DrainInterrupted(trace)
  {
    var g := new Gateway([Fine, Fine, Fine, Fine, Fine, Fine, Fine, Fine, Fine, Cancelled, Fine, Cancelled]);
    assert AllFine(g.script, 9) && g.script[9].Cancelled? && g.script[10].Fine? && g.script[11].Cancelled?;
    var prepared := g.PrepareStream();
    assert |g.trace| == 9;
    var e := g.StreamResponse();
    assert e == Raised(Cancelled);
    trace := g.trace;
  }
}
