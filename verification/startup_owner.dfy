/** The two sides of the handshake as written: the three thread bodies and the caller that
    awaits them. Each is proved to be a run of the step system. */
module StartupOwner {
  import opened Wire
  import opened Startup
  import StartupTrace

  /** What the caller does once the thread is spawned. */
  predicate OfCaller(step: Step) {
    ByCaller(step) && !step.MakeWaker? && !step.Spawn?
  }

  predicate SameOwner(s: State, t: State) {
    t.kind == s.kind && t.owner == s.owner && t.passed == s.passed && t.live == s.live && t.arrived == s.arrived
  }

  predicate SameCaller(s: State, t: State) {
    t.kind == s.kind && t.caller == s.caller
  }

  lemma CallerKeepsOwner(s: State, step: Step)
    requires Enabled(s, step) && OfCaller(step)
    ensures SameOwner(s, Apply(s, step))
  {
  }

  lemma OwnerLeavesCaller(s: State, step: Step)
    requires Enabled(s, step) && !ByCaller(step)
    ensures SameCaller(s, Apply(s, step))
  {
    hide Stages;
  }

  /** The caller cannot go on yet: no verdict was sent, or the thread to join has not ended. */
  predicate StillWaits(s: State) {
    (s.caller.Awaiting? && !s.verdict.Sent?) || (s.caller.Joining? && !s.owner.Finished?)
  }

  class Handshake {
    const kind: Kind
    var sys: State
    ghost var trace: seq<Step>

    ghost predicate Valid()
      reads this
    {
      Legal(kind, trace) && Exec(kind, trace) == sys
    }

    constructor (kind: Kind)
      ensures Valid() && this.kind == kind && sys == Init(kind)
    {
      this.kind, sys, trace := kind, Init(kind), [];
    }

    method Do(step: Step)
      requires Valid() && Enabled(sys, step)
      modifies this
      ensures Valid() && sys == Apply(old(sys), step) && trace == old(trace) + [step]
    {
      ghost var all := trace + [step];
      assert all[..|all| - 1] == trace;
      sys, trace := Apply(sys, step), all;
    }

    /** The step just taken. */
    ghost predicate Just(step: Step)
      reads this
    {
      trace != [] && trace[|trace| - 1] == step
    }

    lemma OfKind()
      requires Valid()
      ensures sys.kind == kind
    {
      RunKeeps(kind, trace);
    }

    lemma Known()
      requires Valid()
      ensures sys.kind == kind && Inv(sys)
    {
      RunKeeps(kind, trace);
    }

    /** Any number of moves by the caller. */
    method CallerMoves()
      requires Valid()
      modifies this
      ensures Valid() && SameOwner(old(sys), sys)
    {
      hide Apply, Enabled, Valid;
      var n: nat := *;
      while n > 0
        invariant Valid() && SameOwner(old(sys), sys)
      {
        var step: Step := *;
        if OfCaller(step) && Enabled(sys, step) {
          CallerKeepsOwner(sys, step);
          Do(step);
        }
        n := n - 1;
      }
    }

    /** Any number of moves by the owner thread. */
    method OwnerMoves()
      requires Valid()
      modifies this
      ensures Valid() && SameCaller(old(sys), sys)
    {
      hide Apply, Enabled, Valid;
      var n: nat := *;
      while n > 0
        invariant Valid() && SameCaller(old(sys), sys)
      {
        var step: Step := *;
        if !ByCaller(step) && Enabled(sys, step) {
          OwnerLeavesCaller(sys, step);
          Do(step);
        }
        n := n - 1;
      }
    }

    // The owner thread

    /** One native call of the start-up, whose outcome is the step taken; its handle is kept
        if it makes one. */
    method Attempt(stage: Stage) returns (failure: Option<Error>)
      requires Valid() && sys.owner.Working? && |sys.passed| < |Stages(kind)| && Stages(kind)[|sys.passed|] == stage
      modifies this
      ensures Valid() && Just(DoStage(failure))
      ensures failure.Some? ==> sys.owner == Failing(failure.value)
      ensures failure.None? ==>
        && sys.passed == old(sys.passed) + [stage]
        && sys.owner == (if |sys.passed| == |Stages(kind)| then Ready else Working)
    {
      hide Stages;
      CallerMoves();
      Known();
      failure := *;
      Do(DoStage(failure));
    }

    /** Going out of scope: the handles drop, last one first. */
    method DropHandles()
      requires Valid() && sys.owner.Releasing?
      modifies this
      ensures Valid() && sys.owner.Finished? && sys.live == []
    {
      hide Valid;
      while sys.live != []
        invariant Valid() && sys.owner.Releasing?
        decreases |sys.live|
      {
        CallerMoves();
        Do(Release);
      }
      CallerMoves();
      Do(Release);
    }

    /** `ready_tx.send(Err(e))`, then return. */
    method Fail(e: Error)
      requires Valid() && sys.owner == Failing(e)
      modifies this
      ensures Valid() && sys.owner.Finished? && sys.live == []
    {
      CallerMoves();
      Do(SendError);
      DropHandles();
    }

    /** `ready_tx.send(Ok(..))`; without a listener the thread returns at once. */
    method SayReady() returns (heard: bool)
      requires Valid() && sys.owner.Ready?
      modifies this
      ensures Valid() && Just(SendReady)
      ensures sys.owner == if heard then Running else Releasing
    {
      CallerMoves();
      Do(SendReady);
      heard := sys.owner.Running?;
    }

    /** The loop of a server or a connection: it leaves when told, or on its own account. */
    method Loop()
      requires Valid() && sys.owner.Running? && !kind.Stream?
      modifies this
      ensures Valid() && sys.owner.Releasing?
      ensures Just(Leave) || (Just(Check) && Told(sys))
    {
      hide Valid;
      var turns: nat := *;
      while true
        invariant Valid() && sys.owner.Running?
        decreases turns
      {
        CallerMoves();
        OfKind();
        Do(Check);
        if sys.owner.Releasing? {
          return;
        }
        var dies: bool := *;
        CallerMoves();
        if dies || turns == 0 {
          Do(Leave);
          return;
        }
        turns := turns - 1;
        OfKind();
        Do(Doze);
        CallerMoves();
        OfKind();
        var cause: Cause := *;
        if cause.ByWaker? && !sys.signal {
          cause := ByTimer;
        }
        Do(Rouse(cause));
      }
    }

    /** The loop of a stream: it reads, and looks at its channel only to send what it read.
        The peer ends the stream at last. */
    method ReadLoop()
      requires Valid() && sys.owner.Running? && kind.Stream?
      modifies this
      ensures Valid() && sys.owner.Releasing? && Just(Deliver)
    {
      hide Valid, Told;
      var turns: nat := *;
      while true
        invariant Valid() && sys.owner.Running?
        decreases turns
      {
        var got: Option<Load>, more: bool := *, *;
        if turns == 0 {
          got := Some(Final);
        } else {
          turns := turns - 1;
        }
        NativeRead(got, more);
        if got.Some? {
          SendIt();
          if sys.owner.Sending? {
            SendIt();
          }
          if sys.owner.Releasing? {
            return;
          }
        }
      }
    }

    /** The blocking native read; it returns once something has arrived. */
    method NativeRead(got: Option<Load>, more: bool)
      requires Valid() && sys.owner.Running? && kind.Stream?
      modifies this
      ensures Valid() && Just(Read(got, more))
      ensures sys.owner == if got.None? then Running else Sending(got.value)
    {
      hide Valid, Told, Stages;
      CallerMoves();
      OfKind();
      Do(Doze);
      CallerMoves();
      OfKind();
      Do(Arrive);
      CallerMoves();
      OfKind();
      Do(Read(got, more));
    }

    /** `blocking_send`: where a hang-up is noticed. */
    method SendIt()
      requires Valid() && sys.owner.Sending?
      modifies this
      ensures Valid() && Just(Deliver)
      ensures match old(sys.owner.load)
        case Chunk => sys.owner.Running? || sys.owner.Releasing?
        case LastChunk => sys.owner == Sending(Final) || sys.owner.Releasing?
        case Final => sys.owner.Releasing?
    {
      CallerMoves();
      Do(Deliver);
    }

    method ServeThread(dht: bool)
      requires Valid() && kind == Kind.Serve(dht) && sys.owner.Working? && sys.passed == []
      modifies this
      ensures Valid() && sys.owner.Finished? && sys.live == []
    {
      hide Valid;
      var failure := Attempt(Build);
      if failure.Some? {
        Fail(failure.value);
        return;
      }
      if dht {
        failure := Attempt(AttachDht);
        if failure.Some? {
          Fail(failure.value);
          return;
        }
      }
      failure := Attempt(ReadInfo);
      if failure.Some? {
        Fail(failure.value);
        return;
      }
      var heard := SayReady();
      if heard {
        Loop();
      }
      DropHandles();
    }

    method ConnectThread()
      requires Valid() && kind == Connect && sys.owner.Working? && sys.passed == []
      modifies this
      ensures Valid() && sys.owner.Finished? && sys.live == []
    {
      hide Valid;
      var failure := Attempt(Build);
      if failure.Some? {
        Fail(failure.value);
        return;
      }
      var heard := SayReady();
      if heard {
        Loop();
      }
      DropHandles();
    }

    method StreamThread()
      requires Valid() && kind == Kind.Stream && sys.owner.Working? && sys.passed == []
      modifies this
      ensures Valid() && sys.owner.Finished? && sys.live == []
    {
      hide Valid;
      var failure := Attempt(Build);
      if failure.Some? {
        Fail(failure.value);
        return;
      }
      failure := Attempt(OpenStream);
      if failure.Some? {
        Fail(failure.value);
        return;
      }
      failure := Attempt(ReadResponse);
      if failure.Some? {
        Fail(failure.value);
        return;
      }
      var heard := SayReady();
      if heard {
        ReadLoop();
      }
      DropHandles();
    }

    // The caller

    /** The async function awaited to completion, or none while it still waits. */
    method Start() returns (r: Option<Result<()>>)
      requires Valid() && sys == Init(kind)
      modifies this
      ensures Valid()
      ensures r.Some? ==> sys.caller == Returned(r.value)
      ensures r.Some? && r.value.Ok? ==> StartupTrace.EveryStage(kind, sys.passed)
      ensures r.Some? && r.value.Err? ==>
        || StartupTrace.FailedWith(trace, r.value.error)
        || (r.value.error == Internal && StartupTrace.NotSpawned(trace))
      ensures r.Some? && r.value.Err? ==> sys.live == [] && (sys.owner.Finished? || sys.owner.Unspawned?)
      ensures r.None? ==> StillWaits(sys)
    {
      if kind.Connect? {
        var made: bool := *;
        Do(MakeWaker(made));
        if !made {
          StartupTrace.ReturnsTheOutcome(kind, trace);
          return Some(Err(Internal));
        }
      }
      var spawned: bool := *;
      Do(Spawn(spawned));
      if !spawned {
        StartupTrace.ReturnsTheOutcome(kind, trace);
        return Some(Err(Internal));
      }
      r := Await();
    }

    /** `ready_rx.await`, and on an error the join. */
    method Await() returns (r: Option<Result<()>>)
      requires Valid() && sys.caller.Awaiting?
      modifies this
      ensures Valid()
      ensures r.Some? ==> sys.caller == Returned(r.value)
      ensures r.Some? && r.value.Ok? ==> StartupTrace.EveryStage(kind, sys.passed)
      ensures r.Some? && r.value.Err? ==> StartupTrace.FailedWith(trace, r.value.error)
      ensures r.Some? && r.value.Err? ==> sys.live == [] && sys.owner.Finished?
      ensures r.None? ==> StillWaits(sys)
    {
      OwnerMoves();
      Known();
      if !sys.verdict.Sent? {
        return None;
      }
      Do(Receive);
      Known();
      if sys.caller.Returned? {
        StartupTrace.ReturnsTheOutcome(kind, trace);
        return Some(Ok(()));
      }
      OwnerMoves();
      if !sys.owner.Finished? {
        return None;
      }
      var e := sys.caller.error;
      Do(Join);
      Known();
      StartupTrace.ReturnsTheOutcome(kind, trace);
      StartupTrace.PartingsAreSteps(kind, trace);
      r := Some(Err(e));
    }
  }
}
