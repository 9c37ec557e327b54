/** One submitted request and its handle: ticks that complete it, polls, the completion
    hook, cancel and drop, in any order. The handle learns of an end only by polling. */
module RequestHandles {
  import opened Wire

  /** What the native side has done for the id: still driving it, completed it with the
      result kept for a poll, handed the result out, or retired it by a cancel. */
  datatype Phase = InFlight | Kept | HandedOut | Cancelled

  datatype State = State(
    done: bool,               // `RequestHandle.done`
    gone: bool,               // the handle was consumed or dropped
    phase: Phase,
    cancelled: seq<Phase>)    // the phase each native cancel of the id found it in

  function Init(): State {
    State(false, false, InFlight, [])
  }

  datatype Call =
    | Completed(hooked: bool) // a tick completed it, and the hook if any was given the result
    | Polled(ended: bool)     // a response or an error, or still pending
    | CancelIt
    | DropIt

  /** Polling and giving up need the handle; a tick completes what is in flight; a kept
      result is not reported as pending. */
  predicate Legal(s: State, call: Call) {
    match call
    case Completed(_) => s.phase.InFlight?
    case Polled(ended) => !s.gone && (s.phase.Kept? ==> ended)
    case _ => !s.gone
  }

  /** `cancel_inner`. */
  function GiveUp(s: State): State {
    if s.done then s else State(true, s.gone, Cancelled, s.cancelled + [s.phase])
  }

  /** `cancel` consumes the handle, whose drop then runs as well. */
  function Apply(s: State, call: Call): State {
    match call
    case Completed(hooked) => s.(phase := if hooked then HandedOut else Kept)
    case Polled(ended) => if ended then s.(done := true, phase := HandedOut) else s
    case CancelIt => GiveUp(GiveUp(s)).(gone := true)
    case DropIt => GiveUp(s).(gone := true)
  }

  function Exec(calls: seq<Call>): State {
    if calls == [] then Init() else Apply(Exec(calls[..|calls| - 1]), calls[|calls| - 1])
  }

  predicate LegalRun(calls: seq<Call>) {
    calls == [] || (LegalRun(calls[..|calls| - 1]) && Legal(Exec(calls[..|calls| - 1]), calls[|calls| - 1]))
  }

  /** Over any calls: the id is cancelled at most once, and exactly when the handle went
      without a poll having reported the end. */
  lemma {:induction false} CancelledIffUnreported(calls: seq<Call>)
    requires LegalRun(calls)
    ensures Exec(calls).gone <==> CancelIt in calls || DropIt in calls
    ensures |Exec(calls).cancelled| == if Exec(calls).gone && Polled(true) !in calls then 1 else 0
    ensures Exec(calls).done <==> Exec(calls).gone || Polled(true) in calls
  {
    if calls != [] {
      var front, last := calls[..|calls| - 1], calls[|calls| - 1];
      CancelledIffUnreported(front);
      assert calls == front + [last];
    }
  }

  /** The phase the native side is in before the handle has gone or a poll reported. */
  function Unreported(calls: seq<Call>): Phase {
    if Completed(true) in calls then HandedOut else if Completed(false) in calls then Kept else InFlight
  }

  lemma {:induction false} PhaseOf(calls: seq<Call>)
    requires LegalRun(calls)
    ensures !Exec(calls).gone && Polled(true) !in calls ==> Exec(calls).phase == Unreported(calls)
    ensures Exec(calls).gone || Polled(true) in calls ==> !Exec(calls).phase.InFlight?
  {
    if calls != [] {
      var front, last := calls[..|calls| - 1], calls[|calls| - 1];
      PhaseOf(front);
      CancelledIffUnreported(front);
      assert calls == front + [last];
    }
  }

  /** What the cancel hits: a result already handed out exactly when the hook was given it,
      one completed and kept exactly when a tick completed it with no hook, and otherwise a
      request still in flight. */
  lemma {:induction false} CancelHits(calls: seq<Call>)
    requires LegalRun(calls)
    ensures Exec(calls).gone && Polled(true) !in calls ==> Exec(calls).cancelled == [Unreported(calls)]
  {
    if calls != [] {
      var front, last := calls[..|calls| - 1], calls[|calls| - 1];
      CancelHits(front);
      PhaseOf(front);
      CancelledIffUnreported(front);
      CancelledIffUnreported(calls);
      assert calls == front + [last];
    }
  }

  /** So a request that completed or failed is cancelled exactly when a tick completed it
      and the handle went without a poll having reported that. */
  lemma StrayIffUnpolled(calls: seq<Call>)
    requires LegalRun(calls)
    ensures (exists p <- Exec(calls).cancelled :: p != InFlight) <==>
              Exec(calls).gone && Polled(true) !in calls && (Completed(true) in calls || Completed(false) in calls)
  {
    CancelledIffUnreported(calls);
    CancelHits(calls);
    if Exec(calls).gone && Polled(true) !in calls {
      assert Unreported(calls) in Exec(calls).cancelled;
    }
  }

  /** A handle kept beside a hook and never polled cancels a request whose result was
      handed out. */
  lemma HookedThenDropped()
    ensures LegalRun([Completed(true), DropIt]) && Exec([Completed(true), DropIt]).cancelled == [HandedOut]
  {
    var one: seq<Call> := [Completed(true)];
    assert one[..0] == [] && [Completed(true), DropIt][..1] == one;
    assert LegalRun(one) && Exec(one) == Apply(Init(), Completed(true));
  }

  /** The native side of one id. */
  class Native {
    var phase: Phase
    ghost var cancelled: seq<Phase>
    /** What the polls of the id answered. */
    ghost var answers: seq<Result<Option<Response>>>

    constructor ()
      ensures phase == InFlight && cancelled == [] && answers == []
    {
      phase, cancelled, answers := InFlight, [], [];
    }

    /** 0 done, would-block pending, anything else failed. A kept result is not pending. */
    method Poll() returns (r: Result<Option<Response>>)
      modifies this
      ensures phase == if r == Ok(None) then old(phase) else HandedOut
      ensures old(phase).Kept? ==> r != Ok(None)
      ensures cancelled == old(cancelled) && answers == old(answers) + [r]
    {
      r := *;
      if phase.Kept? && r == Ok(None) {
        var code: Error := *;
        r := Err(code);
      }
      if r != Ok(None) {
        phase := HandedOut;
      }
      answers := answers + [r];
    }

    method Cancel()
      modifies this
      ensures phase == Cancelled && cancelled == old(cancelled) + [old(phase)] && answers == old(answers)
    {
      cancelled := cancelled + [phase];
      phase := Cancelled;
    }
  }

  class RequestHandle {
    const native: Native
    var done: bool

    ghost function View(gone: bool): State
      reads this, native
    {
      State(done, gone, native.phase, native.cancelled)
    }

    constructor (native: Native)
      requires native.phase == InFlight && native.cancelled == []
      ensures this.native == native && View(false) == Init()
    {
      this.native, done := native, false;
    }

    /** One native poll, whose answer is handed on. */
    method Poll() returns (r: Result<Option<Response>>)
      modifies this, native
      ensures native.answers == old(native.answers) + [r]
      ensures Legal(old(View(false)), Polled(r != Ok(None)))
      ensures View(false) == Apply(old(View(false)), Polled(r != Ok(None)))
    {
      r := native.Poll();
      match r {
        case Ok(Some(_)) => done := true;
        case Ok(None) =>
        case Err(_) => done := true;
      }
    }

    method CancelInner()
      modifies this, native
      ensures forall gone :: View(gone) == GiveUp(old(View(gone)))
      ensures native.answers == old(native.answers)
    {
      if !done {
        native.Cancel();
        done := true;
      }
    }

    method Cancel()
      modifies this, native
      ensures View(true) == Apply(old(View(false)), CancelIt) && native.answers == old(native.answers)
    {
      CancelInner();
      Drop();
    }

    method Drop()
      modifies this, native
      ensures View(true) == Apply(old(View(false)), DropIt) && native.answers == old(native.answers)
    {
      CancelInner();
    }
  }
}
