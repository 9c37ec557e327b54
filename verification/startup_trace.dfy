/** The handshake against its own history: what the caller is told, and why an owner leaves,
    are the outcomes of the steps of the run. */
module StartupTrace {
  import opened Wire
  import opened Startup

  /** The start-up calls of a run that succeeded. */
  function Passes(steps: seq<Step>): nat {
    if steps == [] then 0 else Passes(steps[..|steps| - 1]) + One(steps[|steps| - 1] == DoStage(None))
  }

  /** A start-up call of the run failed with e. */
  predicate FailedWith(steps: seq<Step>, e: Error) {
    DoStage(Some(e)) in steps
  }

  /** The waker or the thread could not be had. */
  predicate NotSpawned(steps: seq<Step>) {
    MakeWaker(false) in steps || Spawn(false) in steps
  }

  /** A native read of the run brought the stream's end or its error. */
  predicate SawLast(steps: seq<Step>) {
    exists i | 0 <= i < |steps| :: IsLast(steps[i])
  }

  predicate IsLast(step: Step) {
    step.Read? && step.got.Some? && !step.got.value.Chunk?
  }

  lemma SawLastNext(front: seq<Step>, last: Step)
    ensures SawLast(front + [last]) <==> SawLast(front) || IsLast(last)
  {
    hide IsLast;
    var all := front + [last];
    if SawLast(front) {
      var i :| 0 <= i < |front| && IsLast(front[i]);
      assert IsLast(all[i]);
    }
    if IsLast(last) {
      assert IsLast(all[|front|]);
    }
  }

  // The start-up calls

  /** What one step does to the record of the start-up calls. */
  ghost predicate StagesFollow(s: State, step: Step, t: State) {
    && |t.passed| == |s.passed| + One(step == DoStage(None))
    && t.failed == (if step.DoStage? && step.failure.Some? then step.failure else s.failed)
    && (step.DoStage? ==> s.owner.Working?)
    && (s.failed.Some? ==> t.failed == s.failed && !t.owner.Working? && t.passed == s.passed)
    && (t.failed.Some? ==> !t.owner.Working? && !t.owner.Ready? && !t.owner.Unspawned?)
  }

  /** Steps other than a start-up call and a release leave the record as it is. */
  ghost predicate SameRecord(s: State, step: Step, t: State) {
    && t.passed == s.passed && t.live == s.live && t.failed == s.failed
    && (t.owner.Finished? <==> s.owner.Finished?)
    && (t.owner.Working? ==> s.owner.Working? || s.owner.Unspawned?)
    && (t.owner.Ready? ==> s.owner.Ready?) && (t.owner.Unspawned? ==> s.owner.Unspawned?)
  }

  lemma RecordKept(s: State, step: Step)
    requires Inv(s) && Enabled(s, step) && !step.DoStage? && !step.Release?
    ensures SameRecord(s, step, Apply(s, step))
  {
    if OfLoop(step) || step.Leave? {
      LoopTurns(s, step);
      hide Apply, Inv, Enabled;
    } else if ByCaller(step) {
      SpawningUnspawned(s);
      CallerKeepsRecord(s, step);
    } else {
      PostKeepsRecord(s, step);
    }
  }

  lemma CallerKeepsRecord(s: State, step: Step)
    requires Enabled(s, step) && ByCaller(step) && (s.caller.Spawning? ==> s.owner.Unspawned?)
    ensures SameRecord(s, step, Apply(s, step))
  {
    hide Stages, Holds, Told, Looping, SenderGone;
  }

  lemma PostKeepsRecord(s: State, step: Step)
    requires Enabled(s, step) && (step.SendError? || step.SendReady?)
    ensures SameRecord(s, step, Apply(s, step))
  {
    hide Stages, Holds, Told, Looping, SenderGone;
  }

  lemma WorksWhen(s: State, step: Step)
    requires Enabled(s, step)
    ensures step.DoStage? ==> s.owner.Working?
    ensures step.Release? ==> s.owner.Releasing?
  {
  }

  lemma StageRecorded(s: State, failure: Option<Error>)
    requires Inv(s) && s.owner.Working? && s.failed.None?
    ensures StagesFollow(s, DoStage(failure), Apply(s, DoStage(failure)))
  {
    hide CallerInv, VerdictInv, TellInv, ErrorInv, Handles, Stages, Holds;
  }

  lemma ReleaseRecorded(s: State)
    requires s.owner.Releasing?
    ensures StagesFollow(s, Release, Apply(s, Release))
  {
  }

  lemma StagesStep(s: State, step: Step)
    requires Inv(s) && Enabled(s, step)
    requires s.failed.Some? ==> !s.owner.Working? && !s.owner.Ready? && !s.owner.Unspawned?
    ensures StagesFollow(s, step, Apply(s, step))
  {
    hide Apply, Inv, Enabled;
    WorksWhen(s, step);
    match step {
      case DoStage(failure) => StageRecorded(s, failure);
      case Release => ReleaseRecorded(s);
      case _ => RecordKept(s, step);
    }
  }

  /** Over every run the stages passed are the start-up calls that succeeded, in the order
      of the stages, and the recorded failure is that of the one that did not. */
  lemma {:induction false} StagesAreSteps(kind: Kind, steps: seq<Step>)
    requires Legal(kind, steps)
    ensures var s := Exec(kind, steps);
      && Passes(steps) <= |Stages(kind)| && s.passed == Stages(kind)[..Passes(steps)]
      && (forall e :: FailedWith(steps, e) <==> s.failed == Some(e))
      && (s.failed.Some? ==> |s.passed| < |Stages(kind)|)
      && (s.failed.Some? ==> !s.owner.Working? && !s.owner.Ready? && !s.owner.Unspawned?)
  {
    hide Apply, Enabled, Stages, CallerInv, VerdictInv, TellInv, ErrorInv, Handles;
    RunKeeps(kind, steps);
    if steps != [] {
      var front, last := steps[..|steps| - 1], steps[|steps| - 1];
      StagesAreSteps(kind, front);
      RunKeeps(kind, front);
      assert steps == front + [last];
      StagesStep(Exec(kind, front), last);
    }
  }

  // The spawn and the partings

  ghost predicate SpawnFollows(s: State, step: Step, t: State) {
    && (t.owner.Unspawned? <==> s.owner.Unspawned? && step != Spawn(true))
    && (t.owner.Unspawned? && t.caller.Returned?
        <==> (s.owner.Unspawned? && s.caller.Returned?) || step == MakeWaker(false) || step == Spawn(false))
  }

  /** The waker was signalled and the owner has not come out of its wait since. */
  predicate Signalled(steps: seq<Step>) {
    steps != []
    && var last := steps[|steps| - 1];
       last.WakeOwner? || (!last.Rouse? && Signalled(steps[..|steps| - 1]))
  }

  /** Something arrived for the stream, and no read since has left nothing behind. */
  predicate Arrived(steps: seq<Step>) {
    steps != []
    && match steps[|steps| - 1]
       case Arrive => true
       case Read(Some(_), more) => more
       case _ => Arrived(steps[..|steps| - 1])
  }

  ghost predicate FlagsFollow(s: State, step: Step, t: State) {
    && (t.linked <==> s.linked && step != Abandon && step != DropHandle)
    && (t.stop <==> s.stop || (step == DropHandle && s.kind.Serve?))
    && (t.signal <==> step.WakeOwner? || (s.signal && !step.Rouse?))
    && (t.arrived <==> step.Arrive? || (if step.Read? && step.got.Some? then step.more else s.arrived))
  }

  lemma FlagsStep(s: State, step: Step)
    requires Enabled(s, step) && (step == DropHandle ==> !s.stop)
    ensures FlagsFollow(s, step, Apply(s, step))
  {
    hide Stages, Holds, Told, Looping, SenderGone;
  }

  lemma NotStopped(s: State)
    requires Inv(s)
    ensures s.caller.Returned? ==> !s.stop
    ensures Enabled(s, DropHandle) ==> s.caller.Returned?
  {
    hide OwnerInv, CallerInv, VerdictInv, ErrorInv;
  }

  /** Over every run: the channel lasts until the future or the handle is dropped, the stop
      flag is set by dropping a server's handle, and the waker's signal and the arrival are
      those of the steps that made them. */
  lemma {:induction false} FlagsAreSteps(kind: Kind, steps: seq<Step>)
    requires Legal(kind, steps)
    ensures var s := Exec(kind, steps);
      && (s.linked <==> Abandon !in steps && DropHandle !in steps)
      && (s.stop <==> kind.Serve? && DropHandle in steps)
      && (s.signal <==> Signalled(steps)) && (s.arrived <==> Arrived(steps))
  {
    hide Apply, Enabled, Inv;
    if steps != [] {
      var front, last := steps[..|steps| - 1], steps[|steps| - 1];
      FlagsAreSteps(kind, front);
      RunKeeps(kind, front);
      assert steps == front + [last];
      NotStopped(Exec(kind, front));
      FlagsStep(Exec(kind, front), last);
    }
  }

  ghost predicate PartingsFollow(s: State, step: Step, t: State) {
    && (t.caller.Abandoned? <==> s.caller.Abandoned? || step == Abandon)
    && (Gone(t.caller) <==> Gone(s.caller) || step == DropHandle)
  }

  lemma SpawnStep(s: State, step: Step)
    requires Inv(s) && Enabled(s, step)
    ensures SpawnFollows(s, step, Apply(s, step))
  {
    if OfLoop(step) || step.Leave? {
      LoopTurns(s, step);
      hide Apply, Enabled, Inv;
    } else {
      UnspawnedCaller(s);
      hide Inv, Stages, Holds, Told, Looping, SenderGone;
    }
  }

  lemma UnspawnedCaller(s: State)
    requires Inv(s)
    ensures s.owner.Unspawned?
            <==> s.caller.MakingWaker? || s.caller.Spawning? || (s.caller.Returned? && s.verdict.Unsent?)
    ensures s.owner.Unspawned? && s.caller.Returned? ==> s.caller.r.Err?
  {
    hide OwnerInv, VerdictInv, TellInv, ErrorInv;
  }

  lemma PartingsStep(s: State, step: Step)
    requires Enabled(s, step)
    ensures PartingsFollow(s, step, Apply(s, step))
  {
    if OfLoop(step) || step.Leave? {
      LoopTurns(s, step);
      hide Apply, Enabled;
    } else {
      hide Stages, Holds, Told, Looping, SenderGone;
    }
  }

  /** Over every run: there is a thread exactly when it was spawned, the future was dropped
      exactly when the run says so, and a handle exactly when the run dropped one. */
  lemma {:induction false} PartingsAreSteps(kind: Kind, steps: seq<Step>)
    requires Legal(kind, steps)
    ensures var s := Exec(kind, steps);
      && (s.owner.Unspawned? <==> Spawn(true) !in steps)
      && (s.owner.Unspawned? && s.caller.Returned? <==> NotSpawned(steps))
      && (s.caller.Abandoned? <==> Abandon in steps)
      && (Gone(s.caller) <==> DropHandle in steps)
  {
    hide Apply, Enabled, Inv, Gone;
    if steps == [] {
      StartsPresent(kind);
    } else {
      var front, last := steps[..|steps| - 1], steps[|steps| - 1];
      PartingsAreSteps(kind, front);
      RunKeeps(kind, front);
      assert steps == front + [last];
      SpawnStep(Exec(kind, front), last);
      PartingsStep(Exec(kind, front), last);
    }
  }

  lemma StartsPresent(kind: Kind)
    ensures var s := Init(kind); s.owner.Unspawned? && !s.caller.Returned? && !s.caller.Abandoned? && !Gone(s.caller)
  {
  }

  // What the caller is told

  /** The stages of each kind of owner, in order. */
  predicate EveryStage(kind: Kind, passed: seq<Stage>) {
    match kind
    case Serve(true) => passed == [Build, AttachDht, ReadInfo]
    case Serve(false) => passed == [Build, ReadInfo]
    case Connect => passed == [Build]
    case Stream => passed == [Build, OpenStream, ReadResponse]
  }

  lemma StagesAreEvery(kind: Kind)
    ensures EveryStage(kind, Stages(kind))
  {
  }

  /** A caller is given its handle exactly when every start-up call of its kind was made, in
      order, and succeeded; otherwise it is given the error of the call that failed, or
      Internal exactly when there was no waker or no thread. */
  lemma ReturnsTheOutcome(kind: Kind, steps: seq<Step>)
    requires Legal(kind, steps) && Exec(kind, steps).caller.Returned?
    ensures var r := Exec(kind, steps).caller.r;
      && (r.Ok? ==> EveryStage(kind, Exec(kind, steps).passed) && (forall e :: !FailedWith(steps, e)))
      && (r.Ok? <==> Passes(steps) == |Stages(kind)|)
      && (forall e :: r == Err(e) <==> FailedWith(steps, e) || (e == Internal && NotSpawned(steps)))
  {
    StagesAreSteps(kind, steps);
    PartingsAreSteps(kind, steps);
    StagesAreEvery(kind);
    RunKeeps(kind, steps);
    OutcomeOf(Exec(kind, steps));
    hide Inv, Exec, Legal, Stages, EveryStage, FailedWith, NotSpawned;
    assert Stages(kind)[..|Stages(kind)|] == Stages(kind);
  }

  /** Returned, by what is recorded. */
  lemma OutcomeOf(s: State)
    requires Inv(s) && s.caller.Returned?
    ensures s.caller.r.Ok? ==> s.passed == Stages(s.kind) && !s.owner.Unspawned?
    ensures s.caller.r.Err? && !s.owner.Unspawned? ==> s.failed == Some(s.caller.r.error)
    ensures s.owner.Unspawned? ==> s.caller.r == Err(Internal) && s.passed == []
  {
    hide VerdictInv, TellInv, Handles, Stages;
  }

  // Why an owner leaves

  /** Nothing failed, and the owner is past its loop or never entered it. */
  predicate HasLeft(s: State) {
    s.failed.None? && (s.owner.Releasing? || s.owner.Finished?)
  }

  /** It was told, or found nobody to send its verdict to. */
  predicate Dismissed(s: State) {
    Told(s) || (s.caller.Abandoned? && s.verdict.Unsent?)
  }

  /** A stream's thread that has its last item in hand. */
  predicate AtLast(owner: Owner) {
    owner.Sending? && !owner.load.Chunk?
  }

  predicate Through(owner: Owner) {
    owner.Releasing? || owner.Finished?
  }

  ghost predicate LeavingFollows(s: State, step: Step, t: State) {
    && (HasLeft(t) ==> HasLeft(s) || Dismissed(t) || step == Leave || AtLast(s.owner))
    && (HasLeft(s) && Dismissed(s) ==> Dismissed(t))
    && (AtLast(t.owner) ==> AtLast(s.owner) || IsLast(step))
    && (AtLast(s.owner) || IsLast(step) ==> AtLast(t.owner) || Through(t.owner))
    && (Through(s.owner) || step == Leave ==> Through(t.owner))
  }

  lemma LeavingStep(s: State, step: Step)
    requires Inv(s) && Enabled(s, step)
    requires s.failed.Some? ==> !s.owner.Working? && !s.owner.Ready? && !s.owner.Unspawned?
    ensures LeavingFollows(s, step, Apply(s, step))
  {
    hide OwnerInv, Handles, Stages, Holds;
  }

  /** Over every run, an owner that started up and leaves has a reason in the run: its own
      tick or connection failed, it was told, nobody was there for its verdict, or a
      stream's read brought the last item. After a failed tick or a last item there is no
      further turn of the loop but to send that item. */
  lemma {:induction false} LeavesForCause(kind: Kind, steps: seq<Step>)
    requires Legal(kind, steps)
    ensures var s := Exec(kind, steps);
      && (HasLeft(s) ==> Leave in steps || Dismissed(s) || SawLast(steps))
      && (AtLast(s.owner) ==> SawLast(steps))
      && (SawLast(steps) ==> AtLast(s.owner) || Through(s.owner))
      && (Leave in steps ==> Through(s.owner))
  {
    hide Apply, Enabled, Inv, HasLeft, Dismissed, AtLast, SawLast, IsLast, Building, Through;
    if steps == [] {
      NotLeft(kind);
    } else {
      var front, last := steps[..|steps| - 1], steps[|steps| - 1];
      LeavesForCause(kind, front);
      RunKeeps(kind, front);
      StagesAreSteps(kind, front);
      assert steps == front + [last];
      SawLastNext(front, last);
      LeavingStep(Exec(kind, front), last);
    }
  }

  lemma NotLeft(kind: Kind)
    ensures !HasLeft(Init(kind)) && !AtLast(Init(kind).owner) && !SawLast([])
  {
  }

  // The release

  function Releases(steps: seq<Step>): nat {
    if steps == [] then 0 else Releases(steps[..|steps| - 1]) + One(steps[|steps| - 1].Release?)
  }

  /** What one step does to the handles. */
  ghost predicate ReleaseFollows(s: State, step: Step, t: State) {
    && (step.Release? && s.live != [] ==> t.live == s.live[..|s.live| - 1] && !t.owner.Finished?)
    && (step.Release? && s.live == [] ==> t.live == [] && t.owner.Finished?)
    && (step.Release? ==> t.passed == s.passed && !s.owner.Finished?)
    && (!step.Release? ==>
          |t.live| - |s.live| == |Handles(t.passed)| - |Handles(s.passed)| && t.owner.Finished? == s.owner.Finished?)
  }

  lemma HandsOver(s: State)
    requires Inv(s) && s.owner.Working?
    ensures |s.passed| < |Stages(s.kind)|
    ensures var stage := Stages(s.kind)[|s.passed|];
      Handles(s.passed + [stage]) == Handles(s.passed) + if Holds(stage) then [stage] else []
  {
    HandlesNext(s.passed, Stages(s.kind)[|s.passed|]);
    hide Stages, Handles, Holds, CallerInv, VerdictInv, ErrorInv, TellInv;
  }

  lemma ReleaseStep(s: State, step: Step)
    requires Inv(s) && Enabled(s, step)
    ensures ReleaseFollows(s, step, Apply(s, step))
  {
    hide Apply, Inv, Enabled, Handles, Stages;
    WorksWhen(s, step);
    match step {
      case DoStage(failure) =>
        StageKeepsHandles(s, failure);
      case Release =>
        ReleaseTakesOne(s);
      case _ => RecordKept(s, step);
    }
  }

  lemma StageKeepsHandles(s: State, failure: Option<Error>)
    requires Inv(s) && s.owner.Working?
    ensures ReleaseFollows(s, DoStage(failure), Apply(s, DoStage(failure)))
  {
    HandsOver(s);
    hide Inv, Stages, Handles, Holds;
  }

  lemma ReleaseTakesOne(s: State)
    requires s.owner.Releasing?
    ensures ReleaseFollows(s, Release, Apply(s, Release))
  {
    hide Handles;
  }

  /** Over every run each release drops exactly one handle, the newest, and one more ends
      the thread. */
  lemma {:induction false} OneByOne(kind: Kind, steps: seq<Step>)
    requires Legal(kind, steps)
    ensures var s := Exec(kind, steps);
      |s.live| + Releases(steps) == |Handles(s.passed)| + One(s.owner.Finished?)
  {
    hide Apply, Enabled, Inv, Handles;
    if steps == [] {
      NothingHeld(kind);
    } else {
      var front := steps[..|steps| - 1];
      OneByOne(kind, front);
      RunKeeps(kind, front);
      ReleaseStep(Exec(kind, front), steps[|steps| - 1]);
    }
  }

  lemma NothingHeld(kind: Kind)
    ensures Init(kind).live == Handles(Init(kind).passed) && !Init(kind).owner.Finished?
  {
  }
}
