/** The start-up handshake shared by `serve`, `connect_async` and `stream`: a caller spawns
    an owner thread, which builds its native handles stage by stage and sends one verdict. */
module Startup {
  import opened Wire

  datatype Kind = Serve(dht: bool) | Connect | Stream

  /** What the owner does before it is ready, in order. */
  datatype Stage = Build | AttachDht | ReadInfo | OpenStream | ReadResponse

  function Stages(kind: Kind): seq<Stage> {
    match kind
    case Serve(dht) => if dht then [Build, AttachDht, ReadInfo] else [Build, ReadInfo]
    case Connect => [Build]
    case Stream => [Build, OpenStream, ReadResponse]
  }

  /** The stages whose success leaves a native handle to release: a response is one too. */
  predicate Holds(stage: Stage) {
    stage.Build? || stage.AttachDht? || stage.OpenStream? || stage.ReadResponse?
  }

  datatype Verdict = Unsent | Sent(r: Result<()>) | Taken

  /** What a stream's thread has for its channel: a chunk, one that was the last, a verdict. */
  datatype Load = Chunk | LastChunk | Final

  /** Past the ready point the owner loops. A server or a connection looks at the top whether
      it has been told to leave (Running), if not it works (Checked) and then waits (Asleep).
      A stream goes from the top straight into its native read (Asleep), and sends what that
      brought (Sending). A releasing owner drops its handles, last one first. */
  datatype Owner =
    | Unspawned
    | Working
    | Failing(error: Error)
    | Ready
    | Running
    | Checked
    | Asleep
    | Sending(load: Load)
    | Releasing
    | Finished

  datatype Caller =
    | MakingWaker
    | Spawning
    | Awaiting
    | Joining(error: Error)
    | Returned(r: Result<()>)
    | Dropping
    | Dropped
    | Abandoned

  datatype State = State(
    kind: Kind,
    caller: Caller,
    owner: Owner,
    verdict: Verdict,
    sends: nat,        // verdicts put in the slot
    passed: seq<Stage>, // stages that succeeded
    live: seq<Stage>,  // native handles held, oldest first
    failed: Option<Error>, // what the stage that failed reported
    linked: bool,      // the caller's half of the channel exists
    stop: bool,        // the server's stop flag
    signal: bool,      // the connection's waker
    arrived: bool)     // the stream's next native read has something to return

  function Init(kind: Kind): State {
    State(kind, if kind.Connect? then MakingWaker else Spawning, Unspawned, Unsent, 0, [], [], None,
          true, false, false, false)
  }

  datatype Cause = ByWaker | ByTimer | BySocket

  datatype Step =
    | MakeWaker(ok: bool)
    | Spawn(ok: bool)
    | Receive
    | Join
    | Abandon
    | DropHandle
    | WakeOwner
    | DoStage(failure: Option<Error>)
    | SendError
    | SendReady
    | Check
    | Leave
    | Doze
    | Rouse(cause: Cause)
    | Arrive
    | Read(got: Option<Load>, more: bool)
    | Deliver
    | Release

  /** Which way a looping owner learns that nobody is left: a server only by its flag, a
      connection by its command channel, a stream by its chunk channel. */
  predicate Told(s: State) {
    if s.kind.Serve? then s.stop else !s.linked
  }

  predicate Looping(owner: Owner) {
    owner.Running? || owner.Checked? || owner.Asleep? || owner.Sending?
  }

  predicate Enabled(s: State, step: Step) {
    match step
    case MakeWaker(_) => s.caller.MakingWaker?
    case Spawn(_) => s.caller.Spawning?
    // A slot whose sender is gone unused also wakes the caller.
    case Receive => s.caller.Awaiting? && (s.verdict.Sent? || SenderGone(s))
    case Join => s.caller.Joining? && s.owner.Finished?
    case Abandon => s.caller.Awaiting?
    case DropHandle => s.caller.Returned? && s.caller.r.Ok?
    case WakeOwner => s.caller.Dropping?
    case DoStage(_) => s.owner.Working?
    case SendError => s.owner.Failing?
    case SendReady => s.owner.Ready?
    case Check => s.owner.Running? && !s.kind.Stream?
    // a failed tick, a dead connection
    case Leave => s.owner.Checked?
    case Doze => if s.kind.Stream? then s.owner.Running? else s.owner.Checked?
    case Rouse(cause) => s.owner.Asleep? && !s.kind.Stream? && (cause.ByWaker? ==> s.signal)
    case Arrive => s.kind.Stream? && Looping(s.owner)
    // a blocking read: it has no timer and no waker
    case Read(_, _) => s.owner.Asleep? && s.kind.Stream? && s.arrived
    case Deliver => s.owner.Sending?
    case Release => s.owner.Releasing?
  }

  predicate SenderGone(s: State) {
    s.verdict.Unsent? && (Looping(s.owner) || s.owner.Releasing? || s.owner.Finished?)
  }

  /** A send fails, and changes nothing, when the receiver is gone. */
  function Post(s: State, r: Result<()>): State {
    if s.caller.Abandoned? then s else s.(verdict := Sent(r), sends := s.sends + 1)
  }

  function Apply(s: State, step: Step): State
    requires Enabled(s, step)
  {
    match step
    case MakeWaker(ok) => s.(caller := if ok then Spawning else Returned(Err(Internal)))
    case Spawn(ok) =>
      if ok then s.(caller := Awaiting, owner := Working) else s.(caller := Returned(Err(Internal)))
    case Receive =>
      if !s.verdict.Sent? then s.(caller := Joining(Internal))
      else
        (match s.verdict.r
         case Ok(_) => s.(caller := Returned(Ok(())), verdict := Taken)
         case Err(e) => s.(caller := Joining(e), verdict := Taken))
    case Join => s.(caller := Returned(Err(s.caller.error)))
    // the locals of a dropped future go: its channel half, not its stop flag's value
    case Abandon => s.(caller := Abandoned, linked := false)
    // `RunningServer` sets stop; `AsyncClient` drops its sender and then wakes
    case DropHandle =>
      s.(linked := false, stop := s.kind.Serve?, caller := if s.kind.Connect? then Dropping else Dropped)
    case WakeOwner => s.(signal := true, caller := Dropped)
    case DoStage(failure) =>
      if failure.Some? then s.(owner := Failing(failure.value), failed := failure)
      else if |s.passed| < |Stages(s.kind)| then
        var stage := Stages(s.kind)[|s.passed|];
        var passed := s.passed + [stage];
        s.(passed := passed, live := if Holds(stage) then s.live + [stage] else s.live,
           owner := if |passed| == |Stages(s.kind)| then Ready else Working)
      else s.(owner := Ready)
    case SendError => Post(s, Err(s.owner.error)).(owner := Releasing)
    case SendReady => Post(s, Ok(())).(owner := if s.caller.Abandoned? then Releasing else Running)
    case Check => s.(owner := if Told(s) then Releasing else Checked)
    case Leave => s.(owner := Releasing)
    case Doze => s.(owner := Asleep)
    case Rouse(_) => s.(owner := Running, signal := false)
    case Arrive => s.(arrived := true)
    case Read(got, more) =>
      if got.None? then s.(owner := Running) else s.(owner := Sending(got.value), arrived := more)
    // only here does a stream's thread find its channel closed
    case Deliver =>
      s.(owner := if !s.linked || s.owner.load.Final? then Releasing
                  else if s.owner.load.LastChunk? then Sending(Final) else Running)
    case Release =>
      if s.live == [] then s.(owner := Finished) else s.(live := s.live[..|s.live| - 1])
  }

  /** The turns of a serving loop, which no handshake bounds. */
  predicate OfLoop(step: Step) {
    step.Check? || step.Doze? || step.Rouse? || step.Arrive? || step.Read? || step.Deliver?
  }

  predicate ByCaller(step: Step) {
    || step.MakeWaker? || step.Spawn? || step.Receive? || step.Join? || step.Abandon?
    || step.DropHandle? || step.WakeOwner?
  }

  predicate Legal(kind: Kind, steps: seq<Step>)
    decreases |steps|, 0
  {
    steps == []
    || (Legal(kind, steps[..|steps| - 1])
        && Enabled(Exec(kind, steps[..|steps| - 1]), steps[|steps| - 1]))
  }

  function Exec(kind: Kind, steps: seq<Step>): State
    requires Legal(kind, steps)
    decreases |steps|, 1
  {
    if steps == [] then Init(kind)
    else Apply(Exec(kind, steps[..|steps| - 1]), steps[|steps| - 1])
  }

  // The invariant

  /** The handles the first `passed` stages leave, oldest first. */
  function Handles(passed: seq<Stage>): seq<Stage> {
    if passed == [] then []
    else
      var front, stage := passed[..|passed| - 1], passed[|passed| - 1];
      Handles(front) + if Holds(stage) then [stage] else []
  }

  predicate Building(owner: Owner) {
    owner.Unspawned? || owner.Working? || owner.Failing? || owner.Ready?
  }

  predicate Gone(caller: Caller) {
    caller.Dropping? || caller.Dropped?
  }

  predicate OwnerInv(kind: Kind, owner: Owner, passed: seq<Stage>, live: seq<Stage>) {
    && passed <= Stages(kind)
    && live <= Handles(passed)
    && (Building(owner) || Looping(owner) ==> live == Handles(passed))
    && (owner.Working? ==> |passed| < |Stages(kind)|)
    && (owner.Ready? || Looping(owner) ==> passed == Stages(kind))
    && (owner.Unspawned? ==> passed == [])
    && (owner.Finished? ==> live == [])
  }

  predicate CallerInv(kind: Kind, caller: Caller, owner: Owner, verdict: Verdict, passed: seq<Stage>) {
    && (owner.Unspawned? <==> caller.MakingWaker? || caller.Spawning? || (caller.Returned? && verdict.Unsent?))
    && (owner.Unspawned? && caller.Returned? ==> caller.r == Err(Internal))
    && (caller.Joining? ==> verdict.Taken?)
    && (verdict.Taken? ==> caller.Joining? || caller.Returned? || Gone(caller))
    && (Gone(caller) ==> verdict.Taken? && passed == Stages(kind))
    && (caller.Returned? && caller.r.Ok? ==> verdict.Taken? && passed == Stages(kind))
    && (caller.Joining? ==> owner.Releasing? || owner.Finished?)
    && (caller.Returned? && caller.r.Err? && !owner.Unspawned? ==> owner.Finished?)
  }

  predicate VerdictInv(kind: Kind, caller: Caller, owner: Owner, verdict: Verdict, sends: nat, passed: seq<Stage>) {
    && sends == (if verdict.Unsent? then 0 else 1)
    && (Building(owner) ==> verdict.Unsent?)
    && (verdict.Sent? && verdict.r.Ok? ==> passed == Stages(kind))
    && (verdict.Sent? && verdict.r.Err? ==> owner.Releasing? || owner.Finished?)
    && (Looping(owner) ==> !verdict.Unsent?)
    && (!Building(owner) && verdict.Unsent? ==> caller.Abandoned?)
  }

  /** What the caller's side has said, and by which means. */
  predicate TellInv(s: State) {
    && (s.linked <==> !s.caller.Abandoned? && !Gone(s.caller))
    && (s.stop <==> s.kind.Serve? && s.caller.Dropped?)
    && (s.caller.Dropping? ==> s.kind.Connect?)
    && (s.signal ==> s.kind.Connect? && s.caller.Dropped?)
    && (s.kind.Connect? && s.caller.Dropped? && (s.owner.Checked? || s.owner.Asleep?) ==> s.signal)
    && (s.owner.Checked? ==> !s.kind.Stream?)
    && (s.owner.Sending? || s.arrived ==> s.kind.Stream?)
  }

  predicate ErrorInv(caller: Caller, owner: Owner, verdict: Verdict, failed: Option<Error>) {
    && (owner.Failing? ==> failed == Some(owner.error))
    && (verdict.Sent? && verdict.r.Err? ==> failed == Some(verdict.r.error))
    && (caller.Joining? ==> failed == Some(caller.error))
    && (caller.Returned? && caller.r.Err? && !owner.Unspawned? ==> failed == Some(caller.r.error))
  }

  predicate Inv(s: State) {
    && OwnerInv(s.kind, s.owner, s.passed, s.live)
    && CallerInv(s.kind, s.caller, s.owner, s.verdict, s.passed)
    && VerdictInv(s.kind, s.caller, s.owner, s.verdict, s.sends, s.passed)
    && ErrorInv(s.caller, s.owner, s.verdict, s.failed)
    && TellInv(s)
  }

  lemma HandlesNext(passed: seq<Stage>, stage: Stage)
    ensures Handles(passed + [stage]) == Handles(passed) + if Holds(stage) then [stage] else []
  {
    assert (passed + [stage])[..|passed|] == passed;
  }

  lemma StageNext(kind: Kind, passed: seq<Stage>)
    requires passed <= Stages(kind) && |passed| < |Stages(kind)|
    ensures passed + [Stages(kind)[|passed|]] <= Stages(kind)
  {
    hide Stages;
  }

  lemma StagePassed(kind: Kind, passed: seq<Stage>, live: seq<Stage>)
    requires OwnerInv(kind, Working, passed, live)
    ensures |passed| < |Stages(kind)|
    ensures var stage := Stages(kind)[|passed|];
      OwnerInv(kind, if |passed| + 1 == |Stages(kind)| then Ready else Working, passed + [stage],
               if Holds(stage) then live + [stage] else live)
  {
    hide Stages, Handles, Holds;
    var stage := Stages(kind)[|passed|];
    StageNext(kind, passed);
    HandlesNext(passed, stage);
    assert |passed + [stage]| == |Stages(kind)| ==> passed + [stage] == Stages(kind);
  }

  lemma StageFails(kind: Kind, passed: seq<Stage>, live: seq<Stage>, e: Error)
    requires OwnerInv(kind, Working, passed, live)
    ensures OwnerInv(kind, Failing(e), passed, live)
  {
    hide Stages, Handles;
  }

  lemma StageKeeps(s: State, failure: Option<Error>)
    requires OwnerInv(s.kind, s.owner, s.passed, s.live) && s.owner.Working?
    ensures var t := Apply(s, DoStage(failure)); OwnerInv(t.kind, t.owner, t.passed, t.live)
  {
    hide OwnerInv, Stages, Handles, Holds;
    StagePassed(s.kind, s.passed, s.live);
    if failure.Some? {
      StageFails(s.kind, s.passed, s.live, failure.value);
    }
  }

  lemma SpawnKeeps(kind: Kind, owner: Owner, passed: seq<Stage>, live: seq<Stage>)
    requires OwnerInv(kind, owner, passed, live) && owner.Unspawned?
    ensures OwnerInv(kind, Working, passed, live)
  {
  }

  lemma TurnKeeps(kind: Kind, owner: Owner, owner': Owner, passed: seq<Stage>, live: seq<Stage>)
    requires OwnerInv(kind, owner, passed, live)
    requires owner'.Releasing? || (Looping(owner') && (owner.Ready? || Looping(owner)))
    ensures OwnerInv(kind, owner', passed, live)
  {
    hide Handles, Stages;
  }

  lemma ReleaseKeeps(s: State)
    requires OwnerInv(s.kind, s.owner, s.passed, s.live) && s.owner.Releasing?
    ensures var t := Apply(s, Release); OwnerInv(t.kind, t.owner, t.passed, t.live)
  {
    hide Handles, Stages;
  }

  lemma OwnerKeeps(s: State, step: Step)
    requires Inv(s) && Enabled(s, step)
    ensures var t := Apply(s, step); OwnerInv(t.kind, t.owner, t.passed, t.live)
  {
    SpawningUnspawned(s);
    hide OwnerInv, Handles, Stages, CallerInv, VerdictInv, ErrorInv, TellInv, Told;
    match step {
      case DoStage(failure) => StageKeeps(s, failure);
      case Spawn(ok) => SpawnKeeps(s.kind, s.owner, s.passed, s.live);
      case Release => ReleaseKeeps(s);
      case SendError | SendReady | Check | Leave | Doze | Rouse(_) | Read(_, _) | Deliver =>
        TurnKeeps(s.kind, s.owner, Apply(s, step).owner, s.passed, s.live);
      case _ =>
    }
  }

  lemma SpawningUnspawned(s: State)
    requires Inv(s)
    ensures s.caller.Spawning? ==> s.owner.Unspawned?
  {
    hide OwnerInv, VerdictInv, ErrorInv, TellInv, Stages;
  }

  /** A turn of the loop changes the owner alone, within the loop or out of it. */
  lemma LoopTurns(s: State, step: Step)
    requires Enabled(s, step) && (OfLoop(step) || step.Leave?)
    ensures var t := Apply(s, step);
      && t == s.(owner := t.owner, signal := t.signal, arrived := t.arrived)
      && Looping(s.owner) && (Looping(t.owner) || t.owner.Releasing?)
  {
    hide Told;
  }

  lemma LoopKeeps(s: State, step: Step)
    requires Inv(s) && Enabled(s, step) && (OfLoop(step) || step.Leave?)
    ensures var t := Apply(s, step);
      && CallerInv(t.kind, t.caller, t.owner, t.verdict, t.passed)
      && VerdictInv(t.kind, t.caller, t.owner, t.verdict, t.sends, t.passed)
      && ErrorInv(t.caller, t.owner, t.verdict, t.failed)
  {
    LoopTurns(s, step);
    hide Apply, Enabled, OwnerInv, TellInv, Stages;
  }

  // The caller's own steps

  lemma SpawnsKeep(s: State, step: Step)
    requires Inv(s) && Enabled(s, step) && (step.MakeWaker? || step.Spawn?)
    ensures var t := Apply(s, step);
      && CallerInv(t.kind, t.caller, t.owner, t.verdict, t.passed)
      && VerdictInv(t.kind, t.caller, t.owner, t.verdict, t.sends, t.passed)
      && ErrorInv(t.caller, t.owner, t.verdict, t.failed)
  {
    hide Stages, Handles, OwnerInv, TellInv;
  }

  lemma ReceiptsKeep(s: State, step: Step)
    requires Inv(s) && Enabled(s, step) && (step.Receive? || step.Join?)
    ensures var t := Apply(s, step);
      && CallerInv(t.kind, t.caller, t.owner, t.verdict, t.passed)
      && VerdictInv(t.kind, t.caller, t.owner, t.verdict, t.sends, t.passed)
      && ErrorInv(t.caller, t.owner, t.verdict, t.failed)
  {
    hide Stages, Handles, OwnerInv, TellInv;
  }

  lemma PartingsKeep(s: State, step: Step)
    requires Inv(s) && Enabled(s, step) && (step.Abandon? || step.DropHandle? || step.WakeOwner?)
    ensures var t := Apply(s, step);
      && CallerInv(t.kind, t.caller, t.owner, t.verdict, t.passed)
      && VerdictInv(t.kind, t.caller, t.owner, t.verdict, t.sends, t.passed)
      && ErrorInv(t.caller, t.owner, t.verdict, t.failed)
  {
    hide Stages, Handles, OwnerInv, TellInv;
  }

  lemma CallersKeep(s: State, step: Step)
    requires Inv(s) && Enabled(s, step) && ByCaller(step)
    ensures var t := Apply(s, step);
      && CallerInv(t.kind, t.caller, t.owner, t.verdict, t.passed)
      && VerdictInv(t.kind, t.caller, t.owner, t.verdict, t.sends, t.passed)
      && ErrorInv(t.caller, t.owner, t.verdict, t.failed)
  {
    hide Inv, Enabled, Apply, CallerInv, VerdictInv, ErrorInv;
    if step.MakeWaker? || step.Spawn? {
      SpawnsKeep(s, step);
    } else if step.Receive? || step.Join? {
      ReceiptsKeep(s, step);
    } else {
      PartingsKeep(s, step);
    }
  }

  // The owner's steps up to its ready point, and its release

  lemma StagesKeep(s: State, step: Step)
    requires Inv(s) && Enabled(s, step) && (step.DoStage? || step.Release?)
    ensures var t := Apply(s, step);
      && CallerInv(t.kind, t.caller, t.owner, t.verdict, t.passed)
      && VerdictInv(t.kind, t.caller, t.owner, t.verdict, t.sends, t.passed)
      && ErrorInv(t.caller, t.owner, t.verdict, t.failed)
  {
    hide Stages, Handles, OwnerInv, TellInv, Holds;
  }

  lemma PostsKeep(s: State, step: Step)
    requires Inv(s) && Enabled(s, step) && (step.SendError? || step.SendReady?)
    ensures var t := Apply(s, step);
      && CallerInv(t.kind, t.caller, t.owner, t.verdict, t.passed)
      && VerdictInv(t.kind, t.caller, t.owner, t.verdict, t.sends, t.passed)
      && ErrorInv(t.caller, t.owner, t.verdict, t.failed)
  {
    hide Stages, Handles, TellInv;
  }

  lemma OwnersKeep(s: State, step: Step)
    requires Inv(s) && Enabled(s, step) && !ByCaller(step) && !OfLoop(step) && !step.Leave?
    ensures var t := Apply(s, step);
      && CallerInv(t.kind, t.caller, t.owner, t.verdict, t.passed)
      && VerdictInv(t.kind, t.caller, t.owner, t.verdict, t.sends, t.passed)
      && ErrorInv(t.caller, t.owner, t.verdict, t.failed)
  {
    hide Inv, Enabled, Apply, CallerInv, VerdictInv, ErrorInv;
    if step.DoStage? || step.Release? {
      StagesKeep(s, step);
    } else {
      PostsKeep(s, step);
    }
  }

  lemma TellKeeps(s: State, step: Step)
    requires Inv(s) && Enabled(s, step)
    ensures TellInv(Apply(s, step))
  {
    hide Stages, Handles, OwnerInv, ErrorInv;
  }

  lemma KindKept(s: State, step: Step)
    requires Enabled(s, step)
    ensures Apply(s, step).kind == s.kind
  {
    hide Stages, Told, Holds;
  }

  lemma InvKeeps(s: State, step: Step)
    requires Inv(s) && Enabled(s, step)
    ensures Inv(Apply(s, step)) && Apply(s, step).kind == s.kind
  {
    OwnerKeeps(s, step);
    TellKeeps(s, step);
    KindKept(s, step);
    if OfLoop(step) || step.Leave? {
      LoopKeeps(s, step);
    } else if ByCaller(step) {
      CallersKeep(s, step);
    } else {
      OwnersKeep(s, step);
    }
    hide OwnerInv, CallerInv, VerdictInv, ErrorInv, TellInv, Apply, Enabled, OfLoop, ByCaller;
  }

  lemma {:induction false} RunKeeps(kind: Kind, steps: seq<Step>)
    requires Legal(kind, steps)
    ensures Inv(Exec(kind, steps)) && Exec(kind, steps).kind == kind
  {
    hide OwnerInv, CallerInv, VerdictInv, ErrorInv, TellInv, Apply;
    if steps == [] {
      InitInv(kind);
    } else {
      var front := steps[..|steps| - 1];
      RunKeeps(kind, front);
      InvKeeps(Exec(kind, front), steps[|steps| - 1]);
    }
  }

  lemma InitInv(kind: Kind)
    ensures Inv(Init(kind))
  {
  }

  // Results over every run

  /** At most one verdict is ever sent, and the branch for a sender gone without one is
      never taken. */
  lemma OneVerdict(kind: Kind, steps: seq<Step>)
    requires Legal(kind, steps)
    ensures Exec(kind, steps).sends <= 1
    ensures Exec(kind, steps).caller.Awaiting? ==> !SenderGone(Exec(kind, steps))
  {
    RunKeeps(kind, steps);
  }

  /** An error is returned either as Internal before anything was spawned, or as what the
      failed stage reported, after the owner thread ended and released every handle. */
  lemma ErrorMeansReleased(kind: Kind, steps: seq<Step>)
    requires Legal(kind, steps) && Exec(kind, steps).caller.Returned? && Exec(kind, steps).caller.r.Err?
    ensures var s := Exec(kind, steps);
            if s.owner.Unspawned? then s.passed == s.live == [] && s.caller.r == Err(Internal)
            else s.owner.Finished? && s.live == [] && s.failed == Some(s.caller.r.error)
  {
    RunKeeps(kind, steps);
  }

  /** Success is returned only once every stage succeeded, in order, and the owner sent its
      ready verdict. */
  lemma OkMeansReady(kind: Kind, steps: seq<Step>)
    requires Legal(kind, steps) && Exec(kind, steps).caller.Returned? && Exec(kind, steps).caller.r.Ok?
    ensures Exec(kind, steps).passed == Stages(kind) && Exec(kind, steps).sends == 1
    ensures !Building(Exec(kind, steps).owner)
  {
    RunKeeps(kind, steps);
  }

  /** The handles held are always the oldest ones built, so each is released before those
      it was built on; none outlives the owner. */
  lemma ReleasedInReverse(kind: Kind, steps: seq<Step>)
    requires Legal(kind, steps)
    ensures Exec(kind, steps).live <= Handles(Exec(kind, steps).passed)
    ensures Exec(kind, steps).owner.Finished? ==> Exec(kind, steps).live == []
  {
    RunKeeps(kind, steps);
  }

  // The handshake ends

  /** The caller is through, and the owner is serving or done. */
  predicate Settled(s: State) {
    && (s.caller.Returned? || s.caller.Dropped? || s.caller.Abandoned?)
    && (s.owner.Unspawned? || Looping(s.owner) || s.owner.Finished?)
  }

  function CallerRank(c: Caller): nat {
    match c
    case MakingWaker => 6
    case Spawning => 5
    case Awaiting => 4
    case Joining(_) => 3
    case Returned(_) => 2
    case Dropping => 1
    case _ => 0
  }

  function OwnerRank(s: State): nat
    requires |s.passed| <= 3 && |s.live| <= 3
  {
    match s.owner
    case Unspawned => 14
    case Working => 13 - |s.passed|
    case Failing(_) => 7
    case Ready => 7
    case Releasing => 1 + |s.live|
    case Finished => 0
    case _ => 6
  }

  function Rank(s: State): nat
    requires |s.passed| <= 3 && |s.live| <= 3
  {
    CallerRank(s.caller) + OwnerRank(s)
  }

  lemma {:induction false} HandlesBounded(passed: seq<Stage>)
    ensures |Handles(passed)| <= |passed|
  {
    if passed != [] {
      HandlesBounded(passed[..|passed| - 1]);
    }
  }

  lemma Bounded(s: State)
    requires Inv(s)
    ensures |s.passed| <= 3 && |s.live| <= 3
    ensures s.owner.Working? ==> |s.passed| <= 2
    ensures s.caller.Spawning? ==> s.owner.Unspawned?
  {
    SpawningUnspawned(s);
    HandlesBounded(s.passed);
    hide Handles, CallerInv, VerdictInv, ErrorInv, TellInv;
  }

  function One(b: bool): nat {
    if b then 1 else 0
  }

  lemma SpawnRankFalls(s: State, step: Step)
    requires |s.passed| <= 3 && |s.live| <= 3 && Enabled(s, step) && step.Spawn?
    requires s.owner.Working? ==> |s.passed| <= 2
    requires s.caller.Spawning? ==> s.owner.Unspawned?
    requires |Apply(s, step).passed| <= 3 && |Apply(s, step).live| <= 3
    ensures Rank(Apply(s, step)) + One(!OfLoop(step)) <= Rank(s)
  {
    hide Told, Holds, Stages, SenderGone;
  }

  lemma CallerRankFalls(s: State, step: Step)
    requires |s.passed| <= 3 && |s.live| <= 3 && Enabled(s, step) && ByCaller(step) && !step.Spawn?
    requires s.owner.Working? ==> |s.passed| <= 2
    requires s.caller.Spawning? ==> s.owner.Unspawned?
    requires |Apply(s, step).passed| <= 3 && |Apply(s, step).live| <= 3
    ensures Rank(Apply(s, step)) + One(!OfLoop(step)) <= Rank(s)
  {
    hide Told, Holds, Stages, OwnerRank;
    CallerLeavesOwner(s, step);
  }

  lemma CallerLeavesOwner(s: State, step: Step)
    requires |s.passed| <= 3 && |s.live| <= 3 && Enabled(s, step) && ByCaller(step) && !step.Spawn?
    ensures var t := Apply(s, step);
      t.owner == s.owner && t.passed == s.passed && t.live == s.live && OwnerRank(t) == OwnerRank(s)
  {
    hide Told, Holds, Stages;
  }

  lemma LoopRankFalls(s: State, step: Step)
    requires |s.passed| <= 3 && |s.live| <= 3 && Enabled(s, step) && (OfLoop(step) || step.Leave?)
    requires s.owner.Working? ==> |s.passed| <= 2
    requires s.caller.Spawning? ==> s.owner.Unspawned?
    requires |Apply(s, step).passed| <= 3 && |Apply(s, step).live| <= 3
    ensures Rank(Apply(s, step)) + One(!OfLoop(step)) <= Rank(s)
  {
    LoopTurns(s, step);
    hide Apply, Enabled;
  }

  lemma OwnerRankFalls(s: State, step: Step)
    requires |s.passed| <= 3 && |s.live| <= 3 && Enabled(s, step) && !ByCaller(step) && !OfLoop(step) && !step.Leave?
    requires s.owner.Working? ==> |s.passed| <= 2
    requires s.caller.Spawning? ==> s.owner.Unspawned?
    requires |Apply(s, step).passed| <= 3 && |Apply(s, step).live| <= 3
    ensures Rank(Apply(s, step)) + One(!OfLoop(step)) <= Rank(s)
  {
    hide Told, Holds, Stages, SenderGone;
  }

  /** Every step of either side but a turn of the loop brings the handshake nearer its end. */
  lemma StepDescends(s: State, step: Step)
    requires Inv(s) && Enabled(s, step)
    ensures |s.passed| <= 3 && |s.live| <= 3
    ensures var s' := Apply(s, step);
      |s'.passed| <= 3 && |s'.live| <= 3 && Rank(s') + One(!OfLoop(step)) <= Rank(s)
  {
    hide Inv, Apply, Enabled, Rank, OfLoop;
    Bounded(s);
    InvKeeps(s, step);
    Bounded(Apply(s, step));
    if step.Spawn? {
      SpawnRankFalls(s, step);
    } else if ByCaller(step) {
      CallerRankFalls(s, step);
    } else if OfLoop(step) || step.Leave? {
      LoopRankFalls(s, step);
    } else {
      OwnerRankFalls(s, step);
    }
  }

  function Moves(steps: seq<Step>): nat {
    if steps == [] then 0 else Moves(steps[..|steps| - 1]) + One(!OfLoop(steps[|steps| - 1]))
  }

  /** No run has more than 20 steps besides the turns of a serving loop. */
  lemma RunBounded(kind: Kind, steps: seq<Step>)
    requires Legal(kind, steps)
    ensures Moves(steps) <= 20
  {
    RankSpent(kind, steps);
  }

  lemma {:induction false} RankSpent(kind: Kind, steps: seq<Step>)
    requires Legal(kind, steps)
    ensures var s := Exec(kind, steps);
            |s.passed| <= 3 && |s.live| <= 3 && Moves(steps) + Rank(s) <= 20
  {
    hide Inv, Rank, OfLoop;
    RunKeeps(kind, steps);
    Bounded(Exec(kind, steps));
    if steps == [] {
      RankInit(kind);
    } else {
      var front := steps[..|steps| - 1];
      RankSpent(kind, front);
      RunKeeps(kind, front);
      StepDescends(Exec(kind, front), steps[|steps| - 1]);
    }
  }

  lemma RankInit(kind: Kind)
    ensures Rank(Init(kind)) <= 20
  {
  }

  /** Until both sides are settled someone can move: neither waits for the other for ever. */
  lemma NeverStuck(kind: Kind, steps: seq<Step>)
    requires Legal(kind, steps) && !Settled(Exec(kind, steps))
    ensures exists step: Step :: !step.Abandon? && !OfLoop(step) && Enabled(Exec(kind, steps), step)
  {
    RunKeeps(kind, steps);
    var s := Exec(kind, steps);
    var step := match s.owner
      case Working => DoStage(None)
      case Failing(_) => SendError
      case Ready => SendReady
      case Releasing => Release
      case Unspawned => if s.caller.MakingWaker? then MakeWaker(true) else Spawn(true)
      case _ => if s.caller.Joining? then Join else if s.caller.Dropping? then WakeOwner else Receive;
    assert Enabled(s, step);
  }

  // Telling the owner to leave

  /** Runs go on. */
  lemma {:induction false} LegalPrefix(kind: Kind, steps: seq<Step>, n: nat)
    requires Legal(kind, steps) && n <= |steps|
    ensures Legal(kind, steps[..n])
  {
    if n < |steps| {
      LegalPrefix(kind, steps[..|steps| - 1], n);
      assert steps[..|steps| - 1][..n] == steps[..n];
    } else {
      assert steps[..n] == steps;
    }
  }

  lemma GoesOn(kind: Kind, steps: seq<Step>, step: Step)
    requires Legal(kind, steps) && Enabled(Exec(kind, steps), step)
    ensures Legal(kind, steps + [step]) && Exec(kind, steps + [step]) == Apply(Exec(kind, steps), step)
  {
    assert (steps + [step])[..|steps|] == steps;
  }

  /** What only the other end of the network or the native side can bring about. */
  predicate ByPeer(step: Step) {
    step.Leave? || step.Arrive? || step == Rouse(BySocket)
  }

  /** The caller's side can still bring a looping owner to leave: some run goes on to its
      release without the peer doing anything. */
  ghost predicate CanBeMadeToLeave(kind: Kind, steps: seq<Step>)
    requires Legal(kind, steps)
  {
    exists more: seq<Step> ::
      (forall step <- more :: !ByPeer(step)) && Legal(kind, steps + more) && Exec(kind, steps + more).owner.Releasing?
  }

  /** Beyond the reach of the caller's side: a server whose future was dropped, and a stream
      at or in its native read with nothing to return. */
  predicate OutOfReach(s: State) {
    match s.kind
    case Serve(_) => s.caller.Abandoned?
    case Connect => false
    case Stream => !s.owner.Sending? && !s.arrived
  }

  /** Over all runs, an owner past its ready point can be made to leave by the caller's side
      exactly when it is not out of reach. */
  lemma MadeToLeaveIff(kind: Kind, steps: seq<Step>)
    requires Legal(kind, steps) && Looping(Exec(kind, steps).owner)
    ensures CanBeMadeToLeave(kind, steps) <==> !OutOfReach(Exec(kind, steps))
  {
    hide Legal, Exec, Looping, Told, OutOfReach, ByPeer;
    if OutOfReach(Exec(kind, steps)) {
      forall more: seq<Step> | (forall step <- more :: !ByPeer(step)) && Legal(kind, steps + more)
        ensures !Exec(kind, steps + more).owner.Releasing?
      {
        StrandedForEver(kind, steps, more);
        LoopingIsNotReleasing(Exec(kind, steps + more).owner);
      }
    } else {
      var told := TellIt(kind, steps);
      var more := WayOut(kind, steps + told);
      assert steps + told + more == steps + (told + more);
    }
  }

  lemma LoopingIsNotReleasing(owner: Owner)
    requires Looping(owner)
    ensures !owner.Releasing?
  {
  }

  /** What the caller does next towards telling the owner. */
  function TellNext(s: State): Step {
    if s.caller.Awaiting? then Receive else DropHandle
  }

  lemma TellsByItself(s: State)
    ensures !ByPeer(TellNext(s))
  {
  }

  lemma TellStep(s: State)
    requires Inv(s) && Looping(s.owner) && !OutOfReach(s)
    ensures if s.caller.Awaiting? || s.caller.Returned?
            then Enabled(s, TellNext(s))
                 && var t := Apply(s, TellNext(s));
                    Looping(t.owner) && !OutOfReach(t) && CallerRank(t.caller) < CallerRank(s.caller)
            else Told(s)
  {
    hide OwnerInv, ErrorInv, Handles, Stages;
  }

  /** The caller's moves that tell the owner: what is left of receiving the verdict and
      dropping the handle. */
  lemma TellIt(kind: Kind, steps: seq<Step>) returns (more: seq<Step>)
    requires Legal(kind, steps) && Looping(Exec(kind, steps).owner) && !OutOfReach(Exec(kind, steps))
    ensures (forall step <- more :: !ByPeer(step)) && Legal(kind, steps + more)
    ensures Looping(Exec(kind, steps + more).owner) && !OutOfReach(Exec(kind, steps + more))
    ensures Told(Exec(kind, steps + more))
    decreases CallerRank(Exec(kind, steps).caller)
  {
    hide Legal, Exec, Inv, Apply, Enabled, Told, Looping, CallerRank, TellNext, OutOfReach, ByPeer;
    RunKeeps(kind, steps);
    var s := Exec(kind, steps);
    TellStep(s);
    if !s.caller.Awaiting? && !s.caller.Returned? {
      assert steps + [] == steps;
      return [];
    }
    var step := TellNext(s);
    TellsByItself(s);
    GoesOn(kind, steps, step);
    var rest := TellIt(kind, steps + [step]);
    more := [step] + rest;
    assert steps + more == steps + [step] + rest;
  }

  /** A told owner's next step on its way out, and how far it is. */
  function OutNext(s: State): Step {
    match s.owner
    case Checked => Doze
    case Asleep => if s.kind.Stream? then Read(Some(Chunk), false) else Rouse(ByTimer)
    case Sending(_) => Deliver
    case _ => if s.kind.Stream? then Doze else Check
  }

  function OutRank(s: State): nat {
    match s.owner
    case Checked => 3
    case Asleep => 2
    case Sending(_) => 0
    case _ => if s.kind.Stream? then 3 else 1
  }

  lemma OutStep(s: State)
    requires Inv(s) && Looping(s.owner) && Told(s) && !OutOfReach(s)
    ensures Enabled(s, OutNext(s)) && !ByPeer(OutNext(s))
    ensures var t := Apply(s, OutNext(s));
      t.owner.Releasing? || (Looping(t.owner) && Told(t) && !OutOfReach(t) && OutRank(t) < OutRank(s))
  {
    hide OwnerInv, CallerInv, VerdictInv, ErrorInv, Handles, Stages;
  }

  /** The way out of a loop that has been told and is in reach. */
  lemma WayOut(kind: Kind, steps: seq<Step>) returns (more: seq<Step>)
    requires Legal(kind, steps) && Looping(Exec(kind, steps).owner) && Told(Exec(kind, steps))
    requires !OutOfReach(Exec(kind, steps))
    ensures (forall step <- more :: !ByPeer(step)) && Legal(kind, steps + more)
    ensures Exec(kind, steps + more).owner.Releasing?
    decreases OutRank(Exec(kind, steps))
  {
    hide Legal, Exec, Inv, Apply, Enabled, Told, Looping, OutNext, OutRank, OutOfReach, ByPeer;
    RunKeeps(kind, steps);
    var s := Exec(kind, steps);
    OutStep(s);
    var step := OutNext(s);
    GoesOn(kind, steps, step);
    if Exec(kind, steps + [step]).owner.Releasing? {
      return [step];
    }
    var rest := WayOut(kind, steps + [step]);
    more := [step] + rest;
    assert steps + more == steps + [step] + rest;
  }

  /** An owner out of reach loops on in every run in which the peer does nothing. */
  lemma {:induction false} StrandedForEver(kind: Kind, steps: seq<Step>, more: seq<Step>)
    requires Legal(kind, steps) && Legal(kind, steps + more) && forall step <- more :: !ByPeer(step)
    requires Looping(Exec(kind, steps).owner) && OutOfReach(Exec(kind, steps))
    ensures Looping(Exec(kind, steps + more).owner) && OutOfReach(Exec(kind, steps + more))
  {
    hide Inv, Apply, Enabled, Looping, OutOfReach, ByPeer;
    if more == [] {
      assert steps + more == steps;
    } else {
      var front, last := more[..|more| - 1], more[|more| - 1];
      assert (steps + more)[..|steps + more| - 1] == steps + front;
      StrandedForEver(kind, steps, front);
      RunKeeps(kind, steps + front);
      StrandedStep(Exec(kind, steps + front), last);
    }
  }

  lemma StrandedStep(s: State, step: Step)
    requires Inv(s) && Enabled(s, step) && !ByPeer(step) && Looping(s.owner) && OutOfReach(s)
    ensures Looping(Apply(s, step).owner) && OutOfReach(Apply(s, step))
  {
    SpawningUnspawned(s);
    hide OwnerInv, CallerInv, VerdictInv, ErrorInv, Handles, Stages;
  }

  /** What a told owner can do once at most: a server or a connection goes to its wait, a
      stream has a native read that brings something. */
  predicate Delays(kind: Kind, step: Step) {
    if kind.Stream? then step.Read? && step.got.Some? else step.Doze?
  }

  function DelaysIn(kind: Kind, steps: seq<Step>): nat {
    if steps == [] then 0 else DelaysIn(kind, steps[..|steps| - 1]) + One(Delays(kind, steps[|steps| - 1]))
  }

  /** Whether that may still come. */
  predicate MayDelay(s: State) {
    if s.kind.Stream? then s.owner.Running? || s.owner.Asleep? else s.owner.Checked?
  }

  /** A told owner is not told in vain: from then on, in every run, a server or a connection
      goes to its wait at most once more, and only if it had already checked; a stream reads
      anything at most once more, and not at all if it was sending. */
  lemma {:induction false} ToldLeavesSoon(kind: Kind, steps: seq<Step>, more: seq<Step>)
    requires Legal(kind, steps) && Legal(kind, steps + more)
    requires Looping(Exec(kind, steps).owner) && Told(Exec(kind, steps))
    ensures Told(Exec(kind, steps + more)) && !Building(Exec(kind, steps + more).owner)
    ensures DelaysIn(kind, more) + One(MayDelay(Exec(kind, steps + more))) <= One(MayDelay(Exec(kind, steps)))
  {
    hide Inv, Apply, Enabled, MayDelay, Delays, Told, Building;
    RunKeeps(kind, steps);
    LoopingIsBuilt(Exec(kind, steps).owner);
    if more == [] {
      assert steps + more == steps;
    } else {
      var front, last := more[..|more| - 1], more[|more| - 1];
      assert (steps + more)[..|steps + more| - 1] == steps + front;
      ToldLeavesSoon(kind, steps, front);
      RunKeeps(kind, steps + front);
      ToldStep(Exec(kind, steps + front), last);
    }
  }

  lemma LoopingIsBuilt(owner: Owner)
    requires Looping(owner)
    ensures !Building(owner)
  {
  }

  lemma ToldStep(s: State, step: Step)
    requires Inv(s) && Enabled(s, step) && Told(s) && !Building(s.owner)
    ensures var t := Apply(s, step);
      Told(t) && !Building(t.owner) && One(Delays(s.kind, step)) + One(MayDelay(t)) <= One(MayDelay(s))
  {
    hide OwnerInv, VerdictInv, ErrorInv, Handles, Stages;
  }

  /** A sleeping connection whose last sender is gone is woken by its waker exactly when a
      handle was dropped; a dropped future has no handle to wake it with, so its owner
      sleeps on to the timer or the socket. */
  lemma WokenIffHandleDropped(kind: Kind, steps: seq<Step>)
    requires Legal(kind, steps) && kind.Connect?
    requires var s := Exec(kind, steps); s.owner.Asleep? && !s.linked && !s.caller.Dropping?
    ensures Enabled(Exec(kind, steps), Rouse(ByWaker)) <==> !Exec(kind, steps).caller.Abandoned?
    ensures Exec(kind, steps).caller.Abandoned? ==>
      forall step: Step :: Enabled(Exec(kind, steps), step) ==> step == Rouse(ByTimer) || step == Rouse(BySocket)
  {
    RunKeeps(kind, steps);
    var s := Exec(kind, steps);
    SignalWhileAsleep(s);
    hide Legal, Exec, Inv;
    forall step: Step | Enabled(s, step) && s.caller.Abandoned?
      ensures step == Rouse(ByTimer) || step == Rouse(BySocket)
    {
      OnlyRoused(s, step);
    }
  }

  lemma SignalWhileAsleep(s: State)
    requires Inv(s) && s.kind.Connect? && s.owner.Asleep? && !s.linked && !s.caller.Dropping?
    ensures s.signal <==> !s.caller.Abandoned?
    ensures s.caller.Abandoned? || s.caller.Dropped?
  {
    hide OwnerInv, CallerInv, VerdictInv, ErrorInv, Stages;
  }

  lemma OnlyRoused(s: State, step: Step)
    requires s.kind.Connect? && s.owner.Asleep? && s.caller.Abandoned? && !s.signal && Enabled(s, step)
    ensures step == Rouse(ByTimer) || step == Rouse(BySocket)
  {
  }

  /** An abandoned owner is past its ready point only if its verdict was sent first. */
  lemma AbandonedAfterReady(kind: Kind, steps: seq<Step>)
    requires Legal(kind, steps) && Exec(kind, steps).caller.Abandoned? && Looping(Exec(kind, steps).owner)
    ensures Exec(kind, steps).verdict.Sent? && Exec(kind, steps).verdict.r.Ok?
  {
    RunKeeps(kind, steps);
  }

  lemma StageOn(s: State)
    requires Inv(s) && s.owner.Working?
    ensures |s.passed| < |Stages(s.kind)|
    ensures var t := Apply(s, DoStage(None));
      && (t.owner.Ready? || (t.owner.Working? && |t.passed| == |s.passed| + 1))
      && t.kind == s.kind && t.caller == s.caller && t.arrived == s.arrived
  {
    hide Stages, Holds, CallerInv, VerdictInv, ErrorInv, TellInv, Handles;
  }

  /** A start-up can go on to its ready point. */
  lemma {:induction false} StagesOn(kind: Kind, steps: seq<Step>) returns (more: seq<Step>)
    requires Legal(kind, steps) && Exec(kind, steps).owner.Working?
    ensures Legal(kind, steps + more)
    ensures var s, t := Exec(kind, steps), Exec(kind, steps + more);
      t.owner.Ready? && t.caller == s.caller && t.arrived == s.arrived
    decreases |Stages(kind)| - |Exec(kind, steps).passed|
  {
    hide Legal, Exec, Inv, Apply, Stages;
    RunKeeps(kind, steps);
    StageOn(Exec(kind, steps));
    GoesOn(kind, steps, DoStage(None));
    if Exec(kind, steps + [DoStage(None)]).owner.Ready? {
      return [DoStage(None)];
    }
    var rest := StagesOn(kind, steps + [DoStage(None)]);
    more := [DoStage(None)] + rest;
    assert steps + more == steps + [DoStage(None)] + rest;
  }

  /** Some run is ready with its caller waiting. */
  lemma ReadyRun(kind: Kind) returns (steps: seq<Step>)
    requires !kind.Connect?
    ensures Legal(kind, steps)
    ensures var s := Exec(kind, steps); s.owner.Ready? && s.caller.Awaiting? && !s.arrived && s.kind == kind
  {
    GoesOn(kind, [], Spawn(true));
    var first := [] + [Spawn(true)];
    var more := StagesOn(kind, first);
    steps := first + more;
    RunKeeps(kind, steps);
  }

  /** A stream whose handle was dropped while its thread sits in a read that has nothing to
      return: its connection does not close with it. */
  lemma StreamCanBeStranded()
    ensures exists steps :: Legal(Stream, steps)
              && Exec(Stream, steps).caller.Dropped? && Exec(Stream, steps).owner.Asleep?
              && !CanBeMadeToLeave(Stream, steps)
  {
    hide Legal, Exec, Stages;
    var steps := ReadyRun(Stream);
    GoesOn(Stream, steps, SendReady);
    steps := steps + [SendReady];
    GoesOn(Stream, steps, Doze);
    steps := steps + [Doze];
    GoesOn(Stream, steps, Receive);
    steps := steps + [Receive];
    GoesOn(Stream, steps, DropHandle);
    steps := steps + [DropHandle];
    MadeToLeaveIff(Stream, steps);
  }

  /** A server that is ready when its future is dropped unread. */
  lemma ServeCanBeStranded()
    ensures exists steps :: Legal(Serve(false), steps)
              && Exec(Serve(false), steps).caller.Abandoned? && Looping(Exec(Serve(false), steps).owner)
              && !CanBeMadeToLeave(Serve(false), steps)
  {
    hide Legal, Exec, Stages;
    var steps := ReadyRun(Serve(false));
    GoesOn(Serve(false), steps, SendReady);
    steps := steps + [SendReady];
    GoesOn(Serve(false), steps, Abandon);
    steps := steps + [Abandon];
    MadeToLeaveIff(Serve(false), steps);
  }
}
