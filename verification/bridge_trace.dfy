/** The bridge against its own history: what the state says was dispatched, submitted,
    answered or given up is what the steps of the run did. */
module BridgeTrace {
  import opened Wire
  import opened Bags
  import opened Bridge
  import opened BridgeInvariant
  import opened BridgeSafety
  import opened BridgeClosed
  import Marshal
  import Waker

  ghost predicate RunOf(steps: seq<Step>, s: State) {
    Exec(Init(), steps) == Some(s)
  }

  lemma RunFront(steps: seq<Step>, s: State) returns (before: State)
    requires RunOf(steps, s) && steps != []
    ensures RunOf(steps[..|steps| - 1], before) && Enabled(before, steps[|steps| - 1])
    ensures s == Apply(before, steps[|steps| - 1])
  {
    hide Apply, Enabled;
    before := Exec(Init(), steps[..|steps| - 1]).value;
  }

  lemma RunStart(steps: seq<Step>, s: State)
    requires RunOf(steps, s) && steps == []
    ensures s == Init()
  {
  }

  lemma RunInv(steps: seq<Step>, s: State)
    requires RunOf(steps, s)
    ensures Inv(s) && ClosedInv(s)
  {
    hide Inv, ClosedInv, Exec;
    ClosedRun(steps);
  }

  // The calls

  /** A step leaves every call's request alone; only `Begin` makes a call, with its own. */
  ghost predicate CallsFollow(calls: map<CallId, Call>, step: Step, calls': map<CallId, Call>) {
    && (forall c <- calls :: c in calls' && calls'[c].request == calls[c].request)
    && (forall c <- calls' | c !in calls :: step == Caller(Begin(c, calls'[c].request)))
    && (step.Caller? && step.move.Begin? ==>
          step.move.c !in calls && step.move.c in calls' && calls'[step.move.c].request == step.move.request)
  }

  lemma CallerCalls(s: State, move: CallerStep)
    requires CallerEnabled(s, move)
    ensures CallsFollow(s.calls, Caller(move), CallerApply(s, move).calls)
  {
    hide Message, Waker.MayLose, Waker.Woken;
    match move {
      case Begin(c, r) =>
      case Enqueue(c) =>
      case SendFails(c) =>
      case Wake(c, lost) =>
      case Receive(c) =>
      case Cancel(c) =>
      case Release(c) =>
      case DropClient =>
      case DropWake(lost) =>
    }
  }

  lemma OwnerCall(s: State, turn: OwnerStep, c: CallId)
    requires OwnerEnabled(s, turn) && c in s.calls
    ensures c in OwnerApply(s, turn).calls && OwnerApply(s, turn).calls[c].request == s.calls[c].request
  {
    hide Resolve, Settle, Message, Bag;
    if turn.SendReply? {
      ResolveEffect(s, s.pc.call, s.pc.outcome);
    } else if turn.FailNext? && s.pending != [] {
      ResolveEffect(s, s.pending[0].call, Err(NetworkClosed));
    } else if turn.DiscardNext? && s.queue != [] {
      ResolveEffect(s, s.queue[0].call, Err(NetworkClosed));
    }
  }

  lemma StepCalls(s: State, step: Step)
    requires Enabled(s, step)
    ensures CallsFollow(s.calls, step, Apply(s, step).calls)
  {
    match step {
      case Caller(move) =>
        CallerCalls(s, move);
      case Owner(turn) =>
        LeavesForGood(s, turn);
        forall c <- s.calls ensures Apply(s, step).calls[c].request == s.calls[c].request {
          OwnerCall(s, turn, c);
        }
        hide OwnerApply, OwnerEnabled;
    }
  }

  /** Over every run, the calls known are those begun, each with the request it began with. */
  lemma {:induction false} RequestsAreBegun(steps: seq<Step>, s: State)
    requires RunOf(steps, s)
    ensures forall c, r :: Caller(Begin(c, r)) in steps ==> c in s.calls && s.calls[c].request == r
    ensures forall c <- s.calls :: Caller(Begin(c, s.calls[c].request)) in steps
  {
    hide Exec, Apply, Enabled;
    if steps == [] {
      RunStart(steps, s);
    } else {
      var front, last := steps[..|steps| - 1], steps[|steps| - 1];
      var before := RunFront(steps, s);
      RequestsAreBegun(front, before);
      StepCalls(before, last);
      assert steps == front + [last];
    }
  }

  // The reason for leaving

  /** The loop is left only at a failed tick, as dead, or at a channel found closed, as
      disconnected, and for good. */
  predicate LeavesFor(s: State, step: Step, t: State) {
    && (Closing(t.pc) ==>
          || (Closing(s.pc) && t.pc.why == s.pc.why)
          || step == Owner(TickDead)
          || (step == Owner(TryRecv) && !Closing(s.pc) && t.pc.why.Disconnected? && !s.txOpen && s.queue == []))
    && (Closing(s.pc) ==> Closing(t.pc))
    && (step == Owner(TickDead) ==> Closing(t.pc) && t.pc.why.Dead?)
    && (t.txOpen <==> s.txOpen && step != Caller(DropClient))
  }

  lemma OwnerLeavesFor(s: State, turn: OwnerStep)
    requires OwnerEnabled(s, turn)
    ensures LeavesFor(s, Owner(turn), OwnerApply(s, turn))
  {
    hide Resolve, Settle, Message, Bag, SwapRemove;
    if turn.SendReply? {
      ResolveEffect(s, s.pc.call, s.pc.outcome);
    } else if turn.FailNext? && s.pending != [] {
      ResolveEffect(s, s.pending[0].call, Err(NetworkClosed));
    } else if turn.DiscardNext? && s.queue != [] {
      ResolveEffect(s, s.queue[0].call, Err(NetworkClosed));
    }
  }

  lemma CallerLeavesFor(s: State, move: CallerStep)
    requires CallerEnabled(s, move)
    ensures LeavesFor(s, Caller(move), CallerApply(s, move))
  {
    hide Message;
  }

  /** Over every run: the owner leaves as dead exactly when a tick of it failed, and as
      disconnected only after the handle was dropped, with nothing queued. */
  lemma {:induction false} LeavesForCause(steps: seq<Step>, s: State)
    requires RunOf(steps, s)
    ensures s.txOpen <==> Caller(DropClient) !in steps
    ensures Closing(s.pc) && s.pc.why.Dead? <==> Owner(TickDead) in steps
    ensures Closing(s.pc) && s.pc.why.Disconnected? ==> Caller(DropClient) in steps
  {
    hide Exec, Apply, Enabled, Closing;
    if steps == [] {
      RunStart(steps, s);
      NotClosingYet();
    } else {
      var front, last := steps[..|steps| - 1], steps[|steps| - 1];
      var before := RunFront(steps, s);
      LeavesForCause(front, before);
      StepLeavesFor(before, last);
      assert steps == front + [last];
    }
  }

  lemma NotClosingYet()
    ensures !Closing(Init().pc) && Init().txOpen
  {
  }

  lemma StepLeavesFor(s: State, step: Step)
    requires Enabled(s, step)
    ensures LeavesFor(s, step, Apply(s, step))
  {
    hide LeavesFor, CallerApply, OwnerApply, CallerEnabled, OwnerEnabled;
    match step
    case Caller(move) => CallerLeavesFor(s, move);
    case Owner(turn) => OwnerLeavesFor(s, turn);
  }

  // What the native side said

  /** Some step of the run was this turn of the owner, taken in a state that meets `at`. */
  ghost predicate Happened(steps: seq<Step>, turn: OwnerStep, at: State -> bool) {
    exists k | 0 <= k < |steps| :: HappenedAt(steps, k, turn, at)
  }

  ghost predicate HappenedAt(steps: seq<Step>, k: nat, turn: OwnerStep, at: State -> bool)
    requires k < |steps|
  {
    steps[k] == Owner(turn) && Exec(Init(), steps[..k]).Some? && at(Exec(Init(), steps[..k]).value)
  }

  /** The owner is about to submit call c. */
  function Submitting(c: CallId): State -> bool {
    (s: State) => s.pc.Submit? && s.pc.cmd.call == c
  }

  /** The owner is about to poll id. */
  function Polling(id: RequestId): State -> bool {
    (s: State) => s.pc.Poll? && s.pc.i < |s.pending| && s.pending[s.pc.i].item == id
  }

  lemma HappenedKept(front: seq<Step>, last: Step, turn: OwnerStep, at: State -> bool)
    requires Happened(front, turn, at)
    ensures Happened(front + [last], turn, at)
  {
    var k :| 0 <= k < |front| && HappenedAt(front, k, turn, at);
    assert (front + [last])[..k] == front[..k];
    hide Exec;
    assert HappenedAt(front + [last], k, turn, at);
  }

  lemma HappensNow(front: seq<Step>, before: State, turn: OwnerStep, at: State -> bool)
    requires RunOf(front, before) && at(before)
    ensures Happened(front + [Owner(turn)], turn, at)
  {
    assert (front + [Owner(turn)])[..|front|] == front;
    hide Exec;
    assert HappenedAt(front + [Owner(turn)], |front|, turn, at);
  }

  /** What one turn may change of the ledger. */
  ghost predicate LedgerFollows(s: State, turn: OwnerStep, t: State) {
    && (forall c <- t.ledger.refused ::
          || (c in s.ledger.refused && t.ledger.refused[c] == s.ledger.refused[c])
          || (turn == SubmitErr(t.ledger.refused[c]) && s.pc.Submit? && s.pc.cmd.call == c))
    && (forall c <- t.ledger.ids ::
          || (c in s.ledger.ids && t.ledger.ids[c] == s.ledger.ids[c])
          || (turn == SubmitOk(t.ledger.ids[c]) && s.pc.Submit? && s.pc.cmd.call == c))
    && (forall id <- t.ledger.native :: RowFollows(id, t.ledger.native[id].answer, s, turn))
  }

  predicate RowFollows(id: RequestId, answer: Answer, s: State, turn: OwnerStep) {
    || (id in s.ledger.native && answer == s.ledger.native[id].answer)
    || answer.InFlight?
    || (Polling(id)(s) && match answer
                          case Answered(p) => turn == PollOk(p)
                          case Failed(e) => turn == PollErr(e)
                          case InFlight => true)
  }

  lemma SubmitFollows(s: State, turn: OwnerStep)
    requires OwnerEnabled(s, turn) && (turn.SubmitOk? || turn.SubmitErr?)
    ensures LedgerFollows(s, turn, OwnerApply(s, turn))
  {
    hide Bag;
  }

  lemma PollFollows(s: State, turn: OwnerStep)
    requires OwnerEnabled(s, turn) && (turn.PollOk? || turn.PollErr?)
    ensures LedgerFollows(s, turn, OwnerApply(s, turn))
  {
    hide SwapRemove, Bag;
  }

  lemma LedgerStep(s: State, turn: OwnerStep)
    requires OwnerEnabled(s, turn)
    ensures LedgerFollows(s, turn, OwnerApply(s, turn))
  {
    hide OwnerEnabled, OwnerApply;
    if turn.SubmitOk? || turn.SubmitErr? {
      SubmitFollows(s, turn);
    } else if turn.PollOk? || turn.PollErr? {
      PollFollows(s, turn);
    } else {
      SameLedger(s, turn);
    }
  }

  /** What the ledger says, the run's steps said. */
  ghost predicate LedgerTold(steps: seq<Step>, ledger: Ledger) {
    && (forall c <- ledger.refused :: Happened(steps, SubmitErr(ledger.refused[c]), Submitting(c)))
    && (forall c <- ledger.ids :: Happened(steps, SubmitOk(ledger.ids[c]), Submitting(c)))
    && (forall id <- ledger.native :: AnswerTold(steps, id, ledger.native[id].answer))
  }

  ghost predicate AnswerTold(steps: seq<Step>, id: RequestId, answer: Answer) {
    match answer
    case InFlight => true
    case Answered(p) => Happened(steps, PollOk(p), Polling(id))
    case Failed(e) => Happened(steps, PollErr(e), Polling(id))
  }

  lemma AnswerKept(front: seq<Step>, last: Step, id: RequestId, answer: Answer)
    requires AnswerTold(front, id, answer)
    ensures AnswerTold(front + [last], id, answer)
  {
    match answer
    case InFlight =>
    case Answered(p) => HappenedKept(front, last, PollOk(p), Polling(id));
    case Failed(e) => HappenedKept(front, last, PollErr(e), Polling(id));
  }

  lemma ToldByCaller(front: seq<Step>, last: Step, ledger: Ledger)
    requires LedgerTold(front, ledger)
    ensures LedgerTold(front + [last], ledger)
  {
    hide Happened, AnswerTold;
    forall c <- ledger.refused ensures Happened(front + [last], SubmitErr(ledger.refused[c]), Submitting(c)) {
      HappenedKept(front, last, SubmitErr(ledger.refused[c]), Submitting(c));
    }
    forall c <- ledger.ids ensures Happened(front + [last], SubmitOk(ledger.ids[c]), Submitting(c)) {
      HappenedKept(front, last, SubmitOk(ledger.ids[c]), Submitting(c));
    }
    forall id <- ledger.native ensures AnswerTold(front + [last], id, ledger.native[id].answer) {
      AnswerKept(front, last, id, ledger.native[id].answer);
    }
  }

  lemma RowToldByOwner(front: seq<Step>, before: State, turn: OwnerStep, id: RequestId, answer: Answer)
    requires RunOf(front, before) && RowFollows(id, answer, before, turn)
    requires id in before.ledger.native ==> AnswerTold(front, id, before.ledger.native[id].answer)
    ensures AnswerTold(front + [Owner(turn)], id, answer)
  {
    hide Happened, RunOf, Polling;
    if id in before.ledger.native && answer == before.ledger.native[id].answer {
      AnswerKept(front, Owner(turn), id, answer);
    } else if !answer.InFlight? {
      HappensNow(front, before, turn, Polling(id));
    }
  }

  lemma ToldByOwner(front: seq<Step>, before: State, turn: OwnerStep, t: State)
    requires RunOf(front, before) && LedgerTold(front, before.ledger) && LedgerFollows(before, turn, t)
    ensures LedgerTold(front + [Owner(turn)], t.ledger)
  {
    hide Happened, AnswerTold, RunOf, RowFollows;
    var steps := front + [Owner(turn)];
    forall c <- t.ledger.refused ensures Happened(steps, SubmitErr(t.ledger.refused[c]), Submitting(c)) {
      if c in before.ledger.refused && t.ledger.refused[c] == before.ledger.refused[c] {
        HappenedKept(front, Owner(turn), SubmitErr(t.ledger.refused[c]), Submitting(c));
      } else {
        HappensNow(front, before, turn, Submitting(c));
      }
    }
    forall c <- t.ledger.ids ensures Happened(steps, SubmitOk(t.ledger.ids[c]), Submitting(c)) {
      if c in before.ledger.ids && t.ledger.ids[c] == before.ledger.ids[c] {
        HappenedKept(front, Owner(turn), SubmitOk(t.ledger.ids[c]), Submitting(c));
      } else {
        HappensNow(front, before, turn, Submitting(c));
      }
    }
    forall id <- t.ledger.native ensures AnswerTold(steps, id, t.ledger.native[id].answer) {
      RowToldByOwner(front, before, turn, id, t.ledger.native[id].answer);
    }
  }

  /** Over every run, each submission, refusal, answer and failure the ledger holds was
      given by a step of the run, at a submit of that call or a poll of that id. */
  lemma {:induction false} LedgerIsTold(steps: seq<Step>, s: State)
    requires RunOf(steps, s)
    ensures LedgerTold(steps, s.ledger)
  {
    hide Exec, Apply, Enabled, LedgerTold, LedgerFollows;
    if steps == [] {
      RunStart(steps, s);
      NothingTold();
    } else {
      var front, last := steps[..|steps| - 1], steps[|steps| - 1];
      var before := RunFront(steps, s);
      LedgerIsTold(front, before);
      assert steps == front + [last];
      LedgerAfter(front, before, last);
    }
  }

  lemma LedgerAfter(front: seq<Step>, before: State, last: Step)
    requires RunOf(front, before) && LedgerTold(front, before.ledger) && Enabled(before, last)
    ensures LedgerTold(front + [last], Apply(before, last).ledger)
  {
    hide LedgerTold, LedgerFollows, RunOf, CallerApply, OwnerApply, CallerEnabled, OwnerEnabled;
    match last
    case Caller(move) => CallerLeaves(before, move); ToldByCaller(front, last, before.ledger);
    case Owner(turn) => LedgerStep(before, turn); ToldByOwner(front, before, turn, OwnerApply(before, turn));
  }

  lemma NothingTold()
    ensures LedgerTold([], Init().ledger)
  {
  }

  // Order

  /** The calls in the order their commands entered the channel. */
  function Enqueues(steps: seq<Step>): seq<CallId> {
    if steps == [] then []
    else
      var last := steps[|steps| - 1];
      Enqueues(steps[..|steps| - 1]) + if last.Caller? && last.move.Enqueue? then [last.move.c] else []
  }

  /** What is queued entered last, in that order; a command in hand came just before. */
  ghost predicate InOrder(entered: seq<CallId>, queue: seq<Command>, pc: Pc) {
    && |queue| <= |entered|
    && (forall i | 0 <= i < |queue| :: queue[i].call == entered[|entered| - |queue| + i])
    && (pc.Submit? ==> |queue| < |entered| && pc.cmd.call == entered[|entered| - |queue| - 1])
  }

  lemma OrderEntered(entered: seq<CallId>, queue: seq<Command>, pc: Pc, cmd: Command)
    requires InOrder(entered, queue, pc)
    ensures InOrder(entered + [cmd.call], queue + [cmd], pc)
  {
  }

  lemma OrderTaken(entered: seq<CallId>, queue: seq<Command>, pc: Pc, pc': Pc)
    requires InOrder(entered, queue, pc) && queue != [] && (pc'.Submit? ==> pc'.cmd == queue[0])
    ensures InOrder(entered, queue[1..], pc')
  {
  }

  lemma OrderKept(entered: seq<CallId>, queue: seq<Command>, pc: Pc, pc': Pc)
    requires InOrder(entered, queue, pc) && (pc'.Submit? ==> pc' == pc)
    ensures InOrder(entered, queue, pc')
  {
  }

  lemma OwnerOrder(s: State, turn: OwnerStep)
    requires OwnerEnabled(s, turn)
    ensures var t := OwnerApply(s, turn);
      || (t.queue == s.queue && !t.pc.Submit?)
      || (s.queue != [] && t.queue == s.queue[1..] && (t.pc.Submit? ==> t.pc.cmd == s.queue[0]))
  {
    hide Resolve, Settle, Message, Bag, SwapRemove;
    if turn.SendReply? {
      ResolveEffect(s, s.pc.call, s.pc.outcome);
    } else if turn.FailNext? && s.pending != [] {
      ResolveEffect(s, s.pending[0].call, Err(NetworkClosed));
    } else if turn.DiscardNext? && s.queue != [] {
      ResolveEffect(s, s.queue[0].call, Err(NetworkClosed));
    }
  }

  lemma CallerOrder(s: State, move: CallerStep)
    requires CallerEnabled(s, move)
    ensures var t := CallerApply(s, move);
      && t.pc == s.pc
      && (if move.Enqueue? then |t.queue| == |s.queue| + 1 && t.queue[..|s.queue|] == s.queue
                                && t.queue[|s.queue|].call == move.c
          else t.queue == s.queue)
  {
    hide Message;
  }

  lemma StepInOrder(entered: seq<CallId>, s: State, step: Step)
    requires InOrder(entered, s.queue, s.pc) && Enabled(s, step)
    ensures var t := Apply(s, step);
      InOrder(entered + (if step.Caller? && step.move.Enqueue? then [step.move.c] else []), t.queue, t.pc)
  {
    hide InOrder, CallerApply, OwnerApply, CallerEnabled, OwnerEnabled;
    var t := Apply(s, step);
    match step {
      case Caller(move) =>
        CallerOrder(s, move);
        if move.Enqueue? {
          assert t.queue == s.queue + [t.queue[|s.queue|]];
          OrderEntered(entered, s.queue, s.pc, t.queue[|s.queue|]);
        } else {
          assert entered + [] == entered;
        }
      case Owner(turn) =>
        assert entered + [] == entered;
        OwnerOrder(s, turn);
        if t.queue == s.queue && !t.pc.Submit? {
          OrderKept(entered, s.queue, s.pc, t.pc);
        } else {
          OrderTaken(entered, s.queue, s.pc, t.pc);
        }
    }
  }

  /** Over every run the owner takes commands in the order they entered the channel. */
  lemma {:induction false} TakenInOrder(steps: seq<Step>, s: State)
    requires RunOf(steps, s)
    ensures InOrder(Enqueues(steps), s.queue, s.pc)
  {
    hide Exec, Apply, Enabled, InOrder;
    if steps == [] {
      RunStart(steps, s);
      assert InOrder([], Init().queue, Init().pc) by { EmptyInOrder(); }
    } else {
      var front, last := steps[..|steps| - 1], steps[|steps| - 1];
      var before := RunFront(steps, s);
      TakenInOrder(front, before);
      StepInOrder(Enqueues(front), before, last);
    }
  }

  lemma EmptyInOrder()
    ensures InOrder([], Init().queue, Init().pc)
  {
  }

  // Rounds

  /** The marks of a round of the loop. */
  datatype Mark = Drained | Ticked | Polled | Waited

  predicate IsMark(step: Step) {
    step.Owner? && (step.turn.TickOk? || step.turn.PollEnd? || step.turn.WaitEnds? || step.turn.ReadWaker?)
  }

  function MarkOf(step: Step): Mark
    requires IsMark(step)
  {
    match step.turn
    case TickOk => Ticked
    case PollEnd => Polled
    case WaitEnds(_) => Waited
    case _ => Drained
  }

  /** The last mark a run passed; it starts as after a drain. */
  function LastMark(steps: seq<Step>): Mark {
    if steps == [] then Drained
    else if IsMark(steps[|steps| - 1]) then MarkOf(steps[|steps| - 1])
    else LastMark(steps[..|steps| - 1])
  }

  /** Where the owner can be after each mark. */
  predicate InRound(mark: Mark, pc: Pc) {
    match pc
    case Poll(_) => mark.Ticked?
    case Reply(_, _, ToPoll(_)) => mark.Ticked?
    case Block => mark.Polled?
    case Clear => mark.Waited? || mark.Drained?
    case FailAll(_) => true
    case Discard(_) => true
    case Exited(_) => true
    case _ => mark.Drained?
  }

  lemma OwnerInRound(mark: Mark, s: State, turn: OwnerStep)
    requires OwnerEnabled(s, turn) && InRound(mark, s.pc)
    ensures InRound(if IsMark(Owner(turn)) then MarkOf(Owner(turn)) else mark, OwnerApply(s, turn).pc)
    ensures turn.TryRecv? || turn.TickOk? || turn.TickDead? ==> mark.Drained?
    ensures turn.PollEnd? ==> mark.Ticked?
    ensures turn.WaitEnds? ==> mark.Polled?
    ensures turn.ReadWaker? ==> mark.Waited? || mark.Drained?
    ensures turn.ReadWaker? ==> (OwnerApply(s, turn).pc.Clear? <==> s.wakes > 0)
  {
    hide Resolve, Settle, Message, Bag, SwapRemove;
    if turn.SendReply? {
      ResolveEffect(s, s.pc.call, s.pc.outcome);
    } else if turn.FailNext? && s.pending != [] {
      ResolveEffect(s, s.pending[0].call, Err(NetworkClosed));
    } else if turn.DiscardNext? && s.queue != [] {
      ResolveEffect(s, s.queue[0].call, Err(NetworkClosed));
    }
  }

  lemma {:induction false} RoundHolds(steps: seq<Step>, s: State)
    requires RunOf(steps, s)
    ensures InRound(LastMark(steps), s.pc)
  {
    hide Exec, Apply, Enabled, InRound, IsMark, MarkOf;
    if steps == [] {
      RunStart(steps, s);
      assert InRound(Drained, Init().pc) by { StartsDrained(); }
    } else {
      var front, last := steps[..|steps| - 1], steps[|steps| - 1];
      var before := RunFront(steps, s);
      RoundHolds(front, before);
      StepInRound(LastMark(front), before, last);
    }
  }

  lemma StartsDrained()
    ensures InRound(Drained, Init().pc)
  {
  }

  lemma StepInRound(mark: Mark, s: State, step: Step)
    requires Enabled(s, step) && InRound(mark, s.pc)
    ensures InRound(if IsMark(step) then MarkOf(step) else mark, Apply(s, step).pc)
  {
    hide InRound, CallerApply, OwnerApply, CallerEnabled, OwnerEnabled;
    match step
    case Caller(move) => CallerLeaves(s, move);
    case Owner(turn) => OwnerInRound(mark, s, turn);
  }

  /** Over every run the owner's rounds go in order: a tick that succeeded is followed by a
      whole poll pass, that by one wait, that by reading the waker until nothing is left, and
      only then are commands taken and the next tick made. */
  lemma RoundsInOrder(steps: seq<Step>, s: State, turn: OwnerStep)
    requires RunOf(steps, s) && OwnerEnabled(s, turn)
    ensures turn.TryRecv? || turn.TickOk? || turn.TickDead? ==> LastMark(steps).Drained?
    ensures turn.PollEnd? ==> LastMark(steps).Ticked?
    ensures turn.WaitEnds? ==> LastMark(steps).Polled?
    ensures turn.ReadWaker? ==> LastMark(steps).Waited? || LastMark(steps).Drained?
    ensures turn.ReadWaker? ==> (OwnerApply(s, turn).pc.Clear? <==> s.wakes > 0)
  {
    RoundHolds(steps, s);
    OwnerInRound(LastMark(steps), s, turn);
    hide OwnerEnabled, RunOf;
  }

  // What became of the calls

  /** Accepting, cancelling and releasing are what the steps of those names do, to the call
      they name. */
  predicate FateFollows(s: State, step: Step, t: State) {
    && t.accepted == (if step.Caller? && step.move.Enqueue? then s.accepted + {step.move.c} else s.accepted)
    && (forall c <- t.calls ::
          t.calls[c].phase.Cancelled? <==>
            (c in s.calls && s.calls[c].phase.Cancelled?) || step == Caller(Cancel(c)))
    && (forall c <- t.calls ::
          t.calls[c].phase.Released? <==>
            (c in s.calls && s.calls[c].phase.Released?) || step == Caller(Release(c)))
  }

  lemma CallerFate(s: State, move: CallerStep)
    requires CallerEnabled(s, move)
    ensures FateFollows(s, Caller(move), CallerApply(s, move))
  {
    hide Message, Waker.MayLose, Waker.Woken;
    match move {
      case Begin(c, r) =>
      case Enqueue(c) =>
      case SendFails(c) =>
      case Wake(c, lost) =>
      case Receive(c) =>
      case Cancel(c) =>
      case Release(c) =>
      case DropClient =>
      case DropWake(lost) =>
    }
  }

  lemma OwnerFate(s: State, turn: OwnerStep)
    requires OwnerEnabled(s, turn)
    ensures FateFollows(s, Owner(turn), OwnerApply(s, turn))
  {
    LeavesForGood(s, turn);
    OwnerResolves(s, turn);
    forall c <- s.calls ensures OwnerApply(s, turn).calls[c].phase == s.calls[c].phase {
      OwnerLeavesPhases(s, turn, c);
    }
    hide OwnerApply, OwnerEnabled;
  }

  lemma StepFate(s: State, step: Step)
    requires Enabled(s, step)
    ensures FateFollows(s, step, Apply(s, step))
  {
    hide FateFollows, CallerApply, OwnerApply, CallerEnabled, OwnerEnabled;
    match step
    case Caller(move) => CallerFate(s, move);
    case Owner(turn) => OwnerFate(s, turn);
  }

  /** Over every run: accepted, cancelled and released are exactly the calls enqueued,
      cancelled and released by a step. */
  lemma {:induction false} FatesAreSteps(steps: seq<Step>, s: State)
    requires RunOf(steps, s)
    ensures forall c :: c in s.accepted <==> Caller(Enqueue(c)) in steps
    ensures forall c <- s.calls :: s.calls[c].phase.Cancelled? <==> Caller(Cancel(c)) in steps
    ensures forall c <- s.calls :: s.calls[c].phase.Released? <==> Caller(Release(c)) in steps
    ensures forall c :: Caller(Cancel(c)) in steps || Caller(Release(c)) in steps ==> c in s.calls
  {
    hide Exec, Apply, Enabled;
    if steps == [] {
      RunStart(steps, s);
    } else {
      var front, last := steps[..|steps| - 1], steps[|steps| - 1];
      var before := RunFront(steps, s);
      FatesAreSteps(front, before);
      StepFate(before, last);
      StepCalls(before, last);
      NamesKnown(before, last);
      assert steps == front + [last];
    }
  }

  lemma NamesKnown(s: State, step: Step)
    requires Enabled(s, step)
    ensures forall c :: step == Caller(Cancel(c)) || step == Caller(Release(c)) ==> c in s.calls
  {
  }

  // Routing, of what was dispatched and what the native side answered

  /** Over every run: a dispatch begun with request r that returns Ok got the payload some
      poll of its id answered, the id some submit of this very call was given, and the
      native row of that id holds r. One that returns an error got what its own submit or a
      poll of its own id answered, or else NetworkClosed, and then a tick had failed or the
      handle had been dropped. */
  lemma Routed(steps: seq<Step>, s: State, c: CallId, r: Request)
    requires RunOf(steps, s) && Caller(Begin(c, r)) in steps
    requires c in s.calls && s.calls[c].phase.Returned?
    ensures match s.calls[c].phase.outcome
      case Ok(resp) =>
        && resp.id in s.ledger.native && s.ledger.native[resp.id].call == c && s.ledger.native[resp.id].request == r
        && Happened(steps, SubmitOk(resp.id), Submitting(c))
        && Happened(steps, PollOk(resp.payload), Polling(resp.id))
      case Err(e) =>
        || Happened(steps, SubmitErr(e), Submitting(c))
        || (c in s.ledger.ids && Happened(steps, PollErr(e), Polling(s.ledger.ids[c])))
        || (e == NetworkClosed && (Owner(TickDead) in steps || Caller(DropClient) in steps))
  {
    RequestsAreBegun(steps, s);
    LeavesForCause(steps, s);
    LedgerIsTold(steps, s);
    RunReaches(steps, s);
    BridgeClosed.Routed(s, c);
    hide Happened, Reachable, RunOf, Submitting, Polling;
    var out := s.calls[c].phase.outcome;
    if out.Ok? {
      assert AnswerTold(steps, out.value.id, s.ledger.native[out.value.id].answer);
    } else if c in s.ledger.ids && s.ledger.ids[c] in s.ledger.native {
      assert AnswerTold(steps, s.ledger.ids[c], s.ledger.native[s.ledger.ids[c]].answer);
    }
  }

  lemma RunReaches(steps: seq<Step>, s: State)
    requires RunOf(steps, s)
    ensures Reachable(s)
  {
    hide Exec;
  }
}
