/** NetworkClosed is not an answer the owner may give at will: it means that the thread has
    stopped serving, unless it is the request's own error. */
module BridgeClosed {
  import opened Wire
  import opened Bags
  import opened Bridge
  import opened BridgeInvariant
  import opened BridgeSafety
  import Waker

  /** The error the native side gave for this very call, at its submit or its poll. */
  predicate OwnError(ledger: Ledger, c: CallId, e: Error) {
    || (c in ledger.refused && ledger.refused[c] == e)
    || (c in ledger.ids && ledger.ids[c] in ledger.native && ledger.native[ledger.ids[c]].answer == Failed(e))
  }

  /** The owner has left its loop. */
  predicate Closing(pc: Pc) {
    pc.FailAll? || pc.Discard? || pc.Exited?
  }

  predicate ErrorDue(ledger: Ledger, pc: Pc, c: CallId, out: Outcome) {
    out.Err? ==> OwnError(ledger, c, out.error) || (out.error == NetworkClosed && Closing(pc))
  }

  ghost predicate ErrorsDue(ledger: Ledger, pc: Pc, resolved: seq<Resolution>) {
    forall r <- resolved :: ErrorDue(ledger, pc, r.call, r.item)
  }

  predicate HandOwn(ledger: Ledger, pc: Pc) {
    pc.Reply? && pc.outcome.Err? ==> OwnError(ledger, pc.call, pc.outcome.error)
  }

  /** A send failed only because the receiver had gone. */
  predicate SendsFailed(calls: map<CallId, Call>, accepted: set<CallId>, rxOpen: bool) {
    forall c <- calls :: calls[c].phase.Returned? && c !in accepted ==> !rxOpen
  }

  ghost predicate ClosedInv(s: State) {
    ErrorsDue(s.ledger, s.pc, s.resolved) && HandOwn(s.ledger, s.pc) && SendsFailed(s.calls, s.accepted, s.rxOpen)
  }

  /** What was said of a call stays said: only rows in flight change. */
  ghost predicate Extends(l: Ledger, l': Ledger) {
    && (forall c <- l.refused :: c in l'.refused && l'.refused[c] == l.refused[c])
    && (forall c <- l.ids :: c in l'.ids && l'.ids[c] == l.ids[c])
    && (forall id <- l.native :: id in l'.native && (l.native[id].answer.InFlight? || l'.native[id] == l.native[id]))
  }

  lemma OwnKept(l: Ledger, l': Ledger, c: CallId, e: Error)
    requires Extends(l, l') && OwnError(l, c, e)
    ensures OwnError(l', c, e)
  {
  }

  lemma DueKept(l: Ledger, l': Ledger, pc: Pc, pc': Pc, resolved: seq<Resolution>)
    requires Extends(l, l') && (Closing(pc) ==> Closing(pc')) && ErrorsDue(l, pc, resolved)
    ensures ErrorsDue(l', pc', resolved)
  {
    hide Extends, OwnError, Closing;
    forall r <- resolved ensures ErrorDue(l', pc', r.call, r.item) {
      assert ErrorDue(l, pc, r.call, r.item);
      if r.item.Err? && OwnError(l, r.call, r.item.error) {
        OwnKept(l, l', r.call, r.item.error);
      }
    }
  }

  lemma DueAppend(l: Ledger, pc: Pc, resolved: seq<Resolution>, r: Resolution)
    requires ErrorsDue(l, pc, resolved) && ErrorDue(l, pc, r.call, r.item)
    ensures ErrorsDue(l, pc, resolved + [r])
  {
    hide ErrorDue;
  }

  // The owner's steps

  lemma SubmitExtends(s: State, turn: OwnerStep)
    requires Inv(s) && OwnerEnabled(s, turn) && (turn.SubmitOk? || turn.SubmitErr?)
    ensures Extends(s.ledger, OwnerApply(s, turn).ledger) && HandOwn(OwnerApply(s, turn).ledger, OwnerApply(s, turn).pc)
  {
    hide Conserved, WakeInv, LeaveInv, BorrowInv, CallsInv, QueueInv, NativeInv, PendingInv, HandledInv, RoutedInv,
         MessageInv, Bag;
  }

  lemma PollExtends(s: State, turn: OwnerStep)
    requires Inv(s) && OwnerEnabled(s, turn) && (turn.PollOk? || turn.PollErr?)
    ensures Extends(s.ledger, OwnerApply(s, turn).ledger) && HandOwn(OwnerApply(s, turn).ledger, OwnerApply(s, turn).pc)
  {
    hide Conserved, WakeInv, LeaveInv, BorrowInv, CallsInv, QueueInv, HandInv, HandledInv, RoutedInv, MessageInv, Bag,
         SwapRemove;
    var e := s.pending[s.pc.i];
    assert e in s.pending;
    assert RowInv(e.item, s.ledger, s.calls);
  }

  lemma OtherExtends(s: State, turn: OwnerStep)
    requires OwnerEnabled(s, turn)
    requires !turn.SubmitOk? && !turn.SubmitErr? && !turn.PollOk? && !turn.PollErr?
    ensures Extends(s.ledger, OwnerApply(s, turn).ledger) && HandOwn(OwnerApply(s, turn).ledger, OwnerApply(s, turn).pc)
  {
    hide Resolve, Settle, Message, Bag, Polled;
    SameLedger(s, turn);
  }

  lemma SameLedger(s: State, turn: OwnerStep)
    requires OwnerEnabled(s, turn)
    requires !turn.SubmitOk? && !turn.SubmitErr? && !turn.PollOk? && !turn.PollErr?
    ensures OwnerApply(s, turn).ledger == s.ledger && !OwnerApply(s, turn).pc.Reply?
  {
    hide Resolve, Settle, Message, Bag, Polled;
    if turn.SendReply? {
      ResolveEffect(s, s.pc.call, s.pc.outcome);
    } else if turn.FailNext? && s.pending != [] {
      ResolveEffect(s, s.pending[0].call, Err(NetworkClosed));
    } else if turn.DiscardNext? && s.queue != [] {
      ResolveEffect(s, s.queue[0].call, Err(NetworkClosed));
    }
  }

  lemma LedgerGrows(s: State, turn: OwnerStep)
    requires Inv(s) && OwnerEnabled(s, turn)
    ensures Extends(s.ledger, OwnerApply(s, turn).ledger) && HandOwn(OwnerApply(s, turn).ledger, OwnerApply(s, turn).pc)
  {
    hide Inv, OwnerEnabled, OwnerApply, Extends, HandOwn;
    if turn.SubmitOk? || turn.SubmitErr? {
      SubmitExtends(s, turn);
    } else if turn.PollOk? || turn.PollErr? {
      PollExtends(s, turn);
    } else {
      OtherExtends(s, turn);
    }
  }

  /** Once left, the loop is not entered again, and the receiver stays gone. */
  lemma LeavesForGood(s: State, turn: OwnerStep)
    requires OwnerEnabled(s, turn)
    ensures Closing(s.pc) ==> Closing(OwnerApply(s, turn).pc)
    ensures turn.FailNext? || turn.DiscardNext? ==> Closing(OwnerApply(s, turn).pc)
    ensures OwnerApply(s, turn).rxOpen ==> s.rxOpen
    ensures OwnerApply(s, turn).calls.Keys == s.calls.Keys
  {
    hide Resolve, Settle, Message, Bag, Polled;
    if turn.SendReply? {
      ResolveEffect(s, s.pc.call, s.pc.outcome);
    } else if turn.FailNext? && s.pending != [] {
      ResolveEffect(s, s.pending[0].call, Err(NetworkClosed));
    } else if turn.DiscardNext? && s.queue != [] {
      ResolveEffect(s, s.queue[0].call, Err(NetworkClosed));
    } else if turn.PollOk? || turn.PollErr? {
      PolledEffect(s, turn);
    }
  }

  lemma PolledEffect(s: State, turn: OwnerStep)
    requires OwnerEnabled(s, turn) && (turn.PollOk? || turn.PollErr?)
    ensures var t := OwnerApply(s, turn); t.calls == s.calls && t.rxOpen == s.rxOpen && t.resolved == s.resolved
  {
    hide Settle, SwapRemove;
  }

  lemma OwnerKeepsClosed(s: State, turn: OwnerStep)
    requires Inv(s) && ClosedInv(s) && OwnerEnabled(s, turn)
    ensures ClosedInv(OwnerApply(s, turn))
  {
    var t := OwnerApply(s, turn);
    LedgerGrows(s, turn);
    LeavesForGood(s, turn);
    OwnerResolves(s, turn);
    SendsStayFailed(s, turn);
    hide Inv, OwnerApply, Closing, OwnError, Extends, SendsFailed, ErrorsDue;
    DueKept(s.ledger, t.ledger, s.pc, t.pc, s.resolved);
    if turn.SendReply? {
      if s.pc.outcome.Err? {
        OwnKept(s.ledger, t.ledger, s.pc.call, s.pc.outcome.error);
      }
      DueAppend(t.ledger, t.pc, s.resolved, Addressed(s.pc.call, s.pc.outcome));
    } else if turn.FailNext? && s.pending != [] {
      DueAppend(t.ledger, t.pc, s.resolved, Addressed(s.pending[0].call, Err(NetworkClosed)));
    } else if turn.DiscardNext? && s.queue != [] {
      DueAppend(t.ledger, t.pc, s.resolved, Addressed(s.queue[0].call, Err(NetworkClosed)));
    }
  }

  lemma SendsStayFailed(s: State, turn: OwnerStep)
    requires SendsFailed(s.calls, s.accepted, s.rxOpen) && OwnerEnabled(s, turn)
    ensures var t := OwnerApply(s, turn); SendsFailed(t.calls, t.accepted, t.rxOpen)
  {
    LeavesForGood(s, turn);
    OwnerResolves(s, turn);
    forall c <- s.calls
      ensures OwnerApply(s, turn).calls[c].phase == s.calls[c].phase
    {
      OwnerLeavesPhases(s, turn, c);
    }
    hide OwnerApply, OwnerEnabled;
  }

  // The callers' steps

  lemma CallerKeepsClosed(s: State, move: CallerStep)
    requires Inv(s) && ClosedInv(s) && CallerEnabled(s, move)
    ensures ClosedInv(CallerApply(s, move))
  {
    CallerSendsFailed(s, move);
    CallerLeaves(s, move);
    hide Inv, CallerApply, CallerEnabled, SendsFailed, ErrorsDue, HandOwn;
  }

  lemma CallerLeaves(s: State, move: CallerStep)
    requires CallerEnabled(s, move)
    ensures var t := CallerApply(s, move);
      t.ledger == s.ledger && t.pc == s.pc && t.resolved == s.resolved && t.rxOpen == s.rxOpen
  {
    hide Message;
  }

  /** A caller's move touches its own call alone, and returns it an error only when the
      receiver is gone or the call had been accepted. */
  lemma OneCallMoves(s: State, move: CallerStep)
    requires Inv(s) && CallerEnabled(s, move) && !move.DropClient? && !move.DropWake?
    ensures var t := CallerApply(s, move);
      && move.c in t.calls && s.accepted <= t.accepted
      && (forall c <- t.calls | c != move.c :: c in s.calls && t.calls[c] == s.calls[c])
      && (t.calls[move.c].phase.Returned? ==> move.c in t.accepted || !s.rxOpen)
  {
    hide Inv, Bag, Message, Waker.MayLose, Waker.Woken;
    if move.Receive? {
      AwaitingAccepted(s, move.c);
    }
    match move {
      case Begin(c, r) =>
      case Enqueue(c) =>
      case SendFails(c) =>
      case Wake(c, lost) =>
      case Receive(c) =>
      case Cancel(c) =>
      case Release(c) =>
    }
  }

  lemma AwaitingAccepted(s: State, c: CallId)
    requires Inv(s) && InPhase(s, c, Awaiting)
    ensures c in s.accepted
  {
    CallAt(s, c);
    hide Inv, Bag;
  }

  lemma SendsFailedMoved(calls: map<CallId, Call>, calls': map<CallId, Call>, accepted: set<CallId>,
                         accepted': set<CallId>, rxOpen: bool, c: CallId)
    requires SendsFailed(calls, accepted, rxOpen) && accepted <= accepted' && c in calls'
    requires forall d <- calls' | d != c :: d in calls && calls'[d] == calls[d]
    requires calls'[c].phase.Returned? ==> c in accepted' || !rxOpen
    ensures SendsFailed(calls', accepted', rxOpen)
  {
  }

  lemma CallerSendsFailed(s: State, move: CallerStep)
    requires Inv(s) && SendsFailed(s.calls, s.accepted, s.rxOpen) && CallerEnabled(s, move)
    ensures var t := CallerApply(s, move); SendsFailed(t.calls, t.accepted, t.rxOpen)
  {
    hide Inv, CallerApply, CallerEnabled, SendsFailed;
    var t := CallerApply(s, move);
    CallerLeaves(s, move);
    if move.DropClient? || move.DropWake? {
      DropLeaves(s, move);
    } else {
      OneCallMoves(s, move);
      SendsFailedMoved(s.calls, t.calls, s.accepted, t.accepted, s.rxOpen, move.c);
    }
  }

  lemma DropLeaves(s: State, move: CallerStep)
    requires CallerEnabled(s, move) && (move.DropClient? || move.DropWake?)
    ensures CallerApply(s, move).calls == s.calls && CallerApply(s, move).accepted == s.accepted
  {
  }

  lemma {:induction false} ClosedRun(steps: seq<Step>)
    requires Exec(Init(), steps).Some?
    ensures Inv(Exec(Init(), steps).value) && ClosedInv(Exec(Init(), steps).value)
  {
    hide Apply, Inv, ClosedInv;
    if steps == [] {
      ClosedInit();
    } else {
      var front, last := steps[..|steps| - 1], steps[|steps| - 1];
      ClosedRun(front);
      StepKeeps(Exec(Init(), front).value, last);
      StepKeepsClosed(Exec(Init(), front).value, last);
    }
  }

  lemma ClosedInit()
    ensures Inv(Init()) && ClosedInv(Init())
  {
  }

  lemma StepKeepsClosed(s: State, step: Step)
    requires Inv(s) && ClosedInv(s) && Enabled(s, step)
    ensures ClosedInv(Apply(s, step))
  {
    hide Inv, ClosedInv, CallerApply, OwnerApply, CallerEnabled, OwnerEnabled;
    match step
    case Caller(move) => CallerKeepsClosed(s, move);
    case Owner(turn) => OwnerKeepsClosed(s, turn);
  }

  lemma ClosedHolds(s: State)
    requires Reachable(s)
    ensures Inv(s) && ClosedInv(s)
  {
    hide Inv, ClosedInv, Exec;
    var steps :| Exec(Init(), steps) == Some(s);
    ClosedRun(steps);
  }

  /** A dispatch that returns Ok got the response the native side produced for the id its
      own method, path, headers and body were submitted under. One that returns an error
      got the error of its own submit or poll, or else NetworkClosed, and then the owner
      has stopped serving. */
  lemma Routed(s: State, c: CallId)
    requires Reachable(s) && c in s.calls && s.calls[c].phase.Returned?
    ensures var out := s.calls[c].phase.outcome;
      Justified(s.ledger, s.calls, c, out) && ErrorDue(s.ledger, s.pc, c, out)
  {
    JustifiedReturn(s, c);
    ClosedHolds(s);
    CallAt(s, c);
    hide Conserved, WakeInv, BorrowInv, CallsInv, QueueInv, HandInv, NativeInv, PendingInv, HandledInv, RoutedInv,
         MessageInv, Bag, Justified, OwnError, HandOwn;
  }
}
