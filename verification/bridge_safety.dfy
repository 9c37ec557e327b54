/** What holds in every reachable state of the bridge, for any number of callers and
    any interleaving. */
module BridgeSafety {
  import opened Wire
  import opened Bags
  import opened Bridge
  import opened BridgeInvariant

  lemma {:induction false} RunKeeps(s: State, steps: seq<Step>)
    requires Inv(s)
    ensures Exec(s, steps).Some? ==> Inv(Exec(s, steps).value)
  {
    hide Inv, Apply;
    if steps != [] && Exec(s, steps).Some? {
      var front := steps[..|steps| - 1];
      RunKeeps(s, front);
      StepKeeps(Exec(s, front).value, steps[|steps| - 1]);
    }
  }

  lemma InvariantHolds(s: State)
    requires Reachable(s)
    ensures Inv(s)
  {
    var steps :| Exec(Init(), steps) == Some(s);
    assert Inv(Init());
    RunKeeps(Init(), steps);
  }

  // No lost wakeup

  lemma DueWhileBlocked(s: State)
    requires Inv(s) && s.pc.Block? && s.wakes == 0
    ensures SignalDue(s.calls, s.queue, s.txOpen, s.dropWoken)
  {
    hide Conserved, LeaveInv, BorrowInv, CallsInv, QueueInv, HandInv, NativeInv, PendingInv, HandledInv, RoutedInv,
         MessageInv, SignalDue, Bag;
  }

  lemma WakeSets(s: State, c: CallId)
    requires InPhase(s, c, Enqueued)
    ensures CallerEnabled(s, Wake(c, false)) && CallerApply(s, Wake(c, false)).wakes > 0
  {
  }

  /** Blocked with no signal, the owner misses nothing: each queued command, and a
      closed channel, belongs to someone whose next move sets the signal. */
  lemma NoLostWakeup(s: State)
    requires Reachable(s) && s.pc.Block? && s.wakes == 0
    ensures forall cmd <- s.queue ::
      CallerEnabled(s, Wake(cmd.call, false)) && CallerApply(s, Wake(cmd.call, false)).wakes > 0
    ensures !s.txOpen ==> CallerEnabled(s, DropWake(false)) && CallerApply(s, DropWake(false)).wakes > 0
  {
    InvariantHolds(s);
    DueWhileBlocked(s);
    hide Inv, Reachable, CallerEnabled, CallerApply;
    forall cmd <- s.queue
      ensures CallerEnabled(s, Wake(cmd.call, false)) && CallerApply(s, Wake(cmd.call, false)).wakes > 0
    {
      WakeSets(s, cmd.call);
    }
    if !s.txOpen {
      DropWakeSets(s);
    }
  }

  lemma DropWakeSets(s: State)
    requires !s.txOpen && !s.dropWoken
    ensures CallerEnabled(s, DropWake(false)) && CallerApply(s, DropWake(false)).wakes > 0
  {
  }

  /** A caller past its send cannot be cancelled, or settled, before it has signalled. */
  lemma WakeStaysDue(s: State, step: Step, c: CallId)
    requires Enabled(s, step) && InPhase(s, c, Enqueued) && !(step.Caller? && step.move.Wake? && step.move.c == c)
    ensures InPhase(Apply(s, step), c, Enqueued)
  {
    if step.Owner? {
      hide OwnerApply, OwnerEnabled;
      OwnerLeavesPhases(s, step.turn, c);
    } else {
      CallerLeavesEnqueued(s, step.move, c);
    }
  }

  lemma CallerLeavesEnqueued(s: State, move: CallerStep, c: CallId)
    requires CallerEnabled(s, move) && InPhase(s, c, Enqueued) && !(move.Wake? && move.c == c)
    ensures InPhase(CallerApply(s, move), c, Enqueued)
  {
    hide Message;
  }

  lemma OwnerLeavesPhases(s: State, turn: OwnerStep, c: CallId)
    requires OwnerEnabled(s, turn) && c in s.calls
    ensures var t := OwnerApply(s, turn); c in t.calls && t.calls[c].phase == s.calls[c].phase
  {
    hide Resolve, Settle, Message, Bag;
    if turn.SendReply? {
      ResolveEffect(s, s.pc.call, s.pc.outcome);
    } else if turn.FailNext? && s.pending != [] {
      ResolveEffect(s, s.pending[0].call, Err(NetworkClosed));
    } else if turn.DiscardNext? && s.queue != [] {
      ResolveEffect(s, s.queue[0].call, Err(NetworkClosed));
    }
  }

  lemma ResolveEffect(s: State, c: CallId, out: Outcome)
    ensures var t := Resolve(s, c, out);
      && t == s.(calls := t.calls, resolved := s.resolved + [Addressed(c, out)], freed := t.freed)
      && t.calls == if c in s.calls then s.calls[c := s.calls[c].(slot := t.calls[c].slot)] else s.calls
  {
    hide Message, Bag;
  }

  // Resolution

  lemma AtMostOnce(s: State, c: CallId)
    requires Reachable(s)
    ensures Bag(s.resolved)[c] <= One(c in s.accepted)
  {
    InvariantHolds(s);
    hide WakeInv, LeaveInv, BorrowInv, CallsInv, QueueInv, HandInv, NativeInv, PendingInv, HandledInv, RoutedInv,
        MessageInv, Bag;
  }

  /** What was resolved stays resolved, in the order it happened. */
  lemma ResolvedOnlyGrows(s: State, step: Step)
    requires Enabled(s, step)
    ensures s.resolved <= Apply(s, step).resolved
    ensures s.accepted <= Apply(s, step).accepted
  {
    if step.Owner? {
      hide OwnerApply, OwnerEnabled;
      OwnerResolves(s, step.turn);
    } else {
      hide CallerApply, CallerEnabled;
      CallerResolvesNothing(s, step.move);
    }
  }

  lemma CallerResolvesNothing(s: State, move: CallerStep)
    requires CallerEnabled(s, move)
    ensures CallerApply(s, move).resolved == s.resolved
    ensures s.accepted <= CallerApply(s, move).accepted
  {
    hide Message;
  }

  /** The owner's step answers at most one call. */
  lemma OwnerResolves(s: State, turn: OwnerStep)
    requires OwnerEnabled(s, turn)
    ensures var t := OwnerApply(s, turn);
      && t.accepted == s.accepted
      && (if turn.SendReply? then t.resolved == s.resolved + [Addressed(s.pc.call, s.pc.outcome)]
          else if turn.FailNext? && s.pending != [] then t.resolved == s.resolved + [Addressed(s.pending[0].call,
              Err(NetworkClosed))]
          else if turn.DiscardNext? && s.queue != [] then t.resolved == s.resolved + [Addressed(s.queue[0].call,
              Err(NetworkClosed))]
          else t.resolved == s.resolved)
  {
    hide Resolve, Settle, Message, Bag;
    if turn.SendReply? {
      ResolveEffect(s, s.pc.call, s.pc.outcome);
    } else if turn.FailNext? && s.pending != [] {
      ResolveEffect(s, s.pending[0].call, Err(NetworkClosed));
    } else if turn.DiscardNext? && s.queue != [] {
      ResolveEffect(s, s.queue[0].call, Err(NetworkClosed));
    }
  }

  lemma OnceAtExit(s: State, c: CallId)
    requires Inv(s) && s.pc.Exited? && c in s.accepted
    ensures Bag(s.resolved)[c] == 1
  {
    EmptyAtExit(s);
    hide WakeInv, LeaveInv, BorrowInv, CallsInv, QueueInv, HandInv, NativeInv, PendingInv, HandledInv, RoutedInv,
         MessageInv;
    assert Bag(s.queue)[c] == Hand(s.pc)[c] == Bag(s.pending)[c] == 0;
  }

  lemma EmptyAtExit(s: State)
    requires Inv(s) && s.pc.Exited?
    ensures s.queue == [] && s.pending == [] && !s.rxOpen
  {
    hide Conserved, WakeInv, BorrowInv, CallsInv, QueueInv, HandInv, NativeInv, PendingInv, HandledInv, RoutedInv,
         MessageInv, Bag;
  }

  /** A caller not yet through has a move of its own. */
  predicate CanMove(s: State, c: CallId)
    requires c in s.calls
  {
    || s.calls[c].phase.Over() || CallerEnabled(s, SendFails(c)) || CallerEnabled(s, Receive(c))
    || (CallerEnabled(s, Wake(c, false)) && s.calls[c].slot.Sent?)
  }

  lemma SlotAtExit(s: State, c: CallId)
    requires Inv(s) && s.pc.Exited? && c in s.calls
    ensures s.calls[c].phase.Enqueued? || s.calls[c].phase.Awaiting? ==> s.calls[c].slot.Sent?
  {
    CallAt(s, c);
    if c in s.accepted {
      OnceAtExit(s, c);
    }
    hide Inv, Bag;
  }

  /** Once the owner is gone every accepted command has exactly one resolution, and no
      caller is left without a move. */
  lemma ExactlyOnceAtExit(s: State)
    requires Reachable(s) && s.pc.Exited?
    ensures forall c <- s.accepted :: Bag(s.resolved)[c] == 1
    ensures forall c <- s.calls :: CanMove(s, c)
  {
    InvariantHolds(s);
    hide Inv, Reachable, Bag;
    forall c <- s.accepted
      ensures Bag(s.resolved)[c] == 1
    {
      OnceAtExit(s, c);
    }
    forall c <- s.calls
      ensures CanMove(s, c)
    {
      EmptyAtExit(s);
      SlotAtExit(s, c);
    }
  }

  /** Leaving through the disconnect branch, the owner has taken and submitted (or been
      refused) every command ever accepted. */
  lemma DisconnectHandlesAll(s: State)
    requires Reachable(s) && (s.pc.FailAll? || s.pc.Discard? || s.pc.Exited?) && s.pc.why.Disconnected?
    ensures s.queue == [] && !s.txOpen
    ensures forall c <- s.accepted :: Handled(s.ledger, c)
  {
    InvariantHolds(s);
    hide Conserved, WakeInv, BorrowInv, CallsInv, QueueInv, HandInv, NativeInv, PendingInv, RoutedInv, MessageInv;
  }

  // Routing

  /** A dispatch that returns Ok got the response the native side produced for the id
      its own method, path, headers and body were submitted under; one that returns an
      error got its own error or NetworkClosed. */
  lemma JustifiedReturn(s: State, c: CallId)
    requires Reachable(s) && c in s.calls && s.calls[c].phase.Returned?
    ensures Justified(s.ledger, s.calls, c, s.calls[c].phase.outcome)
  {
    InvariantHolds(s);
    CallAt(s, c);
    hide Conserved, WakeInv, LeaveInv, BorrowInv, CallsInv, QueueInv, HandInv, NativeInv, PendingInv, HandledInv,
        MessageInv, Bag, Justified;
  }

  /** No two calls share a native id, so no two can get one response. */
  lemma IdsAreApart(s: State, c: CallId, c': CallId)
    requires Reachable(s) && c in s.calls && c' in s.calls && c != c'
    requires s.calls[c].phase.Returned? && s.calls[c'].phase.Returned?
    requires s.calls[c].phase.outcome.Ok? && s.calls[c'].phase.outcome.Ok?
    ensures s.calls[c].phase.outcome.value.id != s.calls[c'].phase.outcome.value.id
  {
    JustifiedReturn(s, c);
    JustifiedReturn(s, c');
  }

  /** The owner only ever polls ids the native side still holds in flight. */
  lemma PollsOnlyLiveIds(s: State)
    requires Reachable(s) && s.pc.Poll? && s.pc.i < |s.pending|
    ensures var e := s.pending[s.pc.i];
      e.item in s.ledger.native && s.ledger.native[e.item].call == e.call && s.ledger.native[e.item].answer.InFlight?
  {
    InvariantHolds(s);
    hide Conserved, WakeInv, LeaveInv, BorrowInv, CallsInv, QueueInv, HandInv, NativeInv, HandledInv, RoutedInv,
        MessageInv;
    assert s.pending[s.pc.i] in s.pending;
  }

  // Messages

  /** Every message a poll yielded has exactly one owner, and none is freed twice. */
  lemma OneOwner(s: State, id: RequestId)
    requires Reachable(s) && id in s.ledger.native
    ensures Owners(id, s.ledger.native[id].call, s.calls, s.freed,
        Held(s.pc)) == One(s.ledger.native[id].answer.Answered?)
    ensures multiset(s.freed)[id] <= 1
  {
    InvariantHolds(s);
    hide Conserved, WakeInv, LeaveInv, BorrowInv, CallsInv, QueueInv, HandInv, NativeInv, PendingInv, HandledInv,
        RoutedInv;
  }

  /** With the owner gone, a message whose own call has released it, was cancelled, or had
      already returned an error has been freed exactly once, whatever other calls did. */
  lemma AllFreedAtTheEnd(s: State, id: RequestId)
    requires Reachable(s) && s.pc.Exited? && id in s.ledger.native && s.ledger.native[id].answer.Answered?
    requires var c := s.ledger.native[id].call;
      c in s.calls ==> MessageDone(s.calls[c].phase)
    ensures multiset(s.freed)[id] == 1
  {
    OneOwner(s, id);
    InvariantHolds(s);
    SlotSpent(s, s.ledger.native[id].call);
    hide Inv, Reachable;
  }

  /** The caller has no response of this call, and none is coming. */
  predicate MessageDone(phase: Phase) {
    phase.Released? || phase.Cancelled? || (phase.Returned? && phase.outcome.Err?)
  }

  lemma SlotSpent(s: State, c: CallId)
    requires Inv(s)
    ensures c in s.calls && MessageDone(s.calls[c].phase) ==> !s.calls[c].slot.Sent?
  {
    if c in s.calls {
      CallAt(s, c);
    }
    hide Inv, Bag;
  }
}
