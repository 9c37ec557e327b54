/** After the client handle is dropped the owner thread leaves within a number of its
    own steps fixed by where it stands, and never blocks on the way. */
module BridgeExit {
  import opened Wire
  import opened Bags
  import opened Bridge
  import opened BridgeInvariant
  import opened BridgeSafety
  import Marshal

  /** The handle's drop has run: sender gone, then the wake. */
  ghost predicate HungUp(s: State) {
    Inv(s) && !s.txOpen && s.dropWoken
  }

  /** An upper bound on the owner's remaining steps, from its program counter, the
      queue length, the table length and the wakes still to read. */
  function RankAt(pc: Pc, q: nat, p: nat, wakes: nat): nat {
    match pc
    case Exited(_) => 0
    case Discard(_) => q + 1
    case FailAll(_) => p + q + 2
    case Recv => 4 * q + p + 3
    case Submit(_) => 4 * q + p + 6
    case Reply(_, _, ToRecv) => 4 * q + p + 4
    case Clear => 4 * q + p + 4 + wakes
    case Block => 4 * q + p + 5 + wakes
    case Poll(i) => 4 * q + p + 6 + wakes + 2 * (if i < p then p - i else 0)
    case Reply(_, _, ToPoll(i)) => 4 * q + p + 7 + wakes + 2 * (if i < p then p - i else 0)
    case Tick => 4 * q + 3 * p + 7 + wakes
  }

  function Rank(s: State): nat {
    RankAt(s.pc, |s.queue|, |s.pending|, s.wakes)
  }

  lemma FlowOf(s: State)
    requires Inv(s)
    ensures WakeInv(s.pc, s.wakes > 0, s.calls, s.queue, s.txOpen, s.dropWoken)
    ensures LeaveInv(s.pc, s.queue, s.pending, s.rxOpen, s.txOpen, s.dropWoken)
    ensures BorrowInv(s.calls, s.txOpen)
  {
  }

  lemma IntakeDescends(s: State, turn: OwnerStep)
    requires OwnerEnabled(s, turn) && !s.txOpen && (turn.TryRecv? || turn.SubmitOk? || turn.SubmitErr?)
    ensures var t := OwnerApply(s, turn); t.txOpen == s.txOpen && t.dropWoken == s.dropWoken && Rank(t) < Rank(s)
  {
    hide Resolve, Settle, Message, Bag, Polled;
  }

  lemma PollDescends(s: State, turn: OwnerStep)
    requires OwnerEnabled(s, turn) && (turn.TickOk? || turn.TickDead? || turn.PollPending? || turn.PollOk?
        || turn.PollErr? || turn.PollEnd?)
    ensures var t := OwnerApply(s, turn); t.txOpen == s.txOpen && t.dropWoken == s.dropWoken && Rank(t) < Rank(s)
  {
    hide Resolve, Settle, Message, Bag;
  }

  lemma ReplyDescends(s: State, turn: OwnerStep)
    requires OwnerEnabled(s, turn) && (turn.SendReply? || turn.FailNext? || turn.DiscardNext?)
    ensures var t := OwnerApply(s, turn); t.txOpen == s.txOpen && t.dropWoken == s.dropWoken && Rank(t) < Rank(s)
  {
    hide Resolve, Settle, Message, Bag, Polled;
    if turn.SendReply? {
      ResolveEffect(s, s.pc.call, s.pc.outcome);
    } else if turn.FailNext? && s.pending != [] {
      ResolveEffect(s, s.pending[0].call, Err(NetworkClosed));
    } else if turn.DiscardNext? && s.queue != [] {
      ResolveEffect(s, s.queue[0].call, Err(NetworkClosed));
    }
  }

  lemma WaitDescends(s: State, turn: OwnerStep)
    requires OwnerEnabled(s, turn) && (turn.WaitEnds? || turn.ReadWaker?)
    ensures var t := OwnerApply(s, turn); t.txOpen == s.txOpen && t.dropWoken == s.dropWoken && Rank(t) < Rank(s)
  {
    hide Resolve, Settle, Message, Bag, Polled;
  }

  lemma OwnerDescends(s: State, turn: OwnerStep)
    requires OwnerEnabled(s, turn) && !s.txOpen
    ensures var t := OwnerApply(s, turn); t.txOpen == s.txOpen && t.dropWoken == s.dropWoken && Rank(t) < Rank(s)
  {
    hide OwnerEnabled, OwnerApply, Rank;
    if turn.TryRecv? || turn.SubmitOk? || turn.SubmitErr? {
      IntakeDescends(s, turn);
    } else if turn.SendReply? || turn.FailNext? || turn.DiscardNext? {
      ReplyDescends(s, turn);
    } else if turn.WaitEnds? || turn.ReadWaker? {
      WaitDescends(s, turn);
    } else {
      PollDescends(s, turn);
    }
  }

  /** Nobody can begin, send or wake any more: only responses are still released. */
  lemma CallersStandStill(s: State, move: CallerStep)
    requires BorrowInv(s.calls, s.txOpen) && !s.txOpen && s.dropWoken && CallerEnabled(s, move)
    ensures move.Release?
    ensures var t := CallerApply(s, move); t == s.(calls := t.calls, freed := t.freed)
  {
    hide Message;
  }

  lemma StepDescends(s: State, step: Step)
    requires HungUp(s) && Enabled(s, step)
    ensures HungUp(Apply(s, step))
    ensures Rank(Apply(s, step)) + One(step.Owner?) <= Rank(s)
  {
    StepKeeps(s, step);
    FlowOf(s);
    hide Inv, CallerApply, OwnerApply, CallerEnabled, OwnerEnabled, RankAt, WakeInv, LeaveInv, BorrowInv;
    match step
    case Caller(move) => CallersStandStill(s, move);
    case Owner(turn) => OwnerDescends(s, turn);
  }

  function OwnerSteps(steps: seq<Step>): nat {
    if steps == [] then 0 else OwnerSteps(steps[..|steps| - 1]) + One(steps[|steps| - 1].Owner?)
  }

  /** In any run from there, whatever the schedule and the native answers, the owner
      takes at most `Rank` steps. */
  lemma {:induction false} RunBounded(s: State, steps: seq<Step>)
    requires HungUp(s) && Exec(s, steps).Some?
    ensures HungUp(Exec(s, steps).value)
    ensures OwnerSteps(steps) + Rank(Exec(s, steps).value) <= Rank(s)
  {
    hide HungUp, Rank, Apply, Enabled;
    if steps != [] {
      var front := steps[..|steps| - 1];
      RunBounded(s, front);
      StepDescends(Exec(s, front).value, steps[|steps| - 1]);
    }
  }

  /** A step the owner can take now; in the wait, the one the set signal grants. */
  function Next(s: State): (turn: OwnerStep)
    requires !s.pc.Exited?
  {
    match s.pc
    case Recv => TryRecv
    case Submit(_) => SubmitErr(ProtoInvalidHeader)
    case Reply(_, _, _) => SendReply
    case Tick => TickOk
    case Poll(i) => if i < |s.pending| then PollPending else PollEnd
    case Block => WaitEnds(Signalled)
    case Clear => ReadWaker(0)
    case FailAll(_) => FailNext
    case Discard(_) => DiscardNext
  }

  lemma NextEnabled(s: State)
    requires !s.pc.Exited? && (s.pc.Block? ==> s.wakes > 0)
    ensures OwnerEnabled(s, Next(s))
  {
    hide Marshal.ViewOf, Marshal.NulFree;
  }

  /** Until it has left, the owner can always move; in particular its wait never blocks. */
  lemma NeverBlocks(s: State)
    requires HungUp(s) && !s.pc.Exited?
    ensures OwnerEnabled(s, Next(s))
    ensures s.pc.Block? ==> s.wakes > 0
  {
    FlowOf(s);
    hide Inv, LeaveInv, BorrowInv, OwnerEnabled, Next;
    NextEnabled(s);
  }

  /** Hence it does leave: following its own steps from any program point reaches the
      exit, with every accepted command resolved exactly once. */
  lemma {:induction false} ReachesExit(s: State) returns (steps: seq<Step>, t: State)
    requires HungUp(s)
    ensures Exec(s, steps) == Some(t) && t.pc.Exited? && HungUp(t)
    ensures forall step <- steps :: step.Owner?
    ensures |steps| <= Rank(s)
    decreases Rank(s)
  {
    if s.pc.Exited? {
      return [], s;
    }
    NeverBlocks(s);
    var step := Owner(Next(s));
    StepDescends(s, step);
    hide HungUp, Rank, Apply, Enabled, OwnerEnabled;
    var rest;
    rest, t := ReachesExit(Apply(s, step));
    steps := [step] + rest;
    ExecConcat(s, step, rest);
  }

  lemma {:induction false} ExecConcat(s: State, step: Step, rest: seq<Step>)
    requires Enabled(s, step)
    ensures Exec(s, [step] + rest) == Exec(Apply(s, step), rest)
  {
    hide Apply, Enabled;
    var all := [step] + rest;
    if rest == [] {
      assert all[..0] == [];
      assert Exec(s, all[..0]) == Some(s);
    } else {
      assert all[..|all| - 1] == [step] + rest[..|rest| - 1];
      ExecConcat(s, step, rest[..|rest| - 1]);
    }
  }

  // A signal is served

  /** The owner's steps until it takes the next command: out of the wait, through the reads
      the wakes allow and the one that finds nothing, to the queue. */
  function ToQueue(pc: Pc, wakes: nat): nat
    requires pc.Block? || pc.Clear? || pc.Recv?
  {
    if pc.Block? then wakes + 3 else if pc.Clear? then wakes + 2 else 1
  }

  lemma {:induction false} ExecFirst(s: State, steps: seq<Step>)
    requires steps != [] && Exec(s, steps).Some?
    ensures Enabled(s, steps[0]) && Exec(Apply(s, steps[0]), steps[1..]) == Exec(s, steps)
  {
    hide Apply, Enabled;
    var front := steps[..|steps| - 1];
    if front == [] {
      assert Exec(s, front) == Some(s);
      assert steps[1..] == [];
    } else {
      ExecFirst(s, front);
      assert steps[1..][..|steps| - 2] == front[1..];
    }
  }

  lemma OwnerTowardsQueue(s: State, turn: OwnerStep)
    requires OwnerEnabled(s, turn) && (s.pc.Block? || s.pc.Clear? || s.pc.Recv?)
    ensures var t := OwnerApply(s, turn);
      if s.pc.Recv? then s.queue != [] ==> t.pc == Submit(s.queue[0])
      else
        && (t.pc.Block? || t.pc.Clear? || t.pc.Recv?) && t.queue == s.queue
        && ToQueue(t.pc, t.wakes) < ToQueue(s.pc, s.wakes)
  {
    hide Resolve, Settle, Message, Bag, Polled;
  }

  /** Blocked, the set signal alone lets the owner go on, with no need of the timer or the
      socket; and from there, however its reads of the waker go, within `wakes + 3` of its
      own steps it has taken the oldest queued command. */
  lemma SignalIsServed(s: State, steps: seq<Step>)
    requires s.pc.Block? && s.wakes > 0 && s.queue != []
    requires Exec(s, steps).Some? && (forall step <- steps :: step.Owner?) && |steps| >= s.wakes + 3
    ensures OwnerEnabled(s, WaitEnds(Signalled))
    ensures exists k | 0 < k <= s.wakes + 3 ::
              Exec(s, steps[..k]).Some? && Exec(s, steps[..k]).value.pc == Submit(s.queue[0])
  {
    var k := ReachesQueue(s, steps);
    assert Exec(s, steps[..k]).Some?;
  }

  lemma {:induction false} ReachesQueue(s: State, steps: seq<Step>) returns (k: nat)
    requires (s.pc.Block? || s.pc.Clear? || s.pc.Recv?) && s.queue != []
    requires Exec(s, steps).Some? && (forall step <- steps :: step.Owner?) && |steps| >= ToQueue(s.pc, s.wakes)
    ensures 0 < k <= ToQueue(s.pc, s.wakes) && k <= |steps|
    ensures Exec(s, steps[..k]).Some? && Exec(s, steps[..k]).value.pc == Submit(s.queue[0])
    decreases |steps|
  {
    hide Exec, OwnerApply, OwnerEnabled;
    var first, rest := steps[0], steps[1..];
    ExecFirst(s, steps);
    OwnerTowardsQueue(s, first.turn);
    if s.pc.Recv? {
      k := 1;
      OneStep(s, first);
      assert steps[..1] == [first];
    } else {
      var j := ReachesQueue(OwnerApply(s, first.turn), rest);
      k := j + 1;
      ExecConcat(s, first, rest[..j]);
      assert [first] + rest[..j] == steps[..k];
    }
  }

  lemma OneStep(s: State, step: Step)
    requires Enabled(s, step)
    ensures Exec(s, [step]) == Some(Apply(s, step))
  {
    hide Apply, Enabled;
    assert [step][..0] == [];
    assert Exec(s, [step][..0]) == Some(s);
  }
}
