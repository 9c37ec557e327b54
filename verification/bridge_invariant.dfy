/** The bridge's invariant and its preservation by every step. Each part names the
    fields it reads, so a step that leaves them alone keeps it at once. */
module BridgeInvariant {
  import opened Wire
  import opened Bags
  import opened Bridge
  import Marshal

  /** Every accepted call is in exactly one place, once. */
  ghost predicate Conserved(queue: seq<Command>, hand: multiset<CallId>, pending: seq<Entry>,
                            resolved: seq<Resolution>, accepted: set<CallId>)
  {
    forall c :: Bag(queue)[c] + hand[c] + Bag(pending)[c] + Bag(resolved)[c] == One(c in accepted)
  }

  /** The owner has seen the queue empty and not yet touched the signal. */
  predicate PastEmpty(pc: Pc) {
    pc.Tick? || pc.Poll? || pc.Block? || (pc.Reply? && pc.after.ToPoll?)
  }

  /** Unless the signal is set, whoever queued work or hung up has still to set it. */
  ghost predicate SignalDue(calls: map<CallId, Call>, queue: seq<Command>, txOpen: bool, dropWoken: bool) {
    && (forall cmd <- queue :: cmd.call in calls && calls[cmd.call].phase.Enqueued?)
    && (!txOpen ==> !dropWoken)
  }

  ghost predicate WakeInv(pc: Pc, signal: bool, calls: map<CallId, Call>, queue: seq<Command>, txOpen: bool,
      dropWoken: bool) {
    PastEmpty(pc) && !signal ==> SignalDue(calls, queue, txOpen, dropWoken)
  }

  ghost predicate LeaveInv(pc: Pc, queue: seq<Command>, pending: seq<Entry>, rxOpen: bool, txOpen: bool,
      dropWoken: bool) {
    && ((pc.Discard? || pc.Exited?) <==> !rxOpen)
    && (!rxOpen ==> pending == [])
    && (pc.Exited? ==> queue == [])
    && ((pc.FailAll? || pc.Discard? || pc.Exited?) && pc.why.Disconnected? ==> queue == [] && !txOpen)
    && (dropWoken ==> !txOpen)
    && |queue| <= CAPACITY
  }

  /** The handle outlives every dispatch future that borrows it. */
  ghost predicate BorrowInv(calls: map<CallId, Call>, txOpen: bool) {
    !txOpen ==> forall c <- calls :: calls[c].phase.Over()
  }

  ghost predicate CallInv(c: CallId, call: Call, accepted: set<CallId>, resolved: seq<Resolution>) {
    && (call.phase.Waiting? ==> c !in accepted)
    && (call.phase.Enqueued? || call.phase.Awaiting? ==> c in accepted)
    && (call.slot.Open? <==> Bag(resolved)[c] == 0)
    && (call.slot.Sent? ==> !call.phase.Over() && Addressed(c, call.slot.outcome) in resolved)
    && (call.phase.Enqueued? || call.phase.Awaiting? ==> !call.slot.Emptied?)
    && (call.phase.Returned? ==>
          if c in accepted then call.slot.Emptied? && Addressed(c, call.phase.outcome) in resolved
          else call.phase.outcome == Err(NetworkClosed))
    && (call.phase.Released? ==> call.slot.Emptied?)
    && (c !in accepted ==> call.slot.Open?)
  }

  ghost predicate CallsInv(calls: map<CallId, Call>, accepted: set<CallId>, resolved: seq<Resolution>) {
    && (forall c <- accepted :: c in calls)
    && (forall c <- calls :: CallInv(c, calls[c], accepted, resolved))
  }

  /** A command not yet submitted carries its call's request. */
  ghost predicate Fresh(cmd: Command, calls: map<CallId, Call>, ledger: Ledger) {
    cmd.call in calls && cmd.item == calls[cmd.call].request && !Handled(ledger, cmd.call)
  }

  ghost predicate QueueInv(queue: seq<Command>, calls: map<CallId, Call>, ledger: Ledger) {
    forall cmd <- queue :: Fresh(cmd, calls, ledger)
  }

  ghost predicate HandInv(pc: Pc, calls: map<CallId, Call>, ledger: Ledger) {
    && (pc.Submit? ==> Fresh(pc.cmd, calls, ledger))
    && (pc.Reply? ==> Justified(ledger, calls, pc.call, pc.outcome))
  }

  /** A row of the native table matches the dispatch it was submitted for. */
  ghost predicate RowInv(id: RequestId, ledger: Ledger, calls: map<CallId, Call>)
    requires id in ledger.native
  {
    var row := ledger.native[id];
    && row.call in ledger.ids && ledger.ids[row.call] == id
    && row.call in calls && calls[row.call].request == row.request
  }

  ghost predicate NativeInv(ledger: Ledger, calls: map<CallId, Call>, accepted: set<CallId>) {
    && (forall c <- ledger.ids :: c in accepted)
    && (forall c <- ledger.refused :: c in accepted)
    && (forall id <- ledger.native :: RowInv(id, ledger, calls))
  }

  /** Every row of the in-flight table holds an id still in flight for its call. */
  ghost predicate PendingInv(pending: seq<Entry>, native: map<RequestId, Submission>) {
    forall e <- pending :: e.item in native && native[e.item].call == e.call && native[e.item].answer.InFlight?
  }

  ghost predicate HandledInv(accepted: set<CallId>, ledger: Ledger, queue: multiset<CallId>, pc: Pc) {
    forall c <- accepted ::
      || Handled(ledger, c) || queue[c] > 0 || (pc.Submit? && pc.cmd.call == c)
      || ((pc.Discard? || pc.Exited?) && pc.why.Dead?)
  }

  ghost predicate RoutedInv(resolved: seq<Resolution>, ledger: Ledger, calls: map<CallId, Call>) {
    forall r <- resolved :: Justified(ledger, calls, r.call, r.item)
  }

  ghost predicate MessageInv(native: map<RequestId, Submission>, calls: map<CallId, Call>, freed: seq<RequestId>,
                             held: Option<Outcome>)
  {
    && (forall id <- native :: Owners(id, native[id].call, calls, freed, held) == One(native[id].answer.Answered?))
    && (forall id <- freed :: id in native)
  }

  ghost predicate Inv(s: State) {
    && Conserved(s.queue, Hand(s.pc), s.pending, s.resolved, s.accepted)
    && WakeInv(s.pc, s.wakes > 0, s.calls, s.queue, s.txOpen, s.dropWoken)
    && LeaveInv(s.pc, s.queue, s.pending, s.rxOpen, s.txOpen, s.dropWoken)
    && BorrowInv(s.calls, s.txOpen)
    && CallsInv(s.calls, s.accepted, s.resolved)
    && QueueInv(s.queue, s.calls, s.ledger)
    && HandInv(s.pc, s.calls, s.ledger)
    && NativeInv(s.ledger, s.calls, s.accepted)
    && PendingInv(s.pending, s.ledger.native)
    && HandledInv(s.accepted, s.ledger, Bag(s.queue), s.pc)
    && RoutedInv(s.resolved, s.ledger, s.calls)
    && MessageInv(s.ledger.native, s.calls, s.freed, Held(s.pc))
  }

  // What the conservation law says about one call

  /** A pending row's call is in no other place and in no other row. */
  lemma PendingApart(s: State, i: nat)
    requires Conserved(s.queue, Hand(s.pc), s.pending, s.resolved, s.accepted) && i < |s.pending|
    ensures forall j | 0 <= j < |s.pending| && j != i :: s.pending[j].call != s.pending[i].call
    ensures var c := s.pending[i].call;
      c in s.accepted && Bag(s.queue)[c] == 0 && Hand(s.pc)[c] == 0 && Bag(s.resolved)[c] == 0
  {
    BagAt(s.pending, i);
  }

  lemma QueueApart(s: State)
    requires Conserved(s.queue, Hand(s.pc), s.pending, s.resolved, s.accepted) && s.queue != []
    ensures forall j | 1 <= j < |s.queue| :: s.queue[j].call != s.queue[0].call
    ensures var c := s.queue[0].call;
      c in s.accepted && Hand(s.pc)[c] == 0 && Bag(s.pending)[c] == 0 && Bag(s.resolved)[c] == 0
  {
    BagAt(s.queue, 0);
  }

  lemma HandApart(s: State, c: CallId)
    requires Conserved(s.queue, Hand(s.pc), s.pending, s.resolved, s.accepted) && Hand(s.pc)[c] > 0
    ensures c in s.accepted && Bag(s.queue)[c] == 0 && Bag(s.pending)[c] == 0 && Bag(s.resolved)[c] == 0
    ensures forall cmd <- s.queue :: cmd.call != c
    ensures forall e <- s.pending :: e.call != c
  {
    forall cmd <- s.queue
      ensures cmd.call != c
    {
      var j :| 0 <= j < |s.queue| && s.queue[j] == cmd;
      BagAt(s.queue, j);
    }
    forall e <- s.pending
      ensures e.call != c
    {
      var j :| 0 <= j < |s.pending| && s.pending[j] == e;
      BagAt(s.pending, j);
    }
  }

  // What changing one call keeps

  predicate SameRequests(calls: map<CallId, Call>, calls': map<CallId, Call>) {
    forall c <- calls :: c in calls' && calls'[c].request == calls[c].request
  }

  lemma RequestsKeep(s: State, calls': map<CallId, Call>)
    requires Inv(s) && SameRequests(s.calls, calls')
    ensures QueueInv(s.queue, calls', s.ledger) && HandInv(s.pc, calls', s.ledger)
    ensures NativeInv(s.ledger, calls', s.accepted) && RoutedInv(s.resolved, s.ledger, calls')
  {
    hide Conserved, WakeInv, LeaveInv, BorrowInv, CallsInv, PendingInv, HandledInv, MessageInv;
  }

  /** A message stays with one owner when call `c`'s share and the frees change together. */
  lemma MessagesKeep(native: map<RequestId, Submission>, calls: map<CallId, Call>, freed: seq<RequestId>,
      held: Option<Outcome>,
                     c: CallId, call': Call, freed': seq<RequestId>, held': Option<Outcome>)
    requires MessageInv(native, calls, freed, held) && c in calls
    requires forall id <- native ::
      Owners(id, native[id].call, calls[c := call'], freed', held') == Owners(id, native[id].call, calls, freed, held)
    requires forall id <- freed' :: id in native
    ensures MessageInv(native, calls[c := call'], freed', held')
  {
  }

  /** The message of a justified outcome belongs to the call it is justified for. */
  lemma OwnMessage(s: State, c: CallId, out: Outcome)
    requires Inv(s) && Addressed(c, out) in s.resolved && out.Ok?
    ensures out.value.id in s.ledger.native && s.ledger.native[out.value.id].call == c
  {
    assert Justified(s.ledger, s.calls, c, out);
  }

  /** The books of a call after some call's resolution: another's, or its own. */
  lemma OtherResolved(c': CallId, call: Call, accepted: set<CallId>, resolved: seq<Resolution>, r: Resolution)
    requires CallInv(c', call, accepted, resolved) && r.call != c'
    ensures CallInv(c', call, accepted, resolved + [r])
  {
    BagAppend(resolved, r);
    hide Bag;
  }

  lemma OwnResolved(c: CallId, call: Call, accepted: set<CallId>, resolved: seq<Resolution>, out: Outcome, slot': Slot)
    requires CallInv(c, call, accepted, resolved) && c in accepted && Bag(resolved)[c] == 0
    requires slot' == if call.phase.Cancelled? then Emptied else Sent(out)
    ensures CallInv(c, call.(slot := slot'), accepted, resolved + [Addressed(c, out)])
  {
    BagAppend(resolved, Addressed(c, out));
    hide Bag;
  }

  /** Resolving an accepted, unresolved call keeps the callers' books. */
  lemma CallsResolved(calls: map<CallId, Call>, accepted: set<CallId>, resolved: seq<Resolution>, c: CallId,
      out: Outcome, slot': Slot)
    requires CallsInv(calls, accepted, resolved) && c in accepted && Bag(resolved)[c] == 0
    requires slot' == if calls[c].phase.Cancelled? then Emptied else Sent(out)
    ensures CallsInv(calls[c := calls[c].(slot := slot')], accepted, resolved + [Addressed(c, out)])
  {
    hide CallInv, Bag;
    var r := Addressed(c, out);
    var calls' := calls[c := calls[c].(slot := slot')];
    forall c' <- calls'
      ensures CallInv(c', calls'[c'], accepted, resolved + [r])
    {
      assert CallInv(c', calls[c'], accepted, resolved);
      if c' == c {
        OwnResolved(c, calls[c], accepted, resolved, out, slot');
      } else {
        OtherResolved(c', calls[c'], accepted, resolved, r);
      }
    }
  }

  /** The owner hands over (or frees) what it holds, or sends a mere error. */
  lemma MessagesResolved(native: map<RequestId, Submission>, calls: map<CallId, Call>, freed: seq<RequestId>,
      held: Option<Outcome>,
                         c: CallId, out: Outcome)
    requires MessageInv(native, calls, freed, held) && c in calls && calls[c].slot.Open?
    requires if held.Some? then held.value == out else out.Err?
    requires out.Ok? ==> out.value.id in native && native[out.value.id].call == c
    ensures
      if calls[c].phase.Cancelled?
      then MessageInv(native, calls[c := calls[c].(slot := Emptied)], freed + Message(out), None)
      else MessageInv(native, calls[c := calls[c].(slot := Sent(out))], freed, None)
  {
    if calls[c].phase.Cancelled? {
      MessagesKeep(native, calls, freed, held, c, calls[c].(slot := Emptied), freed + Message(out), None);
    } else {
      MessagesKeep(native, calls, freed, held, c, calls[c].(slot := Sent(out)), freed, None);
    }
  }

  // One lemma a step

  lemma CallAt(s: State, c: CallId)
    requires CallsInv(s.calls, s.accepted, s.resolved) && c in s.calls
    ensures CallInv(c, s.calls[c], s.accepted, s.resolved)
  {
    hide CallInv;
  }

  lemma CallRephased(s: State, c: CallId, call': Call)
    requires CallsInv(s.calls, s.accepted, s.resolved) && c in s.calls && CallInv(c, call', s.accepted, s.resolved)
    ensures CallsInv(s.calls[c := call'], s.accepted, s.resolved)
  {
    hide CallInv;
  }

  /** What a caller's own move keeps besides its own books. */
  lemma Rephased(s: State, c: CallId, call': Call, freed': seq<RequestId>)
    requires Inv(s) && c in s.calls && call'.request == s.calls[c].request
    requires forall id <- freed' :: id in s.ledger.native
    requires forall id <- s.ledger.native ::
      if s.ledger.native[id].call == c
      then CallOwns(call', id) + multiset(freed')[id] == CallOwns(s.calls[c], id) + multiset(s.freed)[id]
      else multiset(freed')[id] == multiset(s.freed)[id]
    ensures var calls' := s.calls[c := call'];
      && QueueInv(s.queue, calls', s.ledger) && HandInv(s.pc, calls', s.ledger)
      && NativeInv(s.ledger, calls', s.accepted) && RoutedInv(s.resolved, s.ledger, calls')
      && MessageInv(s.ledger.native, calls', freed', Held(s.pc))
  {
    hide Conserved, WakeInv, LeaveInv, BorrowInv, CallsInv, PendingInv, HandledInv, MessageInv, QueueInv, HandInv,
        NativeInv, RoutedInv;
    RequestsKeep(s, s.calls[c := call']);
    MessagesKeep(s.ledger.native, s.calls, s.freed, Held(s.pc), c, call', freed', Held(s.pc));
  }

  lemma BeginCalls(s: State, c: CallId, request: Request)
    requires Inv(s) && c !in s.calls
    ensures var calls' := s.calls[c := Call(request, Waiting, Open)];
      CallsInv(calls', s.accepted, s.resolved) && MessageInv(s.ledger.native, calls', s.freed, Held(s.pc))
  {
    hide WakeInv, LeaveInv, BorrowInv, PendingInv, HandledInv, QueueInv, HandInv, RoutedInv, Justified, Bag;
    assert Bag(s.resolved)[c] == 0;
  }

  lemma EnqueueCalls(s: State, c: CallId)
    requires CallsInv(s.calls, s.accepted, s.resolved) && c in s.calls && s.calls[c].phase.Waiting?
    ensures CallsInv(s.calls[c := s.calls[c].(phase := Enqueued)], s.accepted + {c}, s.resolved)
  {
    hide Bag;
  }

  /** A caller that is not between enqueue and wake finishes its future. */
  lemma CallerMoved(s: State, c: CallId, call': Call, freed': seq<RequestId>)
    requires Inv(s) && c in s.calls && call'.request == s.calls[c].request
    requires !s.calls[c].phase.Enqueued? && call'.phase.Over()
    requires CallInv(c, call', s.accepted, s.resolved)
    requires forall id <- freed' :: id in s.ledger.native
    requires forall id <- s.ledger.native ::
      if s.ledger.native[id].call == c
      then CallOwns(call', id) + multiset(freed')[id] == CallOwns(s.calls[c], id) + multiset(s.freed)[id]
      else multiset(freed')[id] == multiset(s.freed)[id]
    ensures Inv(s.(calls := s.calls[c := call'], freed := freed'))
  {
    hide Conserved, LeaveInv, CallsInv, CallInv, QueueInv, Fresh, HandInv, NativeInv, RowInv, PendingInv,
        HandledInv, RoutedInv, Justified, MessageInv, Bag, CallOwns;
    CallRephased(s, c, call');
    Rephased(s, c, call', freed');
  }

  /** The frees recorded so far are of messages the native side produced. */
  lemma FreedKnown(s: State)
    requires Inv(s)
    ensures forall id <- s.freed :: id in s.ledger.native
  {
    hide Conserved, WakeInv, LeaveInv, BorrowInv, CallsInv, QueueInv, HandInv, NativeInv, PendingInv, HandledInv,
        RoutedInv, Owners;
  }

  lemma SubmitLedger(queue: seq<Command>, resolved: seq<Resolution>, calls: map<CallId, Call>, accepted: set<CallId>,
                     ledger: Ledger, c: CallId, id: RequestId, ledger': Ledger)
    requires QueueInv(queue, calls, ledger) && NativeInv(ledger, calls, accepted) && RoutedInv(resolved, ledger,
        calls)
    requires c in calls && c in accepted && !Handled(ledger, c) && id !in ledger.native
    requires forall cmd <- queue :: cmd.call != c
    requires ledger' == ledger.(native := ledger.native[id := Submission(c, calls[c].request, InFlight)],
        ids := ledger.ids[c := id])
    ensures QueueInv(queue, calls, ledger') && NativeInv(ledger', calls, accepted) && RoutedInv(resolved, ledger',
        calls)
  {
  }

  lemma SubmitMessages(native: map<RequestId, Submission>, calls: map<CallId, Call>, freed: seq<RequestId>,
                       resolved: seq<Resolution>, ledger: Ledger, c: CallId, id: RequestId, request: Request,
                           accepted: set<CallId>)
    requires MessageInv(native, calls, freed, None) && id !in native && ledger.native == native
    requires CallsInv(calls, accepted, resolved) && RoutedInv(resolved, ledger, calls) && c in calls
    ensures MessageInv(native[id := Submission(c, request, InFlight)], calls, freed, None)
  {
    assert CallInv(c, calls[c], accepted, resolved);
    assert forall out | Addressed(c, out) in resolved :: Justified(ledger, calls, c, out);
  }

  lemma RefuseLedger(queue: seq<Command>, resolved: seq<Resolution>, calls: map<CallId, Call>, accepted: set<CallId>,
                     ledger: Ledger, c: CallId, ledger': Ledger, e: Error)
    requires QueueInv(queue, calls, ledger) && NativeInv(ledger, calls, accepted) && RoutedInv(resolved, ledger,
        calls)
    requires !Handled(ledger, c) && c in accepted && ledger' == ledger.(refused := ledger.refused[c := e])
    requires forall cmd <- queue :: cmd.call != c
    ensures QueueInv(queue, calls, ledger') && NativeInv(ledger', calls, accepted) && RoutedInv(resolved, ledger',
        calls)
  {
  }

  lemma PollLedger(queue: seq<Command>, resolved: seq<Resolution>, calls: map<CallId, Call>, accepted: set<CallId>,
                   ledger: Ledger, id: RequestId, answer: Answer)
    requires QueueInv(queue, calls, ledger) && NativeInv(ledger, calls, accepted) && RoutedInv(resolved, ledger,
        calls)
    requires id in ledger.native && ledger.native[id].answer.InFlight? && !answer.InFlight?
    ensures var ledger' := Settle(ledger, id, answer);
      QueueInv(queue, calls, ledger') && NativeInv(ledger', calls, accepted) && RoutedInv(resolved, ledger', calls)
  {
  }

  lemma PollMessages(native: map<RequestId, Submission>, calls: map<CallId, Call>, freed: seq<RequestId>,
      id: RequestId,
                     answer: Answer, out: Outcome)
    requires MessageInv(native, calls, freed, None) && id in native && native[id].answer.InFlight?
    requires (answer.Answered? && out == Ok(Response(id, answer.payload))) || (out.Err?
        && answer == Failed(out.error))
    ensures MessageInv(native[id := native[id].(answer := answer)], calls, freed, Some(out))
  {
  }

  lemma PollPendingRows(pending: seq<Entry>, i: nat, native: map<RequestId, Submission>, answer: Answer)
    requires PendingInv(pending, native) && i < |pending|
    requires forall j | 0 <= j < |pending| && j != i :: pending[j].call != pending[i].call
    ensures pending[i].item in native && native[pending[i].item].call == pending[i].call
        && native[pending[i].item].answer.InFlight?
    ensures PendingInv(SwapRemove(pending, i), native[pending[i].item := native[pending[i].item].(answer := answer)])
  {
    assert pending[i] in pending;
    SwapRemoveAt(pending, i);
    var rest := SwapRemove(pending, i);
    forall j | 0 <= j < |rest|
      ensures rest[j].call != pending[i].call
    {
    }
  }

  /** A poll that finishes a request, up to the reply. */
  lemma PolledKeeps(s: State, answer: Answer, out: Outcome)
    requires Inv(s) && s.pc.Poll? && s.pc.i < |s.pending|
    requires (answer.Answered? && out == Ok(Response(s.pending[s.pc.i].item, answer.payload))) || (out.Err?
        && answer == Failed(out.error))
    ensures Inv(Polled(s, answer, out))
  {
    hide BorrowInv, CallsInv, CallInv, QueueInv, Fresh, NativeInv, PendingInv, RoutedInv, MessageInv, Owners, Bag,
        SameRequests;
    var e := s.pending[s.pc.i];
    PendingApart(s, s.pc.i);
    BagSwapRemove(s.pending, s.pc.i);
    PollPendingRows(s.pending, s.pc.i, s.ledger.native, answer);
    PollLedger(s.queue, s.resolved, s.calls, s.accepted, s.ledger, e.item, answer);
    PollMessages(s.ledger.native, s.calls, s.freed, e.item, answer, out);
    RowAt(s, e.item);
  }

  lemma RowAt(s: State, id: RequestId)
    requires Inv(s) && id in s.ledger.native
    ensures RowInv(id, s.ledger, s.calls)
  {
    hide Conserved, WakeInv, LeaveInv, BorrowInv, CallsInv, QueueInv, HandInv, RowInv, PendingInv, HandledInv,
        RoutedInv, MessageInv;
  }

  lemma ResolveShape(s: State, c: CallId, out: Outcome)
    requires c in s.calls
    ensures var t := Resolve(s, c, out);
      && t == s.(calls := t.calls, resolved := s.resolved + [Addressed(c, out)], freed := t.freed)
      && Bag(t.resolved) == Bag(s.resolved) + multiset{c}
      && t.calls == s.calls[c := s.calls[c].(slot := t.calls[c].slot)]
  {
    hide Bag;
    BagAppend(s.resolved, Addressed(c, out));
  }

  lemma RoutedAppend(resolved: seq<Resolution>, ledger: Ledger, calls: map<CallId, Call>, calls': map<CallId, Call>,
      c: CallId, out: Outcome)
    requires RoutedInv(resolved, ledger, calls') && Justified(ledger, calls, c, out) && SameRequests(calls, calls')
    ensures RoutedInv(resolved + [Addressed(c, out)], ledger, calls')
  {
  }

  /** Resolving an accepted, unresolved call keeps every part that reads the calls. */
  lemma Resolved(s: State, c: CallId, out: Outcome)
    requires Inv(s) && c in s.calls && Bag(s.resolved)[c] == 0 && c in s.accepted
    requires Justified(s.ledger, s.calls, c, out)
    requires if s.pc.Reply? then out == s.pc.outcome else out.Err?
    ensures var t := Resolve(s, c, out);
      && CallsInv(t.calls, t.accepted, t.resolved)
      && QueueInv(t.queue, t.calls, t.ledger)
      && HandInv(t.pc, t.calls, t.ledger)
      && NativeInv(t.ledger, t.calls, t.accepted)
      && RoutedInv(t.resolved, t.ledger, t.calls)
      && MessageInv(t.ledger.native, t.calls, t.freed, None)
      && BorrowInv(t.calls, t.txOpen)
      && (SignalDue(s.calls, s.queue, s.txOpen, s.dropWoken) ==> SignalDue(t.calls, t.queue, t.txOpen, t.dropWoken))
  {
    hide Conserved, WakeInv, LeaveInv, PendingInv, HandledInv, QueueInv, NativeInv, HandInv, CallsInv, MessageInv,
        RoutedInv, Bag;
    var t := Resolve(s, c, out);
    CallAt(s, c);
    CallsResolved(s.calls, s.accepted, s.resolved, c, out, t.calls[c].slot);
    MessagesResolved(s.ledger.native, s.calls, s.freed, Held(s.pc), c, out);
    assert SameRequests(s.calls, t.calls);
    RequestsKeep(s, t.calls);
    RoutedAppend(s.resolved, s.ledger, s.calls, t.calls, c, out);
  }

  /** An error in the owner's hands is no message. */
  lemma HeldError(native: map<RequestId, Submission>, calls: map<CallId, Call>, freed: seq<RequestId>, e: Error)
    requires MessageInv(native, calls, freed, None)
    ensures MessageInv(native, calls, freed, Some(Err(e)))
  {
  }

  lemma AcceptedKnown(s: State, c: CallId)
    requires Inv(s) && c in s.accepted
    ensures c in s.calls
  {
    hide Conserved, WakeInv, LeaveInv, BorrowInv, CallInv, QueueInv, HandInv, NativeInv, PendingInv, HandledInv,
        RoutedInv, MessageInv;
  }

  lemma PendingTail(s: State)
    requires Inv(s) && s.pending != []
    ensures PendingInv(s.pending[1..], s.ledger.native)
  {
    hide Conserved, WakeInv, LeaveInv, BorrowInv, CallsInv, QueueInv, HandInv, NativeInv, HandledInv, RoutedInv,
        MessageInv;
  }

  lemma QueueTail(queue: seq<Command>, calls: map<CallId, Call>, ledger: Ledger)
    requires QueueInv(queue, calls, ledger) && queue != []
    ensures QueueInv(queue[1..], calls, ledger)
  {
  }

  /** A pending reply fails with NetworkClosed. */
  lemma FailPendingKeeps(s: State)
    requires Inv(s) && s.pc.FailAll? && s.pending != []
    ensures Inv(Resolve(s, s.pending[0].call, Err(NetworkClosed)).(pending := s.pending[1..]))
  {
    hide SignalDue, BorrowInv, CallsInv, CallInv, QueueInv, Fresh, HandInv, NativeInv, RowInv, PendingInv,
        RoutedInv, MessageInv, Owners, Bag, SameRequests, Resolve;
    var c := s.pending[0].call;
    PendingApart(s, 0);
    AcceptedKnown(s, c);
    BagTail(s.pending);
    PendingTail(s);
    ResolveShape(s, c, Err(NetworkClosed));
    Resolved(s, c, Err(NetworkClosed));
  }

  /** A command still queued when the receiver drops fails with NetworkClosed. */
  lemma DiscardKeeps(s: State)
    requires Inv(s) && s.pc.Discard? && s.queue != []
    ensures Inv(Resolve(s, s.queue[0].call, Err(NetworkClosed)).(queue := s.queue[1..]))
  {
    hide SignalDue, BorrowInv, CallsInv, CallInv, QueueInv, Fresh, HandInv, NativeInv, RowInv, PendingInv,
        RoutedInv, MessageInv, Owners, Bag, SameRequests, Resolve;
    var c := s.queue[0].call;
    QueueApart(s);
    AcceptedKnown(s, c);
    BagTail(s.queue);
    ResolveShape(s, c, Err(NetworkClosed));
    Resolved(s, c, Err(NetworkClosed));
    QueueTail(s.queue, Resolve(s, c, Err(NetworkClosed)).calls, s.ledger);
  }

  lemma SubmitRows(pending: seq<Entry>, native: map<RequestId, Submission>, c: CallId, id: RequestId,
      request: Request)
    requires PendingInv(pending, native) && id !in native
    ensures PendingInv(pending + [Addressed(c, id)], native[id := Submission(c, request, InFlight)])
  {
  }

  lemma EnqueueFlow(s: State, c: CallId)
    requires Inv(s) && InPhase(s, c, Waiting) && s.rxOpen
    ensures s.txOpen
    ensures var calls' := s.calls[c := s.calls[c].(phase := Enqueued)];
      var queue' := s.queue + [Addressed(c, s.calls[c].request)];
      && WakeInv(s.pc, s.wakes > 0, calls', queue', s.txOpen, s.dropWoken)
      && BorrowInv(calls', s.txOpen)
      && QueueInv(queue', calls', s.ledger)
  {
    hide Conserved, LeaveInv, PendingInv, HandledInv, RoutedInv, MessageInv, HandInv, Bag;
    CallAt(s, c);
    assert Handled(s.ledger, c) ==> c in s.accepted;
  }

  lemma ClearKeeps(s: State, left: nat)
    requires Inv(s) && s.pc.Clear?
    ensures Inv(s.(wakes := left)) && Inv(s.(pc := Recv))
  {
    hide SignalDue, BorrowInv, CallsInv, QueueInv, Justified, NativeInv, PendingInv, RoutedInv, MessageInv, Bag,
        Conserved;
  }

  lemma StopReceiving(s: State)
    requires Inv(s) && s.pc.FailAll? && s.pending == []
    ensures Inv(s.(pc := Discard(s.pc.why), rxOpen := false))
  {
    hide SignalDue, BorrowInv, CallsInv, QueueInv, Justified, NativeInv, PendingInv, RoutedInv, MessageInv, Bag;
  }

  lemma LeaveKeeps(s: State)
    requires Inv(s) && s.pc.Discard? && s.queue == []
    ensures Inv(s.(pc := Exited(s.pc.why)))
  {
    hide SignalDue, BorrowInv, CallsInv, QueueInv, Justified, NativeInv, PendingInv, RoutedInv, MessageInv, Bag;
  }

  /** The reply in hand reaches its slot, or is dropped there. */
  lemma ReplyKeeps(s: State, pc': Pc)
    requires Inv(s) && s.pc.Reply? && pc' == (if s.pc.after.ToRecv? then Recv else Poll(s.pc.after.i))
    ensures Inv(Resolve(s, s.pc.call, s.pc.outcome).(pc := pc'))
  {
    hide SignalDue, BorrowInv, CallsInv, CallInv, QueueInv, Fresh, NativeInv, RowInv, PendingInv, RoutedInv,
        MessageInv, Owners, Bag, SameRequests, Resolve;
    var c, out := s.pc.call, s.pc.outcome;
    HandApart(s, c);
    AcceptedKnown(s, c);
    ResolveShape(s, c, out);
    Resolved(s, c, out);
  }

  lemma SubmitKeeps(s: State, id: RequestId)
    requires Inv(s) && s.pc.Submit? && id !in s.ledger.native
    ensures var Addressed(c, r) := s.pc.cmd;
      Inv(s.(ledger := s.ledger.(native := s.ledger.native[id := Submission(c, r, InFlight)],
          ids := s.ledger.ids[c := id]),
             pending := s.pending + [Addressed(c, id)], pc := Recv))
  {
    hide SignalDue, BorrowInv, CallsInv, CallInv, QueueInv, NativeInv, RowInv, PendingInv, RoutedInv, Justified,
        MessageInv, Owners, Bag, SameRequests;
    var Addressed(c, r) := s.pc.cmd;
    HandApart(s, c);
    BagAppend(s.pending, Addressed(c, id));
    var ledger' := s.ledger.(native := s.ledger.native[id := Submission(c, r, InFlight)],
        ids := s.ledger.ids[c := id]);
    SubmitLedger(s.queue, s.resolved, s.calls, s.accepted, s.ledger, c, id, ledger');
    SubmitMessages(s.ledger.native, s.calls, s.freed, s.resolved, s.ledger, c, id, r, s.accepted);
    SubmitRows(s.pending, s.ledger.native, c, id, r);
  }

  /** A command enters the queue. */
  lemma SendKeeps(s: State, c: CallId)
    requires Inv(s) && InPhase(s, c, Waiting) && s.rxOpen && |s.queue| < CAPACITY
    ensures Inv(s.(calls := s.calls[c := s.calls[c].(phase := Enqueued)],
                   queue := s.queue + [Addressed(c, s.calls[c].request)],
                   accepted := s.accepted + {c}))
  {
    hide WakeInv, BorrowInv, CallsInv, QueueInv, HandInv, NativeInv, PendingInv, RoutedInv, MessageInv, Bag, Owners,
        Justified;
    CallAt(s, c);
    FreedKnown(s);
    EnqueueCalls(s, c);
    EnqueueFlow(s, c);
    EnqueueAccepted(s, c);
    Rephased(s, c, s.calls[c].(phase := Enqueued), s.freed);
    var queue' := s.queue + [Addressed(c, s.calls[c].request)];
    BagAppend(s.queue, Addressed(c, s.calls[c].request));
  }

  lemma EnqueueAccepted(s: State, c: CallId)
    requires NativeInv(s.ledger, s.calls, s.accepted) && c in s.calls
    ensures NativeInv(s.ledger, s.calls[c := s.calls[c].(phase := Enqueued)], s.accepted + {c})
  {
  }

  /** The queue's head moves into the owner's hands. */
  lemma TakeKeeps(s: State)
    requires Inv(s) && s.pc.Recv? && s.queue != []
    ensures Inv(s.(queue := s.queue[1..], pc := Submit(s.queue[0])))
  {
    hide BorrowInv, CallsInv, CallInv, Fresh, NativeInv, RowInv, PendingInv, RoutedInv, Justified, MessageInv,
        Owners, Bag, SameRequests;
    QueueApart(s);
    BagTail(s.queue);
    assert s.queue[0] in s.queue;
  }

  lemma BeginKeeps(s: State, c: CallId, request: Request)
    requires Inv(s) && CallerEnabled(s, Begin(c, request))
    ensures Inv(CallerApply(s, Begin(c, request)))
  {
    hide Conserved, LeaveInv, CallsInv, CallInv, QueueInv, Fresh, HandInv, NativeInv, RowInv, PendingInv,
        HandledInv, RoutedInv, Justified, MessageInv, Owners, Bag, Resolve, Polled, Settle, Message, CallOwns;
    var calls' := s.calls[c := Call(request, Waiting, Open)];
    BeginCalls(s, c, request);
    RequestsKeep(s, calls');
  }

  lemma EnqueueKeeps(s: State, c: CallId)
    requires Inv(s) && CallerEnabled(s, Enqueue(c))
    ensures Inv(CallerApply(s, Enqueue(c)))
  {
    hide Inv;
    SendKeeps(s, c);
  }

  lemma SendFailsKeeps(s: State, c: CallId)
    requires Inv(s) && CallerEnabled(s, SendFails(c))
    ensures Inv(CallerApply(s, SendFails(c)))
  {
    hide Conserved, WakeInv, SignalDue, LeaveInv, BorrowInv, CallsInv, QueueInv, Fresh, HandInv, NativeInv, RowInv,
        PendingInv, HandledInv, RoutedInv, Justified, MessageInv, Owners, Bag, SameRequests, Resolve, Polled, Settle;
    CallAt(s, c);
    FreedKnown(s);
    CallerMoved(s, c, s.calls[c].(phase := Returned(Err(NetworkClosed))), s.freed);
  }

  lemma WakeKeeps(s: State, c: CallId, lost: bool)
    requires Inv(s) && CallerEnabled(s, Wake(c, lost))
    ensures Inv(CallerApply(s, Wake(c, lost)))
  {
    hide Conserved, LeaveInv, CallsInv, QueueInv, Fresh, HandInv, NativeInv, RowInv, PendingInv, HandledInv,
        RoutedInv, Justified, MessageInv, Owners, Bag, SameRequests, Resolve, Polled, Settle, Message;
    CallAt(s, c);
    FreedKnown(s);
    CallRephased(s, c, s.calls[c].(phase := Awaiting));
    Rephased(s, c, s.calls[c].(phase := Awaiting), s.freed);
  }

  lemma ReceiveKeeps(s: State, c: CallId)
    requires Inv(s) && CallerEnabled(s, Receive(c))
    ensures Inv(CallerApply(s, Receive(c)))
  {
    hide Conserved, WakeInv, SignalDue, LeaveInv, BorrowInv, CallsInv, QueueInv, Fresh, HandInv, NativeInv, RowInv,
        PendingInv, HandledInv, RoutedInv, Justified, MessageInv, Owners, Bag, SameRequests, Resolve, Polled, Settle;
    CallAt(s, c);
    FreedKnown(s);
    CallerMoved(s, c, Call(s.calls[c].request, Returned(s.calls[c].slot.outcome), Emptied), s.freed);
  }

  lemma CancelKeeps(s: State, c: CallId)
    requires Inv(s) && CallerEnabled(s, Cancel(c))
    ensures Inv(CallerApply(s, Cancel(c)))
  {
    hide Conserved, WakeInv, SignalDue, LeaveInv, BorrowInv, CallsInv, QueueInv, Fresh, HandInv, NativeInv, RowInv,
        PendingInv, HandledInv, RoutedInv, Justified, MessageInv, Owners, Bag, SameRequests, Resolve, Polled, Settle;
    var call := s.calls[c];
    CallAt(s, c);
    FreedKnown(s);
    if call.slot.Sent? {
      if call.slot.outcome.Ok? {
        OwnMessage(s, c, call.slot.outcome);
      }
      CallerMoved(s, c, Call(call.request, Cancelled, Emptied), s.freed + Message(call.slot.outcome));
    } else {
      CallerMoved(s, c, call.(phase := Cancelled), s.freed);
    }
  }

  lemma ReleaseKeeps(s: State, c: CallId)
    requires Inv(s) && CallerEnabled(s, Release(c))
    ensures Inv(CallerApply(s, Release(c)))
  {
    hide Conserved, WakeInv, SignalDue, LeaveInv, BorrowInv, CallsInv, QueueInv, Fresh, HandInv, NativeInv, RowInv,
        PendingInv, HandledInv, RoutedInv, Justified, MessageInv, Owners, Bag, SameRequests, Resolve, Polled, Settle;
    var call := s.calls[c];
    CallAt(s, c);
    FreedKnown(s);
    OwnMessage(s, c, call.phase.outcome);
    CallerMoved(s, c, call.(phase := Released), s.freed + Message(call.phase.outcome));
  }

  lemma DropClientKeeps(s: State)
    requires Inv(s) && CallerEnabled(s, DropClient)
    ensures Inv(CallerApply(s, DropClient))
  {
    hide Conserved, CallsInv, CallInv, QueueInv, Fresh, HandInv, NativeInv, RowInv, PendingInv, HandledInv,
        RoutedInv, Justified, MessageInv, Owners, Bag, SameRequests, Resolve, Polled, Settle, Message, CallOwns;
  }

  lemma DropWakeKeeps(s: State, lost: bool)
    requires Inv(s) && CallerEnabled(s, DropWake(lost))
    ensures Inv(CallerApply(s, DropWake(lost)))
  {
    hide Conserved, SignalDue, BorrowInv, CallsInv, CallInv, QueueInv, Fresh, HandInv, NativeInv, RowInv,
        PendingInv, HandledInv, RoutedInv, Justified, MessageInv, Owners, Bag, SameRequests, Resolve, Polled,
        Settle, Message, CallOwns;
  }

  lemma TryRecvKeeps(s: State)
    requires Inv(s) && OwnerEnabled(s, TryRecv)
    ensures Inv(OwnerApply(s, TryRecv))
  {
    hide BorrowInv, CallsInv, CallInv, QueueInv, Fresh, NativeInv, RowInv, PendingInv, RoutedInv, Justified,
        MessageInv, Owners, Bag, SameRequests, Resolve, Polled, Settle, Message, CallOwns;
    if s.queue != [] {
      TakeKeeps(s);
    }
  }

  lemma SubmitOkKeeps(s: State, id: RequestId)
    requires Inv(s) && OwnerEnabled(s, SubmitOk(id))
    ensures Inv(OwnerApply(s, SubmitOk(id)))
  {
    hide Inv;
    Marshal.RoundTrip(s.pc.cmd.item);
    hide Marshal.Marshalled, Marshal.ReadBack, Marshal.NulFree, Marshal.WellFormed;
    SubmitKeeps(s, id);
  }

  lemma SubmitErrKeeps(s: State, error: Error)
    requires Inv(s) && OwnerEnabled(s, SubmitErr(error))
    ensures Inv(OwnerApply(s, SubmitErr(error)))
  {
    hide BorrowInv, CallsInv, CallInv, QueueInv, NativeInv, RowInv, PendingInv, RoutedInv, MessageInv, Owners, Bag,
        SameRequests, Resolve, Polled, Settle, Message, CallOwns;
    var c, ledger' := s.pc.cmd.call, OwnerApply(s, SubmitErr(error)).ledger;
    HandApart(s, c);
    RefuseLedger(s.queue, s.resolved, s.calls, s.accepted, s.ledger, c, ledger', error);
    HeldError(s.ledger.native, s.calls, s.freed, error);
    assert Justified(ledger', s.calls, c, Err(error));
  }

  lemma TickOkKeeps(s: State)
    requires Inv(s) && OwnerEnabled(s, TickOk)
    ensures Inv(OwnerApply(s, TickOk))
  {
    hide Conserved, BorrowInv, CallsInv, CallInv, QueueInv, Fresh, NativeInv, RowInv, PendingInv, RoutedInv,
        Justified, MessageInv, Owners, Bag, SameRequests, Resolve, Polled, Settle, Message, CallOwns;
  }

  lemma TickDeadKeeps(s: State)
    requires Inv(s) && OwnerEnabled(s, TickDead)
    ensures Inv(OwnerApply(s, TickDead))
  {
    hide Conserved, BorrowInv, CallsInv, CallInv, QueueInv, Fresh, NativeInv, RowInv, PendingInv, RoutedInv,
        Justified, MessageInv, Owners, Bag, SameRequests, Resolve, Polled, Settle, Message, CallOwns;
  }

  lemma PollPendingKeeps(s: State)
    requires Inv(s) && OwnerEnabled(s, PollPending)
    ensures Inv(OwnerApply(s, PollPending))
  {
    hide Conserved, BorrowInv, CallsInv, CallInv, QueueInv, Fresh, NativeInv, RowInv, PendingInv, RoutedInv,
        Justified, MessageInv, Owners, Bag, SameRequests, Resolve, Polled, Settle, Message, CallOwns;
  }

  lemma PollOkKeeps(s: State, payload: Bytes)
    requires Inv(s) && OwnerEnabled(s, PollOk(payload))
    ensures Inv(OwnerApply(s, PollOk(payload)))
  {
    hide Inv;
    PolledKeeps(s, Answered(payload), Ok(Response(s.pending[s.pc.i].item, payload)));
  }

  lemma PollErrKeeps(s: State, error: Error)
    requires Inv(s) && OwnerEnabled(s, PollErr(error))
    ensures Inv(OwnerApply(s, PollErr(error)))
  {
    hide Inv;
    PolledKeeps(s, Failed(error), Err(error));
  }

  lemma PollEndKeeps(s: State)
    requires Inv(s) && OwnerEnabled(s, PollEnd)
    ensures Inv(OwnerApply(s, PollEnd))
  {
    hide Conserved, BorrowInv, CallsInv, CallInv, QueueInv, Fresh, NativeInv, RowInv, PendingInv, RoutedInv,
        Justified, MessageInv, Owners, Bag, SameRequests, Resolve, Polled, Settle, Message, CallOwns;
  }

  lemma SendReplyKeeps(s: State)
    requires Inv(s) && OwnerEnabled(s, SendReply)
    ensures Inv(OwnerApply(s, SendReply))
  {
    hide Inv;
    hide Resolve;
    ReplyKeeps(s, if s.pc.after.ToRecv? then Recv else Poll(s.pc.after.i));
  }

  lemma WaitEndsKeeps(s: State, cause: Cause)
    requires Inv(s) && OwnerEnabled(s, WaitEnds(cause))
    ensures Inv(OwnerApply(s, WaitEnds(cause)))
  {
    hide Conserved, BorrowInv, CallsInv, CallInv, QueueInv, Fresh, NativeInv, RowInv, PendingInv, RoutedInv,
        Justified, MessageInv, Owners, Bag, SameRequests, Resolve, Polled, Settle, Message, CallOwns;
  }

  lemma ReadWakerKeeps(s: State, left: nat)
    requires Inv(s) && OwnerEnabled(s, ReadWaker(left))
    ensures Inv(OwnerApply(s, ReadWaker(left)))
  {
    hide Inv;
    ClearKeeps(s, left);
  }

  lemma FailNextKeeps(s: State)
    requires Inv(s) && OwnerEnabled(s, FailNext)
    ensures Inv(OwnerApply(s, FailNext))
  {
    hide Inv;
    hide Resolve, Carries, Owners;
    if s.pending != [] {
      hide WakeInv, LeaveInv, HandInv, HandledInv, Conserved;
      FailPendingKeeps(s);
    } else {
      StopReceiving(s);
    }
  }

  lemma DiscardNextKeeps(s: State)
    requires Inv(s) && OwnerEnabled(s, DiscardNext)
    ensures Inv(OwnerApply(s, DiscardNext))
  {
    hide Inv;
    hide Resolve, Carries, Owners;
    if s.queue != [] {
      DiscardKeeps(s);
    } else {
      LeaveKeeps(s);
    }
  }

  lemma StepKeeps(s: State, step: Step)
    requires Inv(s) && Enabled(s, step)
    ensures Inv(Apply(s, step))
  {
    hide Inv, CallerApply, OwnerApply, CallerEnabled, OwnerEnabled;
    match step
    case Caller(Begin(c, request)) => BeginKeeps(s, c, request);
    case Caller(Enqueue(c)) => EnqueueKeeps(s, c);
    case Caller(SendFails(c)) => SendFailsKeeps(s, c);
    case Caller(Wake(c, lost)) => WakeKeeps(s, c, lost);
    case Caller(Receive(c)) => ReceiveKeeps(s, c);
    case Caller(Cancel(c)) => CancelKeeps(s, c);
    case Caller(Release(c)) => ReleaseKeeps(s, c);
    case Caller(DropClient) => DropClientKeeps(s);
    case Caller(DropWake(lost)) => DropWakeKeeps(s, lost);
    case Owner(TryRecv) => TryRecvKeeps(s);
    case Owner(SubmitOk(id)) => SubmitOkKeeps(s, id);
    case Owner(SubmitErr(error)) => SubmitErrKeeps(s, error);
    case Owner(TickOk) => TickOkKeeps(s);
    case Owner(TickDead) => TickDeadKeeps(s);
    case Owner(PollPending) => PollPendingKeeps(s);
    case Owner(PollOk(payload)) => PollOkKeeps(s, payload);
    case Owner(PollErr(error)) => PollErrKeeps(s, error);
    case Owner(PollEnd) => PollEndKeeps(s);
    case Owner(SendReply) => SendReplyKeeps(s);
    case Owner(WaitEnds(cause)) => WaitEndsKeeps(s, cause);
    case Owner(ReadWaker(left)) => ReadWakerKeeps(s, left);
    case Owner(FailNext) => FailNextKeeps(s);
    case Owner(DiscardNext) => DiscardNextKeeps(s);
  }
}
