/** The bridge refines a table of outstanding requests. */
module BridgeTable {
  import opened Wire
  import opened Bags
  import opened Bridge
  import opened BridgeClosed
  import opened BridgeInvariant
  import opened BridgeSafety

  /** The bridge as its callers see it: what is outstanding, and the replies so far. */
  datatype Table = Table(outstanding: map<CallId, Request>, replies: seq<Resolution>)

  ghost predicate Opens(t: Table, t': Table, c: CallId, r: Request) {
    c !in t.outstanding && Bag(t.replies)[c] == 0 && t' == t.(outstanding := t.outstanding[c := r])
  }

  ghost predicate Answers(t: Table, t': Table, c: CallId, out: Outcome) {
    c in t.outstanding && t' == Table(t.outstanding - {c}, t.replies + [Addressed(c, out)])
  }

  ghost function Outstanding(calls: map<CallId, Call>, accepted: set<CallId>,
      resolved: seq<Resolution>): map<CallId, Request> {
    map c | c in accepted && c in calls && Bag(resolved)[c] == 0 :: calls[c].request
  }

  ghost function Abstract(s: State): Table {
    Table(Outstanding(s.calls, s.accepted, s.resolved), s.resolved)
  }

  /** The call a step answers, if it answers one. */
  function Answered(s: State, step: Step): Option<Resolution>
    requires Enabled(s, step)
  {
    match step
    case Owner(SendReply) => Some(Addressed(s.pc.call, s.pc.outcome))
    case Owner(FailNext) => if s.pending == [] then None else Some(Addressed(s.pending[0].call, Err(NetworkClosed)))
    case Owner(DiscardNext) => if s.queue == [] then None else Some(Addressed(s.queue[0].call, Err(NetworkClosed)))
    case _ => None
  }

  lemma OutstandingAnswered(calls: map<CallId, Call>, calls': map<CallId, Call>, accepted: set<CallId>,
                            resolved: seq<Resolution>, c: CallId, out: Outcome)
    requires SameRequests(calls, calls') && calls'.Keys == calls.Keys
    requires c in accepted && c in calls && Bag(resolved)[c] == 0
    ensures Answers(Table(Outstanding(calls, accepted, resolved), resolved),
                    Table(Outstanding(calls', accepted, resolved + [Addressed(c, out)]),
                          resolved + [Addressed(c, out)]), c, out)
  {
    BagAppend(resolved, Addressed(c, out));
    hide Bag;
  }

  lemma OutstandingSame(calls: map<CallId, Call>, calls': map<CallId, Call>, accepted: set<CallId>,
      resolved: seq<Resolution>)
    requires SameRequests(calls, calls') && forall c <- accepted :: c in calls
    ensures Outstanding(calls', accepted, resolved) == Outstanding(calls, accepted, resolved)
  {
    hide Bag;
  }

  lemma OutstandingOpens(calls: map<CallId, Call>, calls': map<CallId, Call>, accepted: set<CallId>,
      resolved: seq<Resolution>, c: CallId)
    requires SameRequests(calls, calls') && calls'.Keys == calls.Keys
    requires c !in accepted && c in calls && Bag(resolved)[c] == 0
    ensures Opens(Table(Outstanding(calls, accepted, resolved), resolved),
                  Table(Outstanding(calls', accepted + {c}, resolved), resolved), c, calls[c].request)
  {
    hide Bag;
  }

  lemma OneCallChanges(calls: map<CallId, Call>, c: CallId, call': Call)
    requires c in calls ==> call'.request == calls[c].request
    ensures SameRequests(calls, calls[c := call'])
  {
  }

  lemma NoCallChanges(calls: map<CallId, Call>)
    ensures SameRequests(calls, calls)
  {
  }

  lemma CallerEffect(s: State, move: CallerStep)
    requires CallerEnabled(s, move) && !move.Enqueue?
    ensures var t := CallerApply(s, move);
      SameRequests(s.calls, t.calls) && t.resolved == s.resolved && t.accepted == s.accepted
  {
    hide Message, SameRequests;
    var t := CallerApply(s, move);
    if move.DropClient? || move.DropWake? {
      NoCallChanges(s.calls);
    } else {
      OneCallChanges(s.calls, move.c, t.calls[move.c]);
    }
  }

  lemma CallerRefines(s: State, move: CallerStep)
    requires Inv(s) && CallerEnabled(s, move)
    ensures var t, t' := Abstract(s), Abstract(CallerApply(s, move));
      if move.Enqueue? then Opens(t, t', move.c, s.calls[move.c].request) else t' == t
  {
    hide Conserved, WakeInv, LeaveInv, BorrowInv, QueueInv, HandInv, NativeInv, PendingInv, HandledInv, RoutedInv,
        MessageInv, Bag,
         CallerApply, CallInv, SameRequests, Outstanding, Opens;
    var t := CallerApply(s, move);
    if move.Enqueue? {
      EnqueueRefines(s, move.c);
    } else {
      CallerEffect(s, move);
      OutstandingSame(s.calls, t.calls, s.accepted, s.resolved);
    }
  }

  lemma EnqueueRefines(s: State, c: CallId)
    requires Inv(s) && CallerEnabled(s, Enqueue(c))
    ensures Opens(Abstract(s), Abstract(CallerApply(s, Enqueue(c))), c, s.calls[c].request)
  {
    WaitingFresh(s, c);
    hide Inv, Outstanding, Opens, Bag;
    OutstandingOpens(s.calls, CallerApply(s, Enqueue(c)).calls, s.accepted, s.resolved, c);
  }

  lemma WaitingFresh(s: State, c: CallId)
    requires Inv(s) && InPhase(s, c, Waiting)
    ensures c !in s.accepted && Bag(s.resolved)[c] == 0
  {
    CallAt(s, c);
    hide Conserved, WakeInv, LeaveInv, BorrowInv, CallsInv, QueueInv, HandInv, NativeInv, PendingInv, HandledInv,
        RoutedInv, MessageInv, Bag;
  }

  /** What the owner answers is outstanding: accepted, known, and not yet answered. */
  lemma AnswersOutstanding(s: State, turn: OwnerStep)
    requires Inv(s) && OwnerEnabled(s, turn) && Answered(s, Owner(turn)).Some?
    ensures var c := Answered(s, Owner(turn)).value.call;
      c in s.accepted && c in s.calls && Bag(s.resolved)[c] == 0
  {
    var r := Answered(s, Owner(turn)).value;
    hide WakeInv, LeaveInv, BorrowInv, CallsInv, QueueInv, HandInv, NativeInv, PendingInv, HandledInv, RoutedInv,
         MessageInv, Bag;
    if turn.SendReply? {
      HandApart(s, r.call);
    } else if turn.FailNext? {
      PendingApart(s, 0);
    } else {
      QueueApart(s);
    }
    hide Conserved, Inv;
    AcceptedKnown(s, r.call);
  }

  lemma AnswersEntitled(s: State, turn: OwnerStep)
    requires Inv(s) && ClosedInv(s) && OwnerEnabled(s, turn) && Answered(s, Owner(turn)).Some?
    ensures var r := Answered(s, Owner(turn)).value;
      Justified(s.ledger, s.calls, r.call, r.item) && ErrorDue(s.ledger, s.pc, r.call, r.item)
  {
    hide Conserved, WakeInv, LeaveInv, BorrowInv, CallsInv, QueueInv, NativeInv, PendingInv, HandledInv, RoutedInv,
         MessageInv, Bag, ErrorsDue, SendsFailed, OwnError;
  }

  /** An answering step resolves that call, changes no request, and accepts nothing. */
  lemma AnswerEffect(s: State, turn: OwnerStep)
    requires OwnerEnabled(s, turn) && Answered(s, Owner(turn)).Some?
    ensures var r, t := Answered(s, Owner(turn)).value, OwnerApply(s, turn);
      && t.resolved == s.resolved + [r] && t.accepted == s.accepted
      && (r.call in s.calls ==> t.calls.Keys == s.calls.Keys && SameRequests(s.calls, t.calls))
  {
    hide Resolve, Message, Bag, Settle, Polled, SameRequests;
    var r := Answered(s, Owner(turn)).value;
    ResolveEffect(s, r.call, r.item);
    if r.call in s.calls {
      OneCallChanges(s.calls, r.call, OwnerApply(s, turn).calls[r.call]);
    }
  }

  lemma QuietEffect(s: State, turn: OwnerStep)
    requires OwnerEnabled(s, turn) && Answered(s, Owner(turn)).None?
    ensures var t := OwnerApply(s, turn); t.resolved == s.resolved && t.accepted == s.accepted && t.calls == s.calls
  {
    hide Resolve, Message, Bag, Settle, SwapRemove;
  }

  lemma OwnerRefines(s: State, turn: OwnerStep)
    requires Inv(s) && ClosedInv(s) && OwnerEnabled(s, turn)
    ensures var t, t' := Abstract(s), Abstract(OwnerApply(s, turn));
      match Answered(s, Owner(turn))
      case Some(r) =>
        && Answers(t, t', r.call, r.item)
        && Justified(s.ledger, s.calls, r.call, r.item) && ErrorDue(s.ledger, s.pc, r.call, r.item)
      case None => t' == t
  {
    hide Inv, ClosedInv, OwnerEnabled, OwnerApply, Answered, Answers, Outstanding, Justified, ErrorDue, Bag,
         SameRequests;
    match Answered(s, Owner(turn)) {
      case Some(r) =>
        AnswersOutstanding(s, turn);
        AnswersEntitled(s, turn);
        AnswerEffect(s, turn);
        OutstandingAnswered(s.calls, OwnerApply(s, turn).calls, s.accepted, s.resolved, r.call, r.item);
      case None =>
        QuietEffect(s, turn);
    }
  }

  /** Every step of the bridge is one move of the table: a command entering the queue
      opens its request, a reply answers a request that is outstanding with an outcome
      it is entitled to, and every other step leaves the table alone. */
  lemma StepRefines(s: State, step: Step)
    requires Reachable(s) && Enabled(s, step)
    ensures var t, t' := Abstract(s), Abstract(Apply(s, step));
      if step.Caller? && step.move.Enqueue? then Opens(t, t', step.move.c, s.calls[step.move.c].request)
      else match Answered(s, step)
        case Some(r) =>
          && Answers(t, t', r.call, r.item)
          && Justified(s.ledger, s.calls, r.call, r.item) && ErrorDue(s.ledger, s.pc, r.call, r.item)
        case None => t' == t
  {
    ClosedHolds(s);
    hide Inv, ClosedInv, CallerApply, OwnerApply, OwnerEnabled, Abstract, Opens, Answers, Justified, ErrorDue;
    match step
    case Caller(move) => CallerRefines(s, move);
    case Owner(turn) => OwnerRefines(s, turn);
  }
}
