/** The client actor bridge as an interleaved step system: any number of callers
    dispatching requests, one owner thread, a bounded command queue, a waker holding some
    number of wakes (the signal is set while it holds any), reply slots and the native
    request table. Every choice made outside the code (scheduling, native results, wait
    outcomes) is a parameter of a step. */
module Bridge {
  import opened Wire
  import opened Bags
  import Marshal
  import Waker

  const CAPACITY := 64

  type Outcome = Result<Response>

  /** A queued command, a row of the in-flight table, a reply sent. */
  type Command = Addressed<Request>
  type Entry = Addressed<RequestId>
  type Resolution = Addressed<Outcome>

  /** Where a `dispatch` future is. Waiting is the bounded send, Enqueued lies between
      the send and the wake, Awaiting is the reply await, Released follows the caller
      dropping the response it got. */
  datatype Phase = Waiting | Enqueued | Awaiting | Returned(outcome: Outcome) | Released | Cancelled {
    predicate Over() {
      Returned? || Released? || Cancelled?
    }
  }

  /** A one-shot reply slot. A sender dropped unused reads as NetworkClosed. */
  datatype Slot = Open | Sent(outcome: Outcome) | Emptied

  datatype Call = Call(request: Request, phase: Phase, slot: Slot)

  datatype Answer = InFlight | Answered(payload: Bytes) | Failed(error: Error)

  /** A row of the native table: the request as the C side read it. */
  datatype Submission = Submission(call: CallId, request: Request, answer: Answer)

  datatype Why = Disconnected | Dead

  datatype After = ToRecv | ToPoll(i: nat)

  /** The owner's program counter. */
  datatype Pc =
    | Recv
    | Submit(cmd: Command)
    | Reply(call: CallId, outcome: Outcome, after: After)
    | Tick
    | Poll(i: nat)
    | Block
    | Clear
    | FailAll(why: Why)
    | Discard(why: Why)
    | Exited(why: Why)

  datatype Cause = Signalled | Socket | Timeout

  /** The native table and what the owner knows of each command it submitted. */
  datatype Ledger = Ledger(
    native: map<RequestId, Submission>,
    ids: map<CallId, RequestId>,
    refused: map<CallId, Error>)

  datatype State = State(
    calls: map<CallId, Call>,
    queue: seq<Command>,
    txOpen: bool,
    rxOpen: bool,
    dropWoken: bool,
    wakes: nat,
    pc: Pc,
    pending: seq<Entry>,
    ledger: Ledger,
    // histories
    accepted: set<CallId>,
    resolved: seq<Resolution>,
    freed: seq<RequestId>)

  /** A move of a caller, or of the client handle's drop. */
  datatype CallerStep =
    | Begin(c: CallId, request: Request)
    | Enqueue(c: CallId)
    | SendFails(c: CallId)
    | Wake(c: CallId, lost: bool)
    | Receive(c: CallId)
    | Cancel(c: CallId)
    | Release(c: CallId)
    | DropClient
    | DropWake(lost: bool)

  /** A move of the owner thread, with what the native side and the OS answered. */
  datatype OwnerStep =
    | TryRecv
    | SubmitOk(id: RequestId)
    | SubmitErr(error: Error)
    | TickOk
    | TickDead
    | PollPending
    | PollOk(payload: Bytes)
    | PollErr(error: Error)
    | PollEnd
    | SendReply
    | WaitEnds(cause: Cause)
    | ReadWaker(left: nat)
    | FailNext
    | DiscardNext

  datatype Step = Caller(move: CallerStep) | Owner(turn: OwnerStep)

  function Init(): State {
    State(map[], [], true, true, false, 0, Recv, [], Ledger(map[], map[], map[]), {}, [], [])
  }

  predicate InPhase(s: State, c: CallId, p: Phase) {
    c in s.calls && s.calls[c].phase == p
  }

  predicate CallerEnabled(s: State, move: CallerStep) {
    match move
    case Begin(c, _) => c !in s.calls && s.txOpen
    case Enqueue(c) => InPhase(s, c, Waiting) && s.rxOpen && |s.queue| < CAPACITY
    case SendFails(c) => InPhase(s, c, Waiting) && !s.rxOpen
    case Wake(c, lost) => InPhase(s, c, Enqueued) && (lost ==> Waker.MayLose(s.wakes))
    case Receive(c) => InPhase(s, c, Awaiting) && s.calls[c].slot.Sent?
    case Cancel(c) => InPhase(s, c, Waiting) || InPhase(s, c, Awaiting)
    case Release(c) => c in s.calls && s.calls[c].phase.Returned? && s.calls[c].phase.outcome.Ok?
    // dispatch futures borrow the handle, so it can only be dropped once they are gone
    case DropClient => s.txOpen && forall c <- s.calls :: s.calls[c].phase.Over()
    case DropWake(lost) => !s.txOpen && !s.dropWoken && (lost ==> Waker.MayLose(s.wakes))
  }

  predicate OwnerEnabled(s: State, turn: OwnerStep) {
    match turn
    case TryRecv => s.pc.Recv?
    case SubmitOk(id) => s.pc.Submit? && id !in s.ledger.native && Marshal.Marshalled(s.pc.cmd.item).Ok?
    case SubmitErr(e) => s.pc.Submit? && (Marshal.Marshalled(s.pc.cmd.item).Err? ==> e == ProtoInvalidHeader)
    case TickOk => s.pc.Tick?
    case TickDead => s.pc.Tick?
    case PollPending => s.pc.Poll? && s.pc.i < |s.pending|
    case PollOk(_) => s.pc.Poll? && s.pc.i < |s.pending|
    case PollErr(e) => s.pc.Poll? && s.pc.i < |s.pending| && e != WouldBlock
    case PollEnd => s.pc.Poll? && s.pc.i >= |s.pending|
    case SendReply => s.pc.Reply?
    case WaitEnds(cause) => s.pc.Block? && (cause.Signalled? ==> s.wakes > 0)
    case ReadWaker(left) => s.pc.Clear? && Waker.MayLeave(s.wakes, left)
    case FailNext => s.pc.FailAll?
    case DiscardNext => s.pc.Discard?
  }

  function SetPhase(s: State, c: CallId, p: Phase): State
    requires c in s.calls
  {
    s.(calls := s.calls[c := s.calls[c].(phase := p)])
  }

  /** The response an outcome carries, as the list of messages to free. */
  function Message(out: Outcome): seq<RequestId> {
    if out.Ok? then [out.value.id] else []
  }

  /** `reply.send(out)`: fills the slot, or hands the value back to be dropped when
      the caller's future is gone. */
  function Resolve(s: State, c: CallId, out: Outcome): State {
    var s1 := s.(resolved := s.resolved + [Addressed(c, out)]);
    if c !in s.calls then s1
    else if s.calls[c].phase.Cancelled? then
      s1.(calls := s.calls[c := s.calls[c].(slot := Emptied)], freed := s.freed + Message(out))
    else
      s1.(calls := s.calls[c := s.calls[c].(slot := Sent(out))])
  }

  function Settle(ledger: Ledger, id: RequestId, answer: Answer): Ledger {
    if id in ledger.native
    then ledger.(native := ledger.native[id := ledger.native[id].(answer := answer)])
    else ledger
  }

  function Polled(s: State, answer: Answer, out: Outcome): State
    requires s.pc.Poll? && s.pc.i < |s.pending|
  {
    var e := s.pending[s.pc.i];
    s.(ledger := Settle(s.ledger, e.item, answer),
       pending := SwapRemove(s.pending, s.pc.i), pc := Reply(e.call, out, ToPoll(s.pc.i)))
  }

  function CallerApply(s: State, move: CallerStep): State
    requires CallerEnabled(s, move)
  {
    match move
    case Begin(c, r) => s.(calls := s.calls[c := Call(r, Waiting, Open)])
    case Enqueue(c) =>
      SetPhase(s, c, Enqueued).(queue := s.queue + [Addressed(c, s.calls[c].request)], accepted := s.accepted + {c})
    case SendFails(c) => SetPhase(s, c, Returned(Err(NetworkClosed)))
    case Wake(c, lost) => SetPhase(s, c, Awaiting).(wakes := Waker.Woken(s.wakes, lost))
    case Receive(c) =>
      var call := s.calls[c];
      s.(calls := s.calls[c := Call(call.request, Returned(call.slot.outcome), Emptied)])
    case Cancel(c) =>
      var call := s.calls[c];
      if call.slot.Sent?
      then s.(calls := s.calls[c := Call(call.request, Cancelled, Emptied)],
          freed := s.freed + Message(call.slot.outcome))
      else SetPhase(s, c, Cancelled)
    case Release(c) =>
      SetPhase(s, c, Released).(freed := s.freed + Message(s.calls[c].phase.outcome))
    case DropClient => s.(txOpen := false)
    case DropWake(lost) => s.(dropWoken := true, wakes := Waker.Woken(s.wakes, lost))
  }

  function OwnerApply(s: State, turn: OwnerStep): State
    requires OwnerEnabled(s, turn)
  {
    match turn
    case TryRecv =>
      if s.queue != [] then s.(queue := s.queue[1..], pc := Submit(s.queue[0]))
      else if s.txOpen then s.(pc := Tick)
      else s.(pc := FailAll(Disconnected))
    case SubmitOk(id) =>
      var Addressed(c, r) := s.pc.cmd;
      var view := Marshal.Marshalled(r).value;
      Marshal.RoundTrip(r);
      s.(ledger := s.ledger.(native := s.ledger.native[id := Submission(c, Marshal.ReadBack(view), InFlight)],
                             ids := s.ledger.ids[c := id]),
         pending := s.pending + [Addressed(c, id)], pc := Recv)
    case SubmitErr(e) =>
      s.(ledger := s.ledger.(refused := s.ledger.refused[s.pc.cmd.call := e]),
         pc := Reply(s.pc.cmd.call, Err(e), ToRecv))
    case TickOk => s.(pc := Poll(0))
    case TickDead => s.(pc := FailAll(Dead))
    case PollPending => s.(pc := Poll(s.pc.i + 1))
    case PollOk(payload) => Polled(s, Answered(payload), Ok(Response(s.pending[s.pc.i].item, payload)))
    case PollErr(e) => Polled(s, Failed(e), Err(e))
    case PollEnd => s.(pc := Block)
    case SendReply =>
      Resolve(s, s.pc.call, s.pc.outcome).(pc := if s.pc.after.ToRecv? then Recv else Poll(s.pc.after.i))
    case WaitEnds(_) => s.(pc := Clear)
    case ReadWaker(left) => if s.wakes > 0 then s.(wakes := left) else s.(pc := Recv)
    case FailNext =>
      if s.pending == [] then s.(pc := Discard(s.pc.why), rxOpen := false)
      else Resolve(s, s.pending[0].call, Err(NetworkClosed)).(pending := s.pending[1..])
    case DiscardNext =>
      if s.queue == [] then s.(pc := Exited(s.pc.why))
      else Resolve(s, s.queue[0].call, Err(NetworkClosed)).(queue := s.queue[1..])
  }

  predicate Enabled(s: State, step: Step) {
    match step
    case Caller(move) => CallerEnabled(s, move)
    case Owner(turn) => OwnerEnabled(s, turn)
  }

  function Apply(s: State, step: Step): State
    requires Enabled(s, step)
  {
    match step
    case Caller(move) => CallerApply(s, move)
    case Owner(turn) => OwnerApply(s, turn)
  }

  /** The state after a run, or none when some step was not enabled. */
  function Exec(s: State, steps: seq<Step>): Option<State> {
    if steps == [] then Some(s)
    else
      var before := Exec(s, steps[..|steps| - 1]);
      var step := steps[|steps| - 1];
      if before.Some? && Enabled(before.value, step) then Some(Apply(before.value, step)) else None
  }

  ghost predicate Reachable(s: State) {
    exists steps :: Exec(Init(), steps) == Some(s)
  }

  // Where a call is

  function Hand(pc: Pc): multiset<CallId> {
    match pc
    case Submit(cmd) => multiset{cmd.call}
    case Reply(c, _, _) => multiset{c}
    case _ => multiset{}
  }

  /** The owner took the command off the queue and tried to submit it. */
  predicate Handled(ledger: Ledger, c: CallId) {
    c in ledger.ids || c in ledger.refused
  }

  /** An outcome the call is entitled to: the response produced for the id its own
      request was submitted under, its own error, or closed. */
  predicate Justified(ledger: Ledger, calls: map<CallId, Call>, c: CallId, out: Outcome) {
    match out
    case Ok(r) =>
      && c in calls && c in ledger.ids && ledger.ids[c] == r.id && r.id in ledger.native
      && ledger.native[r.id] == Submission(c, calls[c].request, Answered(r.payload))
    case Err(e) =>
      || e == NetworkClosed
      || (c in ledger.refused && ledger.refused[c] == e)
      || (c in ledger.ids && ledger.ids[c] in ledger.native && ledger.native[ledger.ids[c]].answer == Failed(e))
  }

  // Messages

  function One(b: bool): nat {
    if b then 1 else 0
  }

  predicate Carries(out: Outcome, id: RequestId) {
    out.Ok? && out.value.id == id
  }

  /** The reply in the owner thread's hands. */
  function Held(pc: Pc): Option<Outcome> {
    if pc.Reply? then Some(pc.outcome) else None
  }

  /** The message of call slot or caller. */
  function CallOwns(call: Call, id: RequestId): nat {
    One(call.slot.Sent? && Carries(call.slot.outcome, id))
    + One(call.phase.Returned? && Carries(call.phase.outcome, id))
  }

  /** How many owners the message answering request `id` of call `c` has: the owner
      thread, the reply slot, the caller, or the frees already done. */
  function Owners(id: RequestId, c: CallId, calls: map<CallId, Call>, freed: seq<RequestId>,
      held: Option<Outcome>): nat {
    One(held.Some? && Carries(held.value, id))
    + (if c in calls then CallOwns(calls[c], id) else 0)
    + multiset(freed)[id]
  }
}
