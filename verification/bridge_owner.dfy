/** The owner thread's loop as written, run inside the step system: other threads move
    between any two of its operations, and each operation is one step of the machine.
    The loop is proved to be a run of the machine, so everything proved of reachable
    states holds of it. `fuel` cuts a run at an arbitrary point. */
module BridgeOwner {
  import opened Wire
  import opened Bags
  import opened Bridge
  import BridgeSafety
  import Marshal
  import Waker

  const POLL_CAP_MS: nat := 200

  datatype Received = Got(cmd: Command) | Empty | Closed

  /** One poll of a pass: the row, and the outcome unless it is still in flight. */
  datatype Polling = Polling(entry: Entry, answer: Option<Outcome>)

  function Polls(ps: seq<Polling>): seq<Entry> {
    if ps == [] then [] else Polls(ps[..|ps| - 1]) + [ps[|ps| - 1].entry]
  }

  /** The rows that reported pending. */
  function Unfinished(ps: seq<Polling>): seq<Entry> {
    if ps == [] then []
    else Unfinished(ps[..|ps| - 1]) + (if ps[|ps| - 1].answer.None? then [ps[|ps| - 1].entry] else [])
  }

  /** The reply a row polled is owed, if it finished. */
  function Replied(p: Polling): seq<Resolution> {
    if p.answer.Some? then [Addressed(p.entry.call, p.answer.value)] else []
  }

  /** The replies the finished rows are owed, in polling order. */
  function Replies(ps: seq<Polling>): seq<Resolution> {
    if ps == [] then [] else Replies(ps[..|ps| - 1]) + Replied(ps[|ps| - 1])
  }

  lemma PollsAppend(ps: seq<Polling>, p: Polling)
    ensures Polls(ps + [p]) == Polls(ps) + [p.entry]
    ensures Unfinished(ps + [p]) == Unfinished(ps) + (if p.answer.None? then [p.entry] else [])
    ensures Replies(ps + [p]) == Replies(ps) + Replied(p)
  {
    assert (ps + [p])[..|ps|] == ps;
  }

  /** Removing row i leaves the rows before it and the rest of those after it. */
  lemma SwapRemoveSplit(p: seq<Entry>, i: nat)
    requires i < |p|
    ensures SwapRemove(p, i)[..i] == p[..i]
    ensures multiset(SwapRemove(p, i)[i..]) + multiset{p[i]} == multiset(p[i..])
  {
    var n := |p| - 1;
    assert p[i..] == [p[i]] + p[i + 1..];
    if i < n {
      assert SwapRemove(p, i)[i..] == [p[n]] + p[i + 1..n];
      assert p[i + 1..] == p[i + 1..n] + [p[n]];
    } else {
      assert SwapRemove(p, i)[i..] == [];
    }
  }

  /** The step a poll's answer is, as the native wrapper hands it on and as a row's. */
  function PollTurn(r: Result<Option<Response>>): OwnerStep {
    match r
    case Ok(None) => PollPending
    case Ok(Some(resp)) => PollOk(resp.payload)
    case Err(e) => PollErr(e)
  }

  function AnswerTurn(answer: Option<Outcome>): OwnerStep {
    match answer
    case None => PollPending
    case Some(Ok(resp)) => PollOk(resp.payload)
    case Some(Err(e)) => PollErr(e)
  }

  /** The steps of one row's poll, and of a whole pass but its end. */
  function RowTurns(p: Polling): seq<OwnerStep> {
    [AnswerTurn(p.answer)] + if p.answer.Some? then [SendReply] else []
  }

  function PassTurns(ps: seq<Polling>): seq<OwnerStep> {
    if ps == [] then [] else PassTurns(ps[..|ps| - 1]) + RowTurns(ps[|ps| - 1])
  }

  lemma NoTurns()
    ensures PassTurns([]) == []
  {
  }

  lemma TurnsAppend(ps: seq<Polling>, p: Polling)
    ensures PassTurns(ps + [p]) == PassTurns(ps) + RowTurns(p)
  {
    assert (ps + [p])[..|ps|] == ps;
  }

  /** The owner's own steps of a run. */
  function Turns(steps: seq<Step>): seq<OwnerStep> {
    if steps == [] then []
    else
      var last := steps[|steps| - 1];
      Turns(steps[..|steps| - 1]) + if last.Owner? then [last.turn] else []
  }

  /** How long the loop waits: never above the cap, nor past the timer while requests are in
      flight. */
  function ClientWait(idle: bool, timer: Option<nat>): (ms: nat)
    ensures ms <= POLL_CAP_MS && (!idle && timer.Some? ==> ms <= timer.value)
    ensures ms < POLL_CAP_MS ==> !idle && timer == Some(ms)
  {
    if !idle && timer.Some? && timer.value < POLL_CAP_MS then timer.value else POLL_CAP_MS
  }

  lemma SwapRemoveShrinks(p: seq<Entry>, i: nat)
    requires i < |p|
    ensures |SwapRemove(p, i)| == |p| - 1
  {
  }

  /** A pass so far: the rows polled and those still to poll make up the start, and the
      rows kept are the ones that reported pending. */
  ghost predicate PassSoFar(ps: seq<Polling>, p: seq<Entry>, i: nat, start: multiset<Entry>)
    requires i <= |p|
  {
    multiset(Polls(ps)) + multiset(p[i..]) == start && multiset(Unfinished(ps)) == multiset(p[..i])
  }

  lemma MoveOver(a: multiset<Entry>, b: multiset<Entry>, c: multiset<Entry>, e: Entry)
    requires c + multiset{e} == b
    ensures (a + multiset{e}) + c == a + b
  {
  }

  lemma NoReplies()
    ensures Replies([]) == []
  {
  }

  lemma SliceStep(p: seq<Entry>, i: nat)
    requires i < |p|
    ensures multiset(p[i + 1..]) + multiset{p[i]} == multiset(p[i..])
    ensures multiset(p[..i + 1]) == multiset(p[..i]) + multiset{p[i]}
  {
    assert p[i..] == [p[i]] + p[i + 1..];
    assert p[..i + 1] == p[..i] + [p[i]];
  }

  lemma PassStarts(p: seq<Entry>)
    ensures PassSoFar([], p, 0, multiset(p))
  {
    assert p[0..] == p;
  }

  lemma PassKeeps(ps: seq<Polling>, p: seq<Entry>, i: nat, start: multiset<Entry>)
    requires i < |p| && PassSoFar(ps, p, i, start)
    ensures PassSoFar(ps + [Polling(p[i], None)], p, i + 1, start)
  {
    var e := p[i];
    PollsAppend(ps, Polling(e, None));
    hide Polls, Unfinished, Replies;
    SliceStep(p, i);
    MoveOver(multiset(Polls(ps)), multiset(p[i..]), multiset(p[i + 1..]), e);
  }

  lemma PassDrops(ps: seq<Polling>, p: seq<Entry>, i: nat, start: multiset<Entry>, out: Outcome)
    requires i < |p| && PassSoFar(ps, p, i, start)
    ensures PassSoFar(ps + [Polling(p[i], Some(out))], SwapRemove(p, i), i, start)
  {
    PollsAppend(ps, Polling(p[i], Some(out)));
    SwapRemoveSplit(p, i);
    hide SwapRemove, Polls, Unfinished, Replies;
    MoveOver(multiset(Polls(ps)), multiset(p[i..]), multiset(SwapRemove(p, i)[i..]), p[i]);
  }

  lemma PassEnds(ps: seq<Polling>, p: seq<Entry>, start: multiset<Entry>)
    requires PassSoFar(ps, p, |p|, start)
    ensures multiset(Polls(ps)) == start && multiset(Unfinished(ps)) == multiset(p)
  {
    assert p[..|p|] == p && p[|p|..] == [];
  }

  /** How one stage of the loop ended: go on, the thread returned, or the stretch is over. */
  datatype Turn = Onward | Left | Cut

  /** What other threads cannot touch. */
  predicate SameOwner(s: State, t: State) {
    t.pc == s.pc && t.pending == s.pending && t.ledger == s.ledger && t.resolved == s.resolved
  }

  lemma CallersLeaveOwner(s: State, move: CallerStep)
    requires CallerEnabled(s, move)
    ensures SameOwner(s, CallerApply(s, move))
  {
    hide Message;
  }

  class ClientLoop {
    /** The system the thread runs in, and the run so far. */
    var sys: State
    ghost var trace: seq<Step>
    /** The steps of the run that this thread took. */
    ghost var turns: seq<OwnerStep>
    /** What the native timer said and how long the thread then waited, last. */
    ghost var timer: Option<nat>
    ghost var waited: nat
    /** The loop's own in-flight table. */
    var pending: seq<Entry>

    ghost predicate Valid()
      reads `sys, `trace, `turns
    {
      Exec(Init(), trace) == Some(sys) && turns == Turns(trace)
    }

    constructor ()
      ensures Valid() && trace == [] && sys == Init() && pending == [] && turns == []
    {
      sys, trace, pending, turns, timer, waited := Init(), [], [], [], None, 0;
    }

    // The world's side

    method Take(turn: OwnerStep)
      requires Valid() && OwnerEnabled(sys, turn)
      modifies `sys, `trace, `turns
      ensures Valid() && sys == OwnerApply(old(sys), turn) && trace == old(trace) + [Owner(turn)]
      ensures turns == old(turns) + [turn]
    {
      turns := turns + [turn];
      trace := trace + [Owner(turn)];
      assert trace[..|trace| - 1] == old(trace);
      sys := OwnerApply(sys, turn);
    }

    /** Any number of moves by callers and the handle's drop. */
    method Interfere()
      requires Valid()
      modifies `sys, `trace
      ensures Valid() && SameOwner(old(sys), sys) && turns == old(turns)
    {
      var n: nat := *;
      while n > 0
        invariant Valid() && SameOwner(old(sys), sys)
      {
        var move: CallerStep := *;
        if CallerEnabled(sys, move) {
          CallersLeaveOwner(sys, move);
          ghost var before := trace;
          trace := trace + [Caller(move)];
          assert trace[..|trace| - 1] == before;
          assert Turns(trace) == Turns(before) + [];
          sys := CallerApply(sys, move);
        }
        n := n - 1;
      }
    }

    // The operations the loop calls

    method TryRecv() returns (r: Received)
      requires Valid() && sys.pc.Recv?
      modifies `sys, `trace, `turns
      ensures Valid() && sys.pending == old(sys.pending)
      ensures turns == old(turns) + [OwnerStep.TryRecv]
      ensures match r
        case Got(cmd) => sys.pc == Submit(cmd)
        case Empty => sys.pc.Tick?
        case Closed => sys.pc == FailAll(Disconnected)
    {
      Interfere();
      r := if sys.queue != [] then Got(sys.queue[0]) else if sys.txOpen then Empty else Closed;
      Take(OwnerStep.TryRecv);
    }

    /** `submit_request`: marshals, then the native side issues a fresh id or refuses. */
    method SubmitRequest(cmd: Command) returns (r: Result<RequestId>)
      requires Valid() && sys.pc == Submit(cmd)
      modifies `sys, `trace, `turns
      ensures Valid()
      ensures turns == old(turns) + [if r.Ok? then SubmitOk(r.value) else SubmitErr(r.error)]
      ensures match r
        case Ok(id) => sys.pc.Recv? && sys.pending == old(sys.pending) + [Addressed(cmd.call, id)]
        case Err(e) => sys.pc == Reply(cmd.call, Err(e), ToRecv) && sys.pending == old(sys.pending)
    {
      Interfere();
      var view := Marshal.SubmitView(cmd.item.verb, cmd.item.path, cmd.item.headers, cmd.item.body);
      if view.Err? {
        Take(SubmitErr(view.error));
        return Err(view.error);
      }
      var id: RequestId, code: Error, accepted: bool := *, *, *;
      if accepted && id !in sys.ledger.native {
        Take(SubmitOk(id));
        return Ok(id);
      }
      Take(SubmitErr(code));
      return Err(code);
    }

    method ReplySend(c: CallId, out: Outcome)
      requires Valid() && sys.pc.Reply? && sys.pc.call == c && sys.pc.outcome == out
      modifies `sys, `trace, `turns
      ensures Valid() && sys.pending == old(sys.pending)
      ensures turns == old(turns) + [SendReply]
      ensures sys.pc == if old(sys.pc).after.ToRecv? then Recv else Poll(old(sys.pc).after.i)
      ensures sys.resolved == old(sys.resolved) + [Addressed(c, out)]
    {
      Interfere();
      BridgeSafety.ResolveEffect(sys, c, out);
      Take(SendReply);
    }

    /** `tick(..).is_err() || !is_alive()`, negated. */
    method TickAlive() returns (alive: bool)
      requires Valid() && sys.pc.Tick?
      modifies `sys, `trace, `turns
      ensures Valid() && sys.pending == old(sys.pending)
      ensures turns == old(turns) + [if alive then TickOk else TickDead]
      ensures sys.pc == if alive then Poll(0) else FailAll(Dead)
    {
      Interfere();
      alive := *;
      if alive {
        Take(TickOk);
      } else {
        Take(TickDead);
      }
    }

    /** `poll_request(pending[i].0)`. The native side only answers for a live id. */
    method PollRequest(id: RequestId) returns (r: Result<Option<Response>>)
      requires Valid() && sys.pc.Poll? && sys.pc.i < |sys.pending| && sys.pending[sys.pc.i].item == id
      requires id in sys.ledger.native && sys.ledger.native[id].answer.InFlight?
      modifies `sys, `trace, `turns
      ensures Valid() && sys.resolved == old(sys.resolved)
      ensures turns == old(turns) + [PollTurn(r)]
      ensures r.Ok? && r.value.None? ==> sys.pc == Poll(old(sys.pc).i + 1) && sys.pending == old(sys.pending)
      ensures r.Ok? && r.value.Some? ==> r.value.value.id == id
      ensures r.Err? || r.value.Some? ==>
        var out := if r.Err? then Err(r.error) else Ok(r.value.value);
        && sys.pc == Reply(old(sys.pending)[old(sys.pc).i].call, out, ToPoll(old(sys.pc).i))
        && sys.pending == SwapRemove(old(sys.pending), old(sys.pc).i)
    {
      Interfere();
      var payload: Bytes, code: Error, done: bool := *, *, *;
      if done {
        Take(PollOk(payload));
        return Ok(Some(Response(id, payload)));
      } else if code == WouldBlock {
        Take(PollPending);
        return Ok(None);
      } else {
        Take(PollErr(code));
        return Err(code);
      }
    }

    /** The two-handle wait, capped. Returns at once when the signal is set. */
    method WaitReadable2(ms: nat)
      requires Valid() && sys.pc.Block?
      modifies `sys, `trace, `turns, `waited
      ensures Valid() && sys.pending == old(sys.pending) && sys.pc.Clear? && waited == ms
      ensures |turns| == |old(turns)| + 1 && old(turns) <= turns && turns[|old(turns)|].WaitEnds?
    {
      Interfere();
      var cause := if sys.wakes > 0 then Signalled else Timeout;
      Take(WaitEnds(cause));
      waited := ms;
    }

    /** `next_timeout`. */
    method NextTimeout() returns (due: Option<nat>)
      modifies `timer
      ensures due == timer
    {
      var armed: bool, ms: nat := *, *;
      due := if armed then Some(ms) else None;
      timer := due;
    }

    /** The wait of a round: the timer is asked only while requests are in flight. */
    method WaitForWork()
      requires Valid() && sys.pc.Block? && sys.pending == pending
      modifies `sys, `trace, `turns, `timer, `waited
      ensures Valid() && sys.pending == pending && sys.pc.Clear?
      ensures |turns| == |old(turns)| + 1 && old(turns) <= turns && turns[|old(turns)|].WaitEnds?
      ensures waited == ClientWait(pending == [], timer)
    {
      hide Valid;
      var wait := POLL_CAP_MS;
      if pending != [] {
        var due := NextTimeout();
        wait := if due.Some? && due.value < POLL_CAP_MS then due.value else POLL_CAP_MS;
      }
      WaitReadable2(wait);
    }

    /** One read of the waker; false at EAGAIN. */
    method ReadWaker() returns (more: bool)
      requires Valid() && sys.pc.Clear?
      modifies `sys, `trace, `turns
      ensures Valid() && sys.pending == old(sys.pending)
      ensures |turns| == |old(turns)| + 1 && old(turns) <= turns && turns[|old(turns)|].ReadWaker?
      ensures sys.pc == if more then Clear else Recv
    {
      Interfere();
      more := sys.wakes > 0;
      var left: nat := *;
      if !Waker.MayLeave(sys.wakes, left) {
        left := 0;
      }
      Take(OwnerStep.ReadWaker(left));
    }

    /** `return` from the loop: the receiver drops and with it what is still queued. */
    method DropReceiver()
      requires Valid() && sys.pc.FailAll? && sys.pending == []
      modifies `sys, `trace, `turns
      ensures Valid() && sys.pc == Exited(old(sys.pc).why) && sys.pending == []
      ensures old(turns) <= turns
    {
      Interfere();
      Take(FailNext);
      while sys.queue != []
        invariant old(turns) <= turns
        invariant Valid() && sys.pending == []
        invariant sys.pc == Discard(old(sys.pc).why)
        decreases |sys.queue|
      {
        BridgeSafety.ResolveEffect(sys, sys.queue[0].call, Err(NetworkClosed));
        Take(DiscardNext);
      }
      Take(DiscardNext);
    }

    // The loop

    /** `for (_, reply) in pending.drain(..)`: every reply fails with NetworkClosed. */
    method FailPending()
      requires Valid() && sys.pc.FailAll? && sys.pending == pending
      modifies this
      ensures Valid() && sys.pc == old(sys.pc) && sys.pending == pending == []
      ensures old(turns) <= turns
      ensures |sys.resolved| == |old(sys.resolved)| + |old(pending)|
      ensures old(sys.resolved) <= sys.resolved
      ensures forall k | 0 <= k < |old(pending)| ::
        sys.resolved[|old(sys.resolved)| + k] == Addressed(old(pending)[k].call, Err(NetworkClosed))
    {
      var all := pending;
      ghost var k := 0;
      while pending != []
        invariant old(turns) <= turns
        invariant k <= |all| && pending == all[k..]
        invariant Valid() && sys.pc == old(sys.pc) && sys.pending == pending
        invariant |sys.resolved| == |old(sys.resolved)| + k && old(sys.resolved) <= sys.resolved
        invariant forall j | 0 <= j < k ::
          sys.resolved[|old(sys.resolved)| + j] == Addressed(all[j].call, Err(NetworkClosed))
        decreases |pending|
      {
        Interfere();
        BridgeSafety.ResolveEffect(sys, pending[0].call, Err(NetworkClosed));
        Take(FailNext);
        pending := pending[1..];
        k := k + 1;
      }
    }

    /** No reachable table holds a retired id. */
    lemma LiveRow()
      requires Valid() && sys.pc.Poll? && sys.pc.i < |sys.pending|
      ensures var id := sys.pending[sys.pc.i].item;
        id in sys.ledger.native && sys.ledger.native[id].answer.InFlight?
    {
      BridgeSafety.PollsOnlyLiveIds(sys);
    }

    /** Polls row i; a finished row leaves the table and its outcome is in hand. */
    method PollRow(row: Entry) returns (answer: Option<Outcome>)
      requires Valid() && sys.pc.Poll? && sys.pc.i < |sys.pending| && sys.pending[sys.pc.i] == row
      modifies `sys, `trace, `turns
      ensures Valid() && sys.resolved == old(sys.resolved)
      ensures turns == old(turns) + [AnswerTurn(answer)]
      ensures match answer
        case None => sys.pc == Poll(old(sys.pc).i + 1) && sys.pending == old(sys.pending)
        case Some(out) =>
          && sys.pc == Reply(row.call, out, ToPoll(old(sys.pc).i))
          && sys.pending == SwapRemove(old(sys.pending), old(sys.pc).i)
    {
      hide Valid, SwapRemove;
      LiveRow();
      var r := PollRequest(row.item);
      answer := match r
        case Ok(None) => None
        case Ok(Some(resp)) => Some(Ok(resp))
        case Err(e) => Some(Err(e));
    }

    /** One turn of the pass: polls row i, and either goes past it or removes it and sends
        its reply. */
    method PollNext(i: nat, ghost ps: seq<Polling>, ghost start: multiset<Entry>) returns (j: nat, ghost p: Polling)
      requires Valid() && i < |pending| && sys.pc == Poll(i) && sys.pending == pending
      requires PassSoFar(ps, pending, i, start)
      modifies this
      ensures Valid() && j <= |pending| && sys.pc == Poll(j) && sys.pending == pending
      ensures PassSoFar(ps + [p], pending, j, start) && |pending| - j < |old(pending)| - i
      ensures sys.resolved == old(sys.resolved) + Replied(p)
      ensures turns == old(turns) + RowTurns(p)
    {
      hide Valid, SwapRemove, PassSoFar;
      var row := pending[i];
      var answer := PollRow(row);
      p := Polling(row, answer);
      if answer.None? {
        PassKeeps(ps, pending, i, start);
        j := i + 1;
      } else {
        PassDrops(ps, pending, i, start, answer.value);
        SwapRemoveShrinks(pending, i);
        j := i;
        pending := SwapRemove(pending, i);
        ReplySend(row.call, answer.value);
      }
    }

    /** One pass over the in-flight table. Every row present at the start is polled
        once, while its id is live, whatever `swap_remove` reorders; the rows kept are
        those that reported pending; each other row's reply is sent with its answer. */
    method PollPass() returns (ghost ps: seq<Polling>)
      requires Valid() && sys.pc == Poll(0) && sys.pending == pending
      modifies this
      ensures Valid() && sys.pc.Block? && sys.pending == pending
      ensures multiset(Polls(ps)) == multiset(old(pending))
      ensures multiset(pending) == multiset(Unfinished(ps))
      ensures sys.resolved == old(sys.resolved) + Replies(ps)
      ensures turns == old(turns) + PassTurns(ps) + [PollEnd]
    {
      hide Valid, PassSoFar, Unfinished, Polls, Replies, Replied, PassTurns, RowTurns;
      ps := [];
      NoReplies();
      NoTurns();
      ghost var start := multiset(pending);
      var i: nat := 0;
      PassStarts(pending);
      while i < |pending|
        invariant i <= |pending|
        invariant Valid() && sys.pc == Poll(i) && sys.pending == pending
        invariant PassSoFar(ps, pending, i, start)
        invariant sys.resolved == old(sys.resolved) + Replies(ps)
        invariant turns == old(turns) + PassTurns(ps)
        decreases |pending| - i
      {
        ghost var p;
        i, p := PollNext(i, ps, start);
        PollsAppend(ps, p);
        TurnsAppend(ps, p);
        ps := ps + [p];
      }
      PassEnds(ps, pending, start);
      EndPass();
    }

    method EndPass()
      requires Valid() && sys.pc.Poll? && sys.pc.i >= |sys.pending|
      modifies `sys, `trace, `turns
      ensures Valid() && sys.pc.Block? && sys.pending == old(sys.pending) && sys.resolved == old(sys.resolved)
      ensures turns == old(turns) + [PollEnd]
    {
      Take(PollEnd);
    }

    method Leave()
      requires Valid() && sys.pc.FailAll? && sys.pending == pending
      modifies this
      ensures Valid() && sys.pc == Exited(old(sys.pc).why) && sys.pending == pending == []
      ensures old(turns) <= turns
    {
      FailPending();
      DropReceiver();
    }

    /** Takes commands until the channel is empty, submitting each. */
    method DrainCommands(fuel: nat) returns (turn: Turn, left: nat)
      requires Valid() && sys.pc.Recv? && sys.pending == pending
      modifies this
      ensures Valid() && sys.pending == pending
      ensures left <= fuel && old(turns) <= turns && |turns| >= |old(turns)| + (fuel - left)
      ensures turn.Cut? ==> left == 0
      ensures turn.Onward? ==> sys.pc.Tick? && left < fuel
      ensures turn.Left? ==> sys.pc == Exited(Disconnected) && pending == []
    {
      hide Valid;
      left := fuel;
      while left > 0
        invariant left <= fuel && old(turns) <= turns && |turns| >= |old(turns)| + (fuel - left)
        invariant Valid() && sys.pc.Recv? && sys.pending == pending
        decreases left
      {
        left := left - 1;
        var r := TryRecv();
        match r {
          case Got(cmd) =>
            var id := SubmitRequest(cmd);
            match id {
              case Ok(id) => pending := pending + [Addressed(cmd.call, id)];
              case Err(e) => ReplySend(cmd.call, Err(e));
            }
          case Empty => return Onward, left;
          case Closed =>
            Leave();
            return Left, left;
        }
      }
      turn := Cut;
    }

    /** `wake.drain()`: reads until nothing is pending. */
    method DrainWaker(fuel: nat) returns (turn: Turn, left: nat)
      requires Valid() && sys.pc.Clear?
      modifies `sys, `trace, `turns
      ensures Valid() && sys.pending == old(sys.pending)
      ensures left <= fuel && old(turns) <= turns && |turns| >= |old(turns)| + (fuel - left)
      ensures turn.Cut? ==> left == 0
      ensures turn == if sys.pc.Recv? then Onward else Cut
    {
      hide Valid;
      left := fuel;
      while left > 0
        invariant left <= fuel && old(turns) <= turns && |turns| >= |old(turns)| + (fuel - left)
        invariant Valid() && sys.pc.Clear? && sys.pending == old(sys.pending)
        decreases left
      {
        left := left - 1;
        var more := ReadWaker();
        if !more {
          return Onward, left;
        }
      }
      turn := Cut;
    }

    /** `run_client_loop`, for any finite stretch of its execution: it returns by one of
        its exits, or is cut after at least `fuel` steps of its own. */
    method Run(fuel: nat) returns (left: bool)
      requires Valid() && sys == Init() && pending == []
      modifies this
      ensures Valid() && sys.pending == pending
      ensures !left ==> |turns| >= |old(turns)| + fuel
      ensures left ==> sys.pc.Exited? && pending == []
    {
      hide Valid;
      var f: nat := fuel;
      var turn := Onward;
      while true
        invariant Valid() && sys.pc.Recv? && sys.pending == pending
        invariant f <= fuel && |turns| >= |old(turns)| + (fuel - f)
        decreases f
      {
        turn, f := DrainCommands(f);
        if !turn.Onward? {
          return turn.Left?;
        }
        var alive := TickAlive();
        if !alive {
          Leave();
          return true;
        }
        ghost var ps := PollPass();
        WaitForWork();
        turn, f := DrainWaker(f);
        if turn.Cut? {
          return false;
        }
      }
    }
  }
}
