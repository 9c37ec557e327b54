/** The law a managed lookup keeps, stated over the native calls it made. */
module Lookup {
  import opened Wire
  import opened Node

  const LOOKUP_CAP_MS: nat := 20

  /** The wait of a pass: the dht's timer if armed, and never above the cap. */
  function Capped(timer: Option<nat>): (ms: nat)
    ensures ms <= LOOKUP_CAP_MS && (timer.Some? ==> ms <= timer.value)
    ensures ms < LOOKUP_CAP_MS ==> timer == Some(ms)
  {
    if timer.Some? && timer.value < LOOKUP_CAP_MS then timer.value else LOOKUP_CAP_MS
  }

  /** Call i, straight after `prev`, while nothing has been found: a clock reading before
      the deadline begins a pass, which ticks the server, ticks the dht, looks, reads the
      dht's timer and waits. */
  predicate Follows(i: nat, prev: Act, next: Act, target: NodeId, deadline: int) {
    match next
    case Clock(at) => (i == 3 || prev.Waited?) && at < deadline
    case Ticked(ServerSide, failure, _) => i > 3 && prev.Clock? && failure.None?
    case Ticked(DhtSide, failure, _) => prev.Ticked? && prev.side.ServerSide? && failure.None?
    case Looked(t, hit) => prev.Ticked? && prev.side.DhtSide? && t == target && hit.None?
    case Timer(side, _) => prev.Looked? && side.DhtSide?
    case Waited(ms) => prev.Timer? && ms == Capped(prev.due)
    case _ => false
  }

  /** Calls that have found nothing yet and have not ended: a look, the start, the reading
      the deadline is counted from, then passes. */
  predicate Searching(log: seq<Act>, target: NodeId, timeout: nat) {
    && (log != [] ==> log[0] == Looked(target, None))
    && (|log| > 1 ==> log[1] == Started(target, None))
    && (|log| > 2 ==> log[2].Clock?)
    && (forall i | 3 <= i < |log| :: Follows(i, log[i - 1], log[i], target, log[2].at + timeout))
  }

  /** How call i can be the last one: a hit, a failed tick, the deadline gone by. */
  predicate Ends(i: nat, prev: Act, last: Act, target: NodeId, deadline: int, r: Result<Address>) {
    match last
    case Looked(t, hit) => prev.Ticked? && prev.side.DhtSide? && Hit(t, hit, target, r)
    case Ticked(ServerSide, failure, _) => i > 3 && prev.Clock? && failure.Some? && r == Err(failure.value)
    case Ticked(DhtSide, failure, _) =>
      prev.Ticked? && prev.side.ServerSide? && failure.Some? && r == Err(failure.value)
    case Clock(at) => (i == 3 || prev.Waited?) && at >= deadline && r == Err(IdentityNotFound)
    case _ => false
  }

  predicate Hit(t: NodeId, hit: Option<Record>, target: NodeId, r: Result<Address>) {
    t == target && hit.Some? && hit.value.node == target && r == Ok(hit.value.address)
  }

  predicate LookupLaw(log: seq<Act>, target: NodeId, timeout: nat, r: Result<Address>) {
    && log != []
    && Searching(log[..|log| - 1], target, timeout)
    && var last := log[|log| - 1];
       match |log|
       case 1 => last.Looked? && Hit(last.target, last.hit, target, r)
       case 2 => last.Started? && last.target == target && last.failure.Some? && r == Err(last.failure.value)
       case 3 => false
       case _ => Ends(|log| - 1, log[|log| - 2], last, target, log[2].at + timeout, r)
  }

  /** One more call after those made since call n. */
  lemma SearchesOn(acts: seq<Act>, n: nat, next: Act, target: NodeId, timeout: nat)
    requires n + 3 <= |acts| && Searching(acts[n..], target, timeout)
    requires acts[n + 2].Clock?
    requires Follows(|acts| - n, acts[|acts| - 1], next, target, acts[n + 2].at + timeout)
    ensures Searching((acts + [next])[n..], target, timeout)
  {
    hide Follows;
    var log, all := acts[n..], (acts + [next])[n..];
    assert all == log + [next];
    forall i | 3 <= i < |all| ensures Follows(i, all[i - 1], all[i], target, all[2].at + timeout) {
      if i < |log| {
        assert all[i - 1] == log[i - 1] && all[i] == log[i];
      }
    }
  }

  lemma SearchEnds(acts: seq<Act>, n: nat, last: Act, target: NodeId, timeout: nat, r: Result<Address>)
    requires n + 3 <= |acts| && Searching(acts[n..], target, timeout)
    requires acts[n + 2].Clock?
    requires Ends(|acts| - n, acts[|acts| - 1], last, target, acts[n + 2].at + timeout, r)
    ensures LookupLaw((acts + [last])[n..], target, timeout, r)
  {
    hide Ends, Searching;
    var log, all := acts[n..], (acts + [last])[n..];
    assert all == log + [last];
    assert all[..|all| - 1] == log && all[|all| - 2] == acts[|acts| - 1];
  }

  /** The ends before any pass. */
  lemma StoredEnds(acts: seq<Act>, target: NodeId, address: Address, timeout: nat)
    ensures LookupLaw((acts + [Looked(target, Some(Record(target, address)))])[|acts|..], target, timeout, Ok(address))
  {
  }

  lemma StartFails(acts: seq<Act>, target: NodeId, timeout: nat, e: Error)
    ensures var log := (acts + [Looked(target, None)] + [Started(target, Some(e))])[|acts|..];
            LookupLaw(log, target, timeout, Err(e))
  {
    var log := (acts + [Looked(target, None)] + [Started(target, Some(e))])[|acts|..];
    assert log == [Looked(target, None), Started(target, Some(e))];
    assert log[..1] == [Looked(target, None)];
  }

  lemma SearchBegins(acts: seq<Act>, target: NodeId, timeout: nat, at: int)
    ensures var all := acts + [Looked(target, None)] + [Started(target, None)] + [Clock(at)];
            Searching(all[|acts|..], target, timeout) && all[|acts| + 2] == Clock(at)
  {
    var all := acts + [Looked(target, None)] + [Started(target, None)] + [Clock(at)];
    assert all[|acts|..] == [Looked(target, None), Started(target, None), Clock(at)];
  }

  /** The wait is for the dht's timer just read, or for the cap, whichever comes first. */
  predicate IsTimed(timer: Act, ms: nat) {
    && timer.Timer? && timer.side.DhtSide?
    && (timer.due.Some? ==> ms <= timer.due.value)
    && (ms < LOOKUP_CAP_MS ==> timer.due == Some(ms))
  }

  /** What a call of an unfinished search can be. */
  lemma Shape(log: seq<Act>, target: NodeId, timeout: nat, i: nat)
    requires Searching(log, target, timeout) && i < |log|
    ensures i == 0 ==> log[i] == Looked(target, None)
    ensures log[i].Started? <==> i == 1
    ensures i == 1 ==> log[i] == Started(target, None)
    ensures i == 2 ==> log[i].Clock?
    ensures log[i].Looked? ==> log[i] == Looked(target, None)
    ensures log[i].Waited? ==> log[i].ms <= LOOKUP_CAP_MS && i > 3 && IsTimed(log[i - 1], log[i].ms)
    ensures log[i].Ticked? ==> i > 3 && log[i].failure.None?
    ensures log[i].Ticked? && log[i].side.ServerSide? ==> log[i - 1].Clock? && log[i - 1].at < log[2].at + timeout
  {
    if i >= 3 {
      assert Follows(i, log[i - 1], log[i], target, log[2].at + timeout);
      if log[i].Ticked? || log[i].Waited? {
        assert i > 3;
        assert Follows(i - 1, log[i - 2], log[i - 1], target, log[2].at + timeout);
      }
    }
  }

  /** One lookup at most is started, for the target, and none when its record was stored:
      then the first look is all there is. */
  lemma StartsAtMostOnce(log: seq<Act>, target: NodeId, timeout: nat, r: Result<Address>, i: nat)
    requires LookupLaw(log, target, timeout, r) && i < |log| && log[i].Started?
    ensures i == 1 && log[i].target == target && log[0] == Looked(target, None)
  {
    var front := log[..|log| - 1];
    if i < |front| {
      Shape(front, target, timeout, i);
    }
    if |front| > 0 {
      Shape(front, target, timeout, 0);
    }
  }

  /** An address is returned exactly when a look found a record, which is the last call of
      the lookup, and the record is the target's own. */
  lemma FoundIffHit(log: seq<Act>, target: NodeId, timeout: nat, r: Result<Address>)
    requires LookupLaw(log, target, timeout, r)
    ensures r.Ok? <==> exists i | 0 <= i < |log| :: log[i].Looked? && log[i].hit.Some?
    ensures forall i | 0 <= i < |log| && log[i].Looked? && log[i].hit.Some? ::
              i == |log| - 1 && log[i] == Looked(target, Some(Record(target, r.value)))
  {
    var front := log[..|log| - 1];
    forall i | 0 <= i < |log| && log[i].Looked? && log[i].hit.Some?
      ensures i == |log| - 1
    {
      if i < |front| {
        Shape(front, target, timeout, i);
      }
    }
    if r.Ok? {
      assert log[|log| - 1].Looked? && log[|log| - 1].hit.Some?;
    }
  }

  /** The deadline of a lookup that got as far as reading the clock. */
  function Deadline(log: seq<Act>, timeout: nat): int
    requires |log| > 2 && log[2].Clock?
  {
    log[2].at + timeout
  }

  /** Each pass, begun by ticking the server, follows a clock reading before the deadline;
      each wait is for the dht's timer just read, and at most 20 ms. */
  lemma PassesInTime(log: seq<Act>, target: NodeId, timeout: nat, r: Result<Address>, i: nat)
    requires LookupLaw(log, target, timeout, r) && i < |log|
    ensures log[i].Waited? ==> log[i].ms <= LOOKUP_CAP_MS && i > 3 && IsTimed(log[i - 1], log[i].ms)
    ensures log[i].Ticked? && log[i].side.ServerSide? ==>
              i > 3 && log[2].Clock? && log[i - 1].Clock? && log[i - 1].at < Deadline(log, timeout)
  {
    var front := log[..|log| - 1];
    if i < |front| {
      Shape(front, target, timeout, i);
      if i > 2 {
        Shape(front, target, timeout, 2);
      }
    } else if i > 3 {
      Shape(front, target, timeout, 2);
      Shape(front, target, timeout, i - 1);
      if log[i].Ticked? && log[i].side.ServerSide? {
        assert Follows(i - 1, front[i - 2], front[i - 1], target, front[2].at + timeout);
      }
    }
  }

  /** Not found is reported only when a native call said so, or at a clock reading at or
      past the deadline, by when every dht tick was followed by a look that missed. */
  lemma NotFoundIsLate(log: seq<Act>, target: NodeId, timeout: nat, r: Result<Address>)
    requires LookupLaw(log, target, timeout, r) && r == Err(IdentityNotFound)
    ensures var last := log[|log| - 1];
            || (last.Started? && last.failure == Some(IdentityNotFound))
            || (last.Ticked? && last.failure == Some(IdentityNotFound))
            || (|log| > 3 && log[2].Clock? && last.Clock? && last.at >= Deadline(log, timeout)
                && forall i | 0 <= i < |log| && log[i].Ticked? && log[i].side.DhtSide? ::
                     i + 1 < |log| && log[i + 1] == Looked(target, None))
  {
    var front, last := log[..|log| - 1], log[|log| - 1];
    if last.Clock? {
      Shape(front, target, timeout, 2);
      forall i | 0 <= i < |log| && log[i].Ticked? && log[i].side.DhtSide?
        ensures i + 1 < |log| && log[i + 1] == Looked(target, None)
      {
        Shape(front, target, timeout, i);
        if i + 1 < |front| {
          assert Follows(i + 1, front[i], front[i + 1], target, front[2].at + timeout);
        }
      }
    }
  }

  /** How a lookup that failed with e ended. */
  predicate FailedWith(log: seq<Act>, timeout: nat, e: Error)
    requires log != []
  {
    match log[|log| - 1]
    case Started(_, failure) => failure == Some(e)
    case Ticked(_, failure, _) => failure == Some(e)
    case Clock(at) => e == IdentityNotFound && |log| > 2 && log[2].Clock? && at >= Deadline(log, timeout)
    case _ => false
  }

  /** A lookup fails exactly when its last native call failed, with that call's error, or
      its last clock reading was at or past the deadline, as not found. */
  lemma FailsAsCalled(log: seq<Act>, target: NodeId, timeout: nat, r: Result<Address>, e: Error)
    requires LookupLaw(log, target, timeout, r)
    ensures r == Err(e) <==> FailedWith(log, timeout, e)
  {
    if |log| > 3 {
      Shape(log[..|log| - 1], target, timeout, 2);
    }
  }

  /** What the calls say, the state bears out: a found address is in the store. */
  lemma FoundIsStored(acts: seq<Act>, n: nat, target: NodeId, timeout: nat, r: Result<Address>)
    requires n <= |acts| && Replay(acts).Some?
    requires LookupLaw(acts[n..], target, timeout, r) && r.Ok?
    ensures target in Replay(acts).value.records && Replay(acts).value.records[target] == r.value
  {
    FoundIffHit(acts[n..], target, timeout, r);
    var log := acts[n..];
    assert acts[|acts| - 1] == log[|log| - 1];
    assert acts[|acts| - 1] == Looked(target, Some(Record(target, r.value)));
  }
}
