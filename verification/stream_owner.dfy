/** The two ends of a managed stream as written: the owner thread's read loop over its
    reused buffer, and the consumer's loop. Each is proved to be a run of the pipeline. */
module StreamOwner {
  import opened Wire
  import opened Stream
  import StreamSafety
  import StreamTrace

  /** What neither the feeder nor the consumer can touch. */
  predicate SameReader(s: State, t: State) {
    && t.body == s.body && t.taken == s.taken && t.reader == s.reader && t.verified == s.verified
    && t.pushed == s.pushed && (t.rxOpen ==> s.rxOpen) && s.feed.accepted <= t.feed.accepted
  }

  /** What neither the feeder nor the owner thread can touch. */
  predicate SameConsumer(s: State, t: State) {
    t.body == s.body && t.results == s.results && t.popped == s.popped && t.rxOpen == s.rxOpen
  }

  predicate OfReader(step: Step) {
    step.Recv? || step.RecvErr? || step.Deliver? || step.Verify? || step.Conclude?
  }

  predicate OfConsumer(step: Step) {
    step.Take? || step.TakeClosed? || step.Hangup?
  }

  lemma OthersKeepReader(s: State, step: Step)
    requires Enabled(s, step) && !OfReader(step)
    ensures SameReader(s, Apply(s, step))
  {
  }

  lemma OthersKeepConsumer(s: State, step: Step)
    requires Enabled(s, step) && !OfConsumer(step)
    ensures SameConsumer(s, Apply(s, step))
  {
    hide FeedApply;
  }

  /** The steps of a run that the owner thread took, and those the consumer took. */
  function ReaderSteps(steps: seq<Step>): seq<Step> {
    if steps == [] then []
    else ReaderSteps(steps[..|steps| - 1]) + if OfReader(steps[|steps| - 1]) then steps[|steps| - 1..] else []
  }

  function ConsumerSteps(steps: seq<Step>): seq<Step> {
    if steps == [] then []
    else ConsumerSteps(steps[..|steps| - 1]) + if OfConsumer(steps[|steps| - 1]) then steps[|steps| - 1..] else []
  }

  lemma StepsNext(steps: seq<Step>, step: Step)
    ensures ReaderSteps(steps + [step]) == if OfReader(step) then ReaderSteps(steps) + [step] else ReaderSteps(steps)
    ensures ConsumerSteps(steps + [step])
            == if OfConsumer(step) then ConsumerSteps(steps) + [step] else ConsumerSteps(steps)
  {
    var all := steps + [step];
    assert all[..|steps|] == steps && all[|steps|..] == [step];
    assert ReaderSteps(steps) + [] == ReaderSteps(steps) && ConsumerSteps(steps) + [] == ConsumerSteps(steps);
  }

  lemma {:induction false} StepsAreTaken(steps: seq<Step>)
    ensures forall step <- ReaderSteps(steps) :: step in steps
    ensures forall step <- ConsumerSteps(steps) :: step in steps
  {
    if steps != [] {
      StepsAreTaken(steps[..|steps| - 1]);
    }
  }

  class StreamRun {
    var sys: State
    ghost var trace: seq<Step>

    ghost predicate Valid()
      reads this
    {
      Exec(Init(sys.body), trace) == Some(sys)
    }

    constructor (body: Bytes)
      ensures Valid() && sys == Init(body)
    {
      sys, trace := Init(body), [];
    }

    method Do(step: Step)
      requires Valid() && Enabled(sys, step)
      modifies `sys, `trace
      ensures Valid() && sys == Apply(old(sys), step)
      ensures trace == old(trace) + [step]
      ensures OfReader(step) ==> ReaderSteps(trace) == ReaderSteps(old(trace)) + [step]
      ensures !OfReader(step) ==> ReaderSteps(trace) == ReaderSteps(old(trace))
      ensures OfConsumer(step) ==> ConsumerSteps(trace) == ConsumerSteps(old(trace)) + [step]
      ensures !OfConsumer(step) ==> ConsumerSteps(trace) == ConsumerSteps(old(trace))
    {
      StepsNext(trace, step);
      hide ReaderSteps, ConsumerSteps, OfReader, OfConsumer;
      ghost var all := trace + [step];
      assert all[..|all| - 1] == trace;
      trace, sys := all, Apply(sys, step);
    }

    /** Any number of moves by everyone but the owner thread. */
    method OthersThanReader()
      requires Valid()
      modifies this
      ensures Valid() && SameReader(old(sys), sys)
      ensures ReaderSteps(trace) == ReaderSteps(old(trace))
    {
      hide ReaderSteps, ConsumerSteps;
      var n: nat := *;
      while n > 0
        invariant Valid() && SameReader(old(sys), sys)
        invariant ReaderSteps(trace) == ReaderSteps(old(trace))
      {
        var step: Step := *;
        if Enabled(sys, step) && !OfReader(step) {
          OthersKeepReader(sys, step);
          hide Apply;
          Do(step);
        }
        n := n - 1;
      }
    }

    /** Any number of moves by everyone but the consumer. */
    method OthersThanConsumer()
      requires Valid()
      modifies this
      ensures Valid() && SameConsumer(old(sys), sys)
      ensures ConsumerSteps(trace) == ConsumerSteps(old(trace))
    {
      hide ReaderSteps, ConsumerSteps;
      var n: nat := *;
      while n > 0
        invariant Valid() && SameConsumer(old(sys), sys)
        invariant ConsumerSteps(trace) == ConsumerSteps(old(trace))
      {
        var step: Step := *;
        if Enabled(sys, step) && !OfConsumer(step) {
          OthersKeepConsumer(sys, step);
          hide Apply;
          Do(step);
        }
        n := n - 1;
      }
    }

    lemma Bounds()
      requires Valid()
      ensures sys.taken <= |sys.feed.accepted| && |sys.chan| <= CAPACITY
    {
      assert Reachable(sys);
      StreamSafety.InvariantHolds(sys);
    }

    // The owner thread

    method Fill(buf: array<byte>, data: Bytes)
      requires |data| <= buf.Length
      modifies buf
      ensures buf[..|data|] == data
    {
      forall i | 0 <= i < |data| {
        buf[i] := data[i];
      }
    }

    /** The read as a step: the next n bytes, or an error. */
    method TakeBytes(n: nat, ended: bool)
      requires Valid() && sys.reader.Reading? && n <= CHUNK && sys.taken + n <= |sys.feed.accepted|
      requires ended ==> sys.feed.ended && sys.taken + n == |sys.feed.accepted|
      modifies `sys, `trace
      ensures Valid() && ReaderSteps(trace) == ReaderSteps(old(trace)) + [Step.Recv(n, ended)]
      ensures sys.body == old(sys.body) && sys.feed == old(sys.feed) && sys.taken == old(sys.taken) + n
      ensures sys.reader ==
              if n > 0 then Delivering(sys.feed.accepted[old(sys.taken)..sys.taken], ended)
              else if ended then Verifying else Reading
    {
      hide ReaderSteps, ConsumerSteps, Valid;
      Do(Step.Recv(n, ended));
    }

    method TakeError(e: Error)
      requires Valid() && sys.reader.Reading?
      modifies `sys, `trace
      ensures Valid() && ReaderSteps(trace) == ReaderSteps(old(trace)) + [RecvErr(e)]
      ensures sys.body == old(sys.body) && sys.taken == old(sys.taken) && sys.reader == Concluding(Fail(e))
    {
      hide ReaderSteps, ConsumerSteps, Valid;
      Do(RecvErr(e));
    }

    /** The step a read is, by its result. */
    function ReadAs(r: Result<(nat, bool)>): Step {
      match r
      case Ok((n, ended)) => Step.Recv(n, ended)
      case Err(e) => RecvErr(e)
    }

    /** `stream.recv(&mut buf)`: fills a prefix of the buffer with the next bytes. */
    method Recv(buf: array<byte>) returns (r: Result<(nat, bool)>)
      requires Valid() && sys.reader.Reading? && buf.Length == CHUNK
      modifies this, buf
      ensures Valid() && sys.body == old(sys.body)
      ensures ReaderSteps(trace) == ReaderSteps(old(trace)) + [ReadAs(r)]
      ensures r.Err? ==> sys.reader == Concluding(Fail(r.error)) && sys.taken == old(sys.taken)
      ensures r.Ok? ==>
        var (n, ended) := r.value;
        && n <= CHUNK && sys.taken == old(sys.taken) + n <= |sys.feed.accepted|
        && buf[..n] == sys.feed.accepted[old(sys.taken)..sys.taken]
        && sys.reader == (if n > 0 then Delivering(buf[..n], ended) else if ended then Verifying else Reading)
    {
      hide ReaderSteps, ConsumerSteps, Apply, Enabled, Valid;
      OthersThanReader();
      Bounds();
      var failed: bool, e: Error, n: nat, fin: bool := *, *, *, *;
      if failed {
        TakeError(e);
        return Err(e);
      }
      var room := |sys.feed.accepted| - sys.taken;
      n := if n > room then room else n;
      n := if n > CHUNK then CHUNK else n;
      var ended := fin && sys.feed.ended && n == room;
      Fill(buf, sys.feed.accepted[sys.taken..sys.taken + n]);
      TakeBytes(n, ended);
      return Ok((n, ended));
    }

    /** Blocked on a full channel, the thread goes on once the consumer took an item. */
    method AwaitRoom()
      requires Valid()
      modifies this
      ensures Valid() && SameReader(old(sys), sys)
      ensures sys.rxOpen ==> |sys.chan| < CAPACITY
      ensures ReaderSteps(trace) == ReaderSteps(old(trace))
    {
      hide ReaderSteps, ConsumerSteps;
      OthersThanReader();
      Bounds();
      if sys.rxOpen && |sys.chan| >= CAPACITY {
        Do(Take);
      }
    }

    /** `blocking_send`: waits for room; false once the receiver is gone. */
    method BlockingSend(item: Item) returns (sent: bool)
      requires Valid()
      requires sys.reader == Concluding(item) || (sys.reader.Delivering? && item == Chunk(sys.reader.chunk))
      modifies this
      ensures Valid() && sys.body == old(sys.body)
      ensures !sent || old(sys.reader).Concluding? ==> sys.reader.Gone?
      ensures sent && old(sys.reader).Delivering?
          ==> sys.reader == if old(sys.reader).ended then Verifying else Reading
      ensures sent ==> sys.pushed == old(sys.pushed) + [item]
      ensures ReaderSteps(trace)
              == ReaderSteps(old(trace)) + [if old(sys.reader).Delivering? then Deliver else Conclude]
    {
      hide ReaderSteps, ConsumerSteps;
      AwaitRoom();
      sent := sys.rxOpen;
      if sys.reader.Delivering? {
        Do(Deliver);
      } else {
        Do(Conclude);
      }
    }

    /** `request.verify_peer()`: the owner's step is the native answer, and the item it goes
        on to send is that answer. */
    method VerifyPeer() returns (failure: Option<Error>)
      requires Valid() && sys.reader.Verifying?
      modifies this
      ensures Valid() && sys.body == old(sys.body)
      ensures sys.reader == Concluding(if failure.None? then End else Fail(failure.value))
      ensures ReaderSteps(trace) == ReaderSteps(old(trace)) + [Verify(failure)]
      ensures trace != [] && trace[|trace| - 1] == Verify(failure)
    {
      hide ReaderSteps, ConsumerSteps;
      OthersThanReader();
      failure := *;
      Do(Verify(failure));
    }

    /** The body of the owner thread once the metadata is sent: it returns after its last
        send, which is what the native side answered, or is cut after at least `fuel` steps
        of its own. */
    method ReadLoop(fuel: nat) returns (returned: bool)
      requires Valid() && sys.reader.Reading?
      modifies this
      ensures Valid()
      ensures returned ==> sys.reader.Gone?
      ensures returned && sys.rxOpen ==>
        && sys.pushed != [] && !sys.pushed[|sys.pushed| - 1].Chunk?
        && StreamTrace.ItemTold(trace, sys.pushed[|sys.pushed| - 1])
      ensures !returned ==> |ReaderSteps(trace)| >= |ReaderSteps(old(trace))| + fuel
    {
      hide ReaderSteps, ConsumerSteps, Exec, StreamTrace.ItemTold;
      var buf := new byte[CHUNK](_ => 0);
      for k := 0 to fuel
        invariant Valid() && sys.reader.Reading?
        invariant |ReaderSteps(trace)| >= |ReaderSteps(old(trace))| + k
      {
        var r := Recv(buf);
        match r {
          case Ok((n, ended)) =>
            if n > 0 {
              var sent := BlockingSend(Chunk(buf[..n]));
              if !sent {
                StreamTrace.LastIsTold(sys.body, trace, sys);
                return true;
              }
            }
            if ended {
              var failure := VerifyPeer();
              var sent := BlockingSend(if failure.None? then End else Fail(failure.value));
              StreamTrace.LastIsTold(sys.body, trace, sys);
              return true;
            }
          case Err(e) =>
            var sent := BlockingSend(Fail(e));
            StreamTrace.LastIsTold(sys.body, trace, sys);
            return true;
        }
      }
      returned := false;
    }

    // The consumer

    /** `recv().await`: the next item, or none when the stretch ends while it waits. */
    method NextItem() returns (item: Option<Item>)
      requires Valid() && sys.rxOpen
      modifies this
      ensures Valid() && sys.body == old(sys.body) && sys.rxOpen
      ensures sys.results == if item.Some? then old(sys.results) + [item.value] else old(sys.results)
      ensures item.None? ==> sys.chan == [] && !sys.reader.Gone?
      ensures
        || (item.None? && ConsumerSteps(trace) == ConsumerSteps(old(trace)))
        || (item.Some? && ConsumerSteps(trace) == ConsumerSteps(old(trace)) + [Take])
        || (item == Some(End) && ConsumerSteps(trace) == ConsumerSteps(old(trace)) + [TakeClosed])
    {
      hide ReaderSteps, ConsumerSteps;
      OthersThanConsumer();
      if sys.chan != [] {
        item := Some(sys.chan[0]);
        Do(Take);
      } else if sys.reader.Gone? {
        item := Some(End);
        Do(TakeClosed);
      } else {
        item := None;
      }
    }

    /** `while let Some(chunk) = stream.recv().await?`: counts bytes and chunks. Ending
        without an error, it has seen every byte of the body; it is cut only after `fuel`
        items, or waiting with none queued and the owner still at work. */
    method Consume(fuel: nat) returns (r: Option<Result<(nat, nat)>>)
      requires Valid() && sys.rxOpen && sys.results == []
      modifies this
      ensures Valid()
      ensures r.Some? && r.value.Ok? ==>
        && r.value.value.0 == |sys.body| && Verify(None) in trace && Flat(sys.results) == sys.body
        && r.value.value.1 == |sys.results| - 1
      ensures r.Some? && r.value.Err? ==>
        && sys.results != [] && sys.results[|sys.results| - 1] == Fail(r.value.error)
        && StreamTrace.Erred(trace, r.value.error)
      ensures r.None? ==>
        || |ConsumerSteps(trace)| >= |ConsumerSteps(old(trace))| + fuel
        || (sys.chan == [] && !sys.reader.Gone?)
    {
      hide ReaderSteps, ConsumerSteps;
      var total, chunks: nat := 0, 0;
      for k := 0 to fuel
        invariant Valid() && sys.rxOpen
        invariant |ConsumerSteps(trace)| == |ConsumerSteps(old(trace))| + k
        invariant forall i | 0 <= i < |sys.results| :: sys.results[i].Chunk?
        invariant total == |Flat(sys.results)| && chunks == |sys.results|
      {
        ghost var seen := sys.results;
        var item := NextItem();
        match item {
          case None => return None;
          case Some(Fail(e)) =>
            StreamTrace.ErrorsRead(sys.body, trace, sys, |seen|);
            return Some(Err(e));
          case Some(End) =>
            StreamTrace.HonestVerdict(sys.body, trace, sys, |seen|);
            assert sys.results[..|seen|] == seen;
            StreamSafety.FlatAppend(seen, End);
            return Some(Ok((total, chunks)));
          case Some(Chunk(bytes)) =>
            StreamSafety.FlatAppend(seen, Chunk(bytes));
            total := total + |bytes|;
            chunks := chunks + 1;
        }
      }
      r := None;
    }
  }
}
