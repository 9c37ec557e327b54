/** What becomes of the pipeline once its consumer has hung up: the owner thread notices
    only where it sends. */
module StreamHangup {
  import opened Wire
  import opened Stream
  import opened StreamSafety

  /** A native read: where the owner thread depends on the peer. */
  predicate Reads(step: Step) {
    step.Recv? || step.RecvErr?
  }

  /** What only the peer or the transport can bring about. */
  predicate ByPeer(step: Step) {
    step.Feeding? || step.RecvErr?
  }

  /** A read with bytes, an end or an error. */
  predicate Telling(step: Step) {
    step.RecvErr? || (step.Recv? && (step.n > 0 || step.ended))
  }

  /** Something for the next read to return is there already. */
  predicate Readable(s: State) {
    s.taken < |s.feed.accepted| || s.feed.ended
  }

  lemma GoesOn(s: State, steps: seq<Step>, step: Step)
    requires Exec(s, steps).Some? && Enabled(Exec(s, steps).value, step)
    ensures Exec(s, steps + [step]) == Some(Apply(Exec(s, steps).value, step))
  {
    assert (steps + [step])[..|steps|] == steps;
  }

  // The way out without a read

  /** How many steps are left to an owner that is not reading. */
  function ToGone(reader: Reader): nat {
    match reader
    case Gone => 0
    case Delivering(_, _) => 1
    case Concluding(_) => 1
    case Verifying => 2
    case Reading => 3
  }

  function OutNext(reader: Reader): Step {
    match reader
    case Delivering(_, _) => Deliver
    case Verifying => Verify(None)
    case _ => Conclude
  }

  lemma OutStep(s: State)
    requires !s.rxOpen && !s.reader.Reading? && !s.reader.Gone?
    ensures Enabled(s, OutNext(s.reader)) && !Reads(OutNext(s.reader)) && !ByPeer(OutNext(s.reader))
    ensures var t := Apply(s, OutNext(s.reader));
      !t.rxOpen && !t.reader.Reading? && ToGone(t.reader) < ToGone(s.reader)
  {
  }

  lemma {:induction false} WayOut(s: State, before: seq<Step>) returns (more: seq<Step>)
    requires Exec(s, before).Some?
    requires var t := Exec(s, before).value; !t.rxOpen && !t.reader.Reading?
    ensures Exec(s, before + more).Some? && Exec(s, before + more).value.reader.Gone?
    ensures forall step <- more :: !Reads(step) && !ByPeer(step)
    decreases ToGone(Exec(s, before).value.reader)
  {
    hide Exec, Apply, Enabled;
    var t := Exec(s, before).value;
    if t.reader.Gone? {
      assert before + [] == before;
      return [];
    }
    OutStep(t);
    GoesOn(s, before, OutNext(t.reader));
    var rest := WayOut(s, before + [OutNext(t.reader)]);
    more := [OutNext(t.reader)] + rest;
    assert before + more == before + [OutNext(t.reader)] + rest;
  }

  lemma ReadingStays(s: State, step: Step)
    requires Enabled(s, step) && s.reader.Reading? && !Reads(step)
    ensures Apply(s, step).reader.Reading?
  {
  }

  lemma {:induction false} ReadingStaysOn(s: State, steps: seq<Step>)
    requires s.reader.Reading? && Exec(s, steps).Some? && forall step <- steps :: !Reads(step)
    ensures Exec(s, steps).value.reader.Reading?
  {
    hide Apply, Enabled, Reads;
    if steps != [] {
      var front := steps[..|steps| - 1];
      ReadingStaysOn(s, front);
      ReadingStays(Exec(s, front).value, steps[|steps| - 1]);
    }
  }

  /** After a hang-up the owner can end without another native read exactly when it is not
      at its read. */
  lemma EndsUnreadIff(s: State)
    requires !s.rxOpen
    ensures (exists steps: seq<Step> :: (forall step <- steps :: !Reads(step))
               && Exec(s, steps).Some? && Exec(s, steps).value.reader.Gone?)
            <==> !s.reader.Reading?
  {
    if s.reader.Reading? {
      forall steps: seq<Step> | (forall step <- steps :: !Reads(step)) && Exec(s, steps).Some?
        ensures !Exec(s, steps).value.reader.Gone?
      {
        ReadingStaysOn(s, steps);
      }
    } else {
      assert Exec(s, []) == Some(s);
      var steps := WayOut(s, []);
      assert [] + steps == steps;
    }
  }

  /** At its read, one that brings bytes, an end or an error is enough: after it the owner
      can end with no other. */
  lemma OneReadSuffices(s: State, step: Step)
    requires !s.rxOpen && Enabled(s, step) && Telling(step)
    ensures exists steps: seq<Step> :: (forall other <- steps :: !Reads(other))
              && Exec(Apply(s, step), steps).Some? && Exec(Apply(s, step), steps).value.reader.Gone?
  {
    EndsUnreadIff(Apply(s, step));
  }

  // The way out without the peer

  lemma StuckStays(s: State, step: Step)
    requires Enabled(s, step) && s.reader.Reading? && !Readable(s) && !ByPeer(step)
    ensures Apply(s, step).reader.Reading? && !Readable(Apply(s, step))
  {
  }

  lemma {:induction false} StuckStaysOn(s: State, steps: seq<Step>)
    requires s.reader.Reading? && !Readable(s) && Exec(s, steps).Some? && forall step <- steps :: !ByPeer(step)
    ensures Exec(s, steps).value.reader.Reading? && !Readable(Exec(s, steps).value)
  {
    hide Apply, Enabled, ByPeer, Readable;
    if steps != [] {
      var front := steps[..|steps| - 1];
      StuckStaysOn(s, front);
      StuckStays(Exec(s, front).value, steps[|steps| - 1]);
    }
  }

  /** The read that takes what is there. */
  function ReadNow(s: State): Step
    requires s.taken <= |s.feed.accepted|
  {
    if s.taken < |s.feed.accepted| then Recv(1, false) else Recv(0, true)
  }

  lemma ReadNowTells(s: State)
    requires s.reader.Reading? && s.taken <= |s.feed.accepted| && Readable(s) && !s.rxOpen
    ensures Enabled(s, ReadNow(s)) && Telling(ReadNow(s)) && !ByPeer(ReadNow(s))
    ensures !Apply(s, ReadNow(s)).reader.Reading? && !Apply(s, ReadNow(s)).rxOpen
  {
  }

  /** After a hang-up the owner can end with nothing more from the peer exactly when it is
      not at its read, or its read has something to return already. The connection does not
      close with the consumer otherwise. */
  lemma EndsWithoutPeerIff(s: State)
    requires Reachable(s) && !s.rxOpen
    ensures (exists steps: seq<Step> :: (forall step <- steps :: !ByPeer(step))
               && Exec(s, steps).Some? && Exec(s, steps).value.reader.Gone?)
            <==> !s.reader.Reading? || Readable(s)
  {
    InvariantHolds(s);
    assert s.taken <= |s.feed.accepted|;
    hide Inv, Reachable;
    if s.reader.Reading? && !Readable(s) {
      forall steps: seq<Step> | (forall step <- steps :: !ByPeer(step)) && Exec(s, steps).Some?
        ensures !Exec(s, steps).value.reader.Gone?
      {
        StuckStaysOn(s, steps);
      }
    } else {
      assert Exec(s, []) == Some(s);
      var first: seq<Step> := [];
      if s.reader.Reading? {
        ReadNowTells(s);
        GoesOn(s, [], ReadNow(s));
        first := [] + [ReadNow(s)];
      }
      var rest := WayOut(s, first);
      var steps := first + rest;
      assert forall step <- steps :: !ByPeer(step);
    }
  }

  function Tellings(steps: seq<Step>): nat {
    if steps == [] then 0 else Tellings(steps[..|steps| - 1]) + One(Telling(steps[|steps| - 1]))
  }

  function One(b: bool): nat {
    if b then 1 else 0
  }

  lemma HungStep(s: State, step: Step)
    requires !s.rxOpen && Enabled(s, step)
    ensures !Apply(s, step).rxOpen
    ensures One(Telling(step)) + One(Apply(s, step).reader.Reading?) <= One(s.reader.Reading?)
  {
  }

  /** In every run after a hang-up at most one read brings anything, and none if the owner
      was not at its read. */
  lemma {:induction false} OneReadAtMost(s: State, steps: seq<Step>)
    requires !s.rxOpen && Exec(s, steps).Some?
    ensures !Exec(s, steps).value.rxOpen
    ensures Tellings(steps) + One(Exec(s, steps).value.reader.Reading?) <= One(s.reader.Reading?)
  {
    hide Apply, Enabled, Telling;
    if steps != [] {
      var front := steps[..|steps| - 1];
      OneReadAtMost(s, front);
      HungStep(Exec(s, front).value, steps[|steps| - 1]);
    }
  }

  /** A pipeline whose consumer hangs up at once, before anything was sent to it. */
  lemma HungUpAtRead(body: Bytes) returns (s: State)
    ensures Reachable(s) && s.body == body && !s.rxOpen && s.reader.Reading? && !Readable(s)
    ensures forall steps: seq<Step> | (forall step <- steps :: !ByPeer(step)) && Exec(s, steps).Some? ::
              !Exec(s, steps).value.reader.Gone?
  {
    s := Apply(Init(body), Hangup);
    assert Exec(Init(body), []) == Some(Init(body));
    GoesOn(Init(body), [], Hangup);
    assert Exec(Init(s.body), [] + [Hangup]) == Some(s);
    EndsWithoutPeerIff(s);
  }
}
