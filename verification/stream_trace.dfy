/** The pipeline against its own history: what was accepted, read, verified and delivered is
    what the steps of the run did and what the native side answered in them. */
module StreamTrace {
  import opened Wire
  import opened Stream
  import opened StreamSafety
  import Feeder

  ghost predicate RunOf(body: Bytes, steps: seq<Step>, s: State) {
    Exec(Init(body), steps) == Some(s)
  }

  lemma RunFront(body: Bytes, steps: seq<Step>, s: State) returns (before: State)
    requires RunOf(body, steps, s) && steps != []
    ensures RunOf(body, steps[..|steps| - 1], before) && Enabled(before, steps[|steps| - 1])
    ensures s == Apply(before, steps[|steps| - 1])
  {
    hide Apply, Enabled;
    before := Exec(Init(body), steps[..|steps| - 1]).value;
  }

  lemma RunStart(body: Bytes, s: State)
    requires RunOf(body, [], s)
    ensures s == Init(body)
  {
  }

  lemma RunInv(body: Bytes, steps: seq<Step>, s: State)
    requires RunOf(body, steps, s)
    ensures Inv(s) && Reachable(s) && s.body == body
  {
    InitInv(body);
    RunKeeps(Init(body), steps);
    hide Inv, Exec;
  }

  lemma InitInv(body: Bytes)
    ensures Inv(Init(body))
  {
  }

  // What was read

  /** The bytes the reads of a run took. */
  function ReadBytes(steps: seq<Step>): nat {
    if steps == [] then 0
    else
      var last := steps[|steps| - 1];
      ReadBytes(steps[..|steps| - 1]) + if last.Recv? then last.n else 0
  }

  /** Some read reported the end, or some error. */
  predicate SawEnd(steps: seq<Step>) {
    exists i | 0 <= i < |steps| :: IsEnd(steps[i])
  }

  predicate IsEnd(step: Step) {
    step.Recv? && step.ended
  }

  lemma SawEndNext(front: seq<Step>, last: Step)
    ensures SawEnd(front + [last]) <==> SawEnd(front) || IsEnd(last)
  {
    hide IsEnd;
    var all := front + [last];
    if SawEnd(front) {
      var i :| 0 <= i < |front| && IsEnd(front[i]);
      assert IsEnd(all[i]);
    }
    if IsEnd(last) {
      assert IsEnd(all[|front|]);
    }
  }

  /** The reader has seen the end and has it still to report, or has gone past it. */
  predicate PastEnd(reader: Reader) {
    (reader.Delivering? && reader.ended) || reader.Verifying? || reader.Concluding? || reader.Gone?
  }

  /** The native check of the trailer, as the run's steps answered it. */
  predicate Passed(steps: seq<Step>) {
    Verify(None) in steps
  }

  /** The error a read or the check answered. */
  predicate Erred(steps: seq<Step>, e: Error) {
    RecvErr(e) in steps || Verify(Some(e)) in steps
  }

  /** One step's worth of all that. */
  ghost predicate Follows(s: State, step: Step, t: State) {
    && t.taken == s.taken + (if step.Recv? then step.n else 0)
    && (t.verified <==> s.verified || step == Verify(None))
    && (PastEnd(s.reader) ==> PastEnd(t.reader)) && (IsEnd(step) ==> PastEnd(t.reader))
    && (t.reader.Verifying? || (t.reader.Delivering? && t.reader.ended) ==>
          IsEnd(step) || s.reader.Verifying? || (s.reader.Delivering? && s.reader.ended))
    && (step.Verify? ==> s.reader.Verifying?)
    && (t.reader.Concluding? ==> s.reader == t.reader || Concludes(step, t.reader.item))
    && (t.rxOpen <==> s.rxOpen && step != Hangup)
    && (Terminal(step) ==> !Ended(s.reader)) && (Ended(s.reader) || Terminal(step) ==> Ended(t.reader))
  }

  /** The item a step concludes the stream with. */
  predicate Concludes(step: Step, item: Item) {
    match step
    case RecvErr(e) => item == Fail(e)
    case Verify(None) => item == End
    case Verify(Some(e)) => item == Fail(e)
    case _ => false
  }

  /** A step after which nothing more is read or checked. */
  predicate Terminal(step: Step) {
    step.RecvErr? || step.Verify?
  }

  predicate Ended(reader: Reader) {
    reader.Concluding? || reader.Gone?
  }

  lemma StepFollows(s: State, step: Step)
    requires Inv(s) && Enabled(s, step)
    ensures Follows(s, step, Apply(s, step))
  {
    VerifiesOnce(s, step);
    hide FeedApply, Flat, Inv;
  }

  lemma VerifiesOnce(s: State, step: Step)
    requires Inv(s) && Enabled(s, step)
    ensures step.Verify? ==> !s.verified
  {
    hide FeedInv, BytesInv, ShapeInv, ChanInv;
  }

  /** Over every run: the bytes taken are those the reads brought; the stream is verified
      exactly when the native check passed; a run that saw the end does not read on, and one
      that checked had seen it; the receiver is gone exactly when the consumer hung up. */
  lemma {:induction false} ReadsAreSteps(body: Bytes, steps: seq<Step>, s: State)
    requires RunOf(body, steps, s)
    ensures s.taken == ReadBytes(steps) && (s.verified <==> Passed(steps))
    ensures SawEnd(steps) ==> PastEnd(s.reader)
    ensures s.reader.Verifying? || (s.reader.Delivering? && s.reader.ended) ==> SawEnd(steps)
    ensures s.verified ==> SawEnd(steps)
    ensures s.rxOpen <==> Hangup !in steps
  {
    hide Exec, Apply, Enabled, Inv, PastEnd, IsEnd, SawEnd, Terminal, Ended, Concludes;
    if steps == [] {
      RunStart(body, s);
      NothingSeen();
    } else {
      var front, last := steps[..|steps| - 1], steps[|steps| - 1];
      var before := RunFront(body, steps, s);
      ReadsAreSteps(body, front, before);
      RunInv(body, front, before);
      StepFollows(before, last);
      assert steps == front + [last];
      SawEndNext(front, last);
    }
  }

  lemma NothingSeen()
    ensures !SawEnd([])
  {
  }

  // The verdict

  /** The terminal item of a run, before and after it is sent. */
  ghost predicate VerdictTold(steps: seq<Step>, s: State) {
    && (s.reader.Concluding? ==> ItemTold(steps, s.reader.item))
    && (forall item <- s.pushed :: item.Chunk? || ItemTold(steps, item))
  }

  predicate ItemTold(steps: seq<Step>, item: Item) {
    match item
    case Chunk(_) => false
    case End => Passed(steps)
    case Fail(e) => Erred(steps, e)
  }

  lemma ItemKept(front: seq<Step>, last: Step, item: Item)
    requires ItemTold(front, item)
    ensures ItemTold(front + [last], item)
  {
  }

  lemma ItemNow(front: seq<Step>, last: Step, item: Item)
    requires Concludes(last, item)
    ensures ItemTold(front + [last], item)
  {
  }

  lemma PushedStep(s: State, step: Step)
    requires Enabled(s, step)
    ensures var t := Apply(s, step);
      || t.pushed == s.pushed
      || (s.reader.Delivering? && t.pushed == s.pushed + [Chunk(s.reader.chunk)])
      || (s.reader.Concluding? && t.pushed == s.pushed + [s.reader.item])
  {
    hide FeedApply;
  }

  /** Over every run an item other than a chunk, in hand or sent, is what a native call
      answered: the end only after a check that passed, an error only one that was given. */
  lemma {:induction false} VerdictIsTold(body: Bytes, steps: seq<Step>, s: State)
    requires RunOf(body, steps, s)
    ensures VerdictTold(steps, s)
  {
    hide Exec, Apply, Enabled, Inv, ItemTold, Concludes, PastEnd, IsEnd, Terminal, Ended;
    if steps == [] {
      RunStart(body, s);
    } else {
      var front, last := steps[..|steps| - 1], steps[|steps| - 1];
      var before := RunFront(body, steps, s);
      VerdictIsTold(body, front, before);
      RunInv(body, front, before);
      StepFollows(before, last);
      PushedStep(before, last);
      assert steps == front + [last];
      ToldNext(front, before, last, s);
    }
  }

  lemma ToldNext(front: seq<Step>, before: State, last: Step, t: State)
    requires VerdictTold(front, before)
    requires t.reader.Concluding? ==> before.reader == t.reader || Concludes(last, t.reader.item)
    requires
      || t.pushed == before.pushed
      || (before.reader.Delivering? && t.pushed == before.pushed + [Chunk(before.reader.chunk)])
      || (before.reader.Concluding? && t.pushed == before.pushed + [before.reader.item])
    ensures VerdictTold(front + [last], t)
  {
    hide ItemTold, Concludes;
    if t.reader.Concluding? {
      if before.reader == t.reader {
        ItemKept(front, last, t.reader.item);
      } else {
        ItemNow(front, last, t.reader.item);
      }
    }
    forall item <- t.pushed ensures item.Chunk? || ItemTold(front + [last], item) {
      if !item.Chunk? {
        ItemKept(front, last, item);
      }
    }
  }

  /** Over every run at most one native read fails or check is made, and nothing is read
      after it: its answer is the only verdict there is. */
  lemma {:induction false} OneTerminal(body: Bytes, steps: seq<Step>, s: State)
    requires RunOf(body, steps, s)
    ensures (exists step <- steps :: Terminal(step)) ==> Ended(s.reader)
    ensures forall a <- steps, b <- steps | Terminal(a) && Terminal(b) :: a == b
  {
    hide Exec, Apply, Enabled, Inv, Concludes, PastEnd, IsEnd, Terminal, Ended;
    if steps != [] {
      var front, last := steps[..|steps| - 1], steps[|steps| - 1];
      var before := RunFront(body, steps, s);
      OneTerminal(body, front, before);
      RunInv(body, front, before);
      StepFollows(before, last);
      assert steps == front + [last];
    }
  }

  /** A run whose check failed with e, or whose read did: an end is never sent, and once the
      thread has finished with the consumer still there the last item sent is that error. */
  lemma FailureIsDelivered(body: Bytes, steps: seq<Step>, s: State, e: Error)
    requires RunOf(body, steps, s) && Erred(steps, e)
    ensures End !in s.pushed && !s.verified
    ensures s.rxOpen && s.reader.Gone? ==> s.pushed != [] && s.pushed[|s.pushed| - 1] == Fail(e)
  {
    OneTerminal(body, steps, s);
    VerdictIsTold(body, steps, s);
    ReadsAreSteps(body, steps, s);
    NotBoth(steps, e);
    RunInv(body, steps, s);
    GoneHasVerdict(s);
    hide Inv, Exec, Passed, Erred, Terminal, SawEnd, PastEnd, Reachable, RunOf;
    assert End in s.pushed ==> ItemTold(steps, End);
    if s.rxOpen && s.reader.Gone? {
      var last := s.pushed[|s.pushed| - 1];
      assert last in s.pushed && ItemTold(steps, last);
      if last.Fail? {
        SameError(steps, e, last.error);
      }
    }
  }

  lemma GoneHasVerdict(s: State)
    requires Inv(s)
    ensures s.rxOpen && s.reader.Gone? ==> s.pushed != [] && !s.pushed[|s.pushed| - 1].Chunk?
  {
    hide FeedInv, BytesInv, VerdictInv, ChanInv;
  }

  /** Finished with the consumer still there, the thread's last item is a native answer. */
  lemma LastIsTold(body: Bytes, steps: seq<Step>, s: State)
    requires RunOf(body, steps, s) && s.reader.Gone?
    ensures s.rxOpen ==>
              && s.pushed != [] && !s.pushed[|s.pushed| - 1].Chunk?
              && ItemTold(steps, s.pushed[|s.pushed| - 1])
  {
    RunInv(body, steps, s);
    GoneHasVerdict(s);
    VerdictIsTold(body, steps, s);
    hide Inv, Exec, ItemTold;
    assert s.rxOpen ==> s.pushed[|s.pushed| - 1] in s.pushed;
  }

  /** An error the consumer reads is one a read or the check answered. */
  lemma ErrorsRead(body: Bytes, steps: seq<Step>, s: State, k: nat)
    requires RunOf(body, steps, s) && k < |s.results| && s.results[k].Fail?
    ensures Erred(steps, s.results[k].error)
  {
    RunInv(body, steps, s);
    VerdictIsTold(body, steps, s);
    ResultsPushed(s, k);
    hide Inv, Exec;
    assert ItemTold(steps, s.results[k]);
  }

  lemma NotBoth(steps: seq<Step>, e: Error)
    requires Erred(steps, e) && forall a <- steps, b <- steps | Terminal(a) && Terminal(b) :: a == b
    ensures !Passed(steps)
  {
    if Passed(steps) {
      assert Terminal(Verify(None));
      if RecvErr(e) in steps {
        assert Terminal(RecvErr(e));
      } else {
        assert Terminal(Verify(Some(e)));
      }
    }
  }

  lemma SameError(steps: seq<Step>, e: Error, e': Error)
    requires Erred(steps, e) && Erred(steps, e')
    requires forall a <- steps, b <- steps | Terminal(a) && Terminal(b) :: a == b
    ensures e == e'
  {
    var a := if RecvErr(e) in steps then RecvErr(e) else Verify(Some(e));
    var b := if RecvErr(e') in steps then RecvErr(e') else Verify(Some(e'));
    assert a in steps && b in steps && Terminal(a) && Terminal(b);
  }

  /** The first result that is not a chunk is Ok(None) only if the native check passed in
      this run, after a read had reported the end, and the whole body had been delivered. */
  lemma HonestVerdict(body: Bytes, steps: seq<Step>, s: State, k: nat)
    requires RunOf(body, steps, s) && k < |s.results| && s.results[k] == End
    requires forall i | 0 <= i < k :: s.results[i].Chunk?
    ensures Verify(None) in steps && SawEnd(steps) && Flat(s.results[..k]) == body
  {
    RunInv(body, steps, s);
    ReadsAreSteps(body, steps, s);
    StreamSafety.HonestVerdict(s, k);
    hide Inv, Exec, SawEnd, PastEnd, Reachable, Flat;
  }

  /** Any Ok(None) is one of a passed check on a whole body exactly when no error was read
      before it. */
  lemma EndMeansVerified(body: Bytes, steps: seq<Step>, s: State, k: nat)
    requires RunOf(body, steps, s) && k < |s.results| && s.results[k] == End
    ensures (Verify(None) in steps && SawEnd(steps) && Flat(s.results[..k]) == body)
            <==> (forall i | 0 <= i < k :: !s.results[i].Fail?)
  {
    RunInv(body, steps, s);
    ReadsAreSteps(body, steps, s);
    StreamSafety.EndMeansVerified(s, k);
    VerifiedWhole(s);
    hide Inv, Exec, SawEnd, PastEnd, Reachable, Flat;
  }

  lemma VerifiedWhole(s: State)
    requires Reachable(s)
    ensures forall k | 0 <= k < |s.results| && s.results[k] == End ::
              (s.verified && WholeBody(s) && Flat(s.results[..k]) == s.body)
              <==> (forall i | 0 <= i < k :: !s.results[i].Fail?)
  {
    forall k | 0 <= k < |s.results| && s.results[k] == End
      ensures (s.verified && WholeBody(s) && Flat(s.results[..k]) == s.body)
              <==> (forall i | 0 <= i < k :: !s.results[i].Fail?)
    {
      StreamSafety.EndMeansVerified(s, k);
    }
  }

  /** A consumer that drained a finished stream has the whole body if the native check passed
      in the run, and otherwise has read the error it or a read answered. */
  lemma DrainedMeansWhole(body: Bytes, steps: seq<Step>, s: State)
    requires RunOf(body, steps, s) && s.rxOpen && s.reader.Gone? && s.chan == []
    ensures if Verify(None) in steps then Flat(s.results) == body
            else exists e :: Fail(e) in s.results && Erred(steps, e)
  {
    RunInv(body, steps, s);
    ReadsAreSteps(body, steps, s);
    VerdictIsTold(body, steps, s);
    StreamSafety.DrainedMeansWhole(s);
    if Verify(None) !in steps {
      var i :| 0 <= i < |s.results| && s.results[i].Fail?;
      ResultsPushed(s, i);
      assert ItemTold(steps, s.results[i]);
      assert Fail(s.results[i].error) in s.results;
    }
  }

  lemma ResultsPushed(s: State, i: nat)
    requires Inv(s) && i < |s.results| && s.results[i].Fail?
    ensures s.results[i] in s.pushed
  {
    hide FeedInv, BytesInv, ShapeInv, VerdictInv;
    if i < s.popped {
      assert s.results[i] == s.results[..s.popped][i] == s.pushed[..s.popped][i] == s.pushed[i];
    }
  }

  // What was fed

  /** The feeder's calls of a run. */
  function FeedCalls(steps: seq<Step>): seq<FeedCall> {
    if steps == [] then []
    else
      var last := steps[|steps| - 1];
      FeedCalls(steps[..|steps| - 1]) + if last.Feeding? then [last.call] else []
  }

  lemma FeedNext(body: Bytes, calls: seq<FeedCall>, feed: Feed, call: FeedCall)
    requires Feeder.FeedExec(body, calls) == Some(feed) && FeedEnabled(body, feed, call)
    ensures Feeder.FeedExec(body, calls + [call]) == Some(FeedApply(body, feed, call))
  {
    assert (calls + [call])[..|calls|] == calls;
  }

  lemma OthersLeaveFeed(s: State, step: Step)
    requires Enabled(s, step)
    ensures Apply(s, step).body == s.body
    ensures if step.Feeding? then FeedEnabled(s.body, s.feed, step.call)
                                  && Apply(s, step).feed == FeedApply(s.body, s.feed, step.call)
            else Apply(s, step).feed == s.feed
  {
    hide FeedApply;
  }

  /** Over every run the native stream is what the feeder's calls made it. */
  lemma {:induction false} FeedIsCalls(body: Bytes, steps: seq<Step>, s: State)
    requires RunOf(body, steps, s)
    ensures s.body == body && Feeder.FeedExec(body, FeedCalls(steps)) == Some(s.feed)
  {
    hide Exec, Apply, Enabled, FeedApply, FeedEnabled;
    if steps == [] {
      RunStart(body, s);
    } else {
      var front, last := steps[..|steps| - 1], steps[|steps| - 1];
      var before := RunFront(body, steps, s);
      FeedIsCalls(body, front, before);
      OthersLeaveFeed(before, last);
      if last.Feeding? {
        FeedNext(body, FeedCalls(front), before.feed, last.call);
      } else {
        assert FeedCalls(front) + [] == FeedCalls(front);
      }
    }
  }
}
