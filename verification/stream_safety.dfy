/** End-to-end properties of the streaming pipeline. */
module StreamSafety {
  import opened Wire
  import opened Stream

  lemma FlatAppend(items: seq<Item>, item: Item)
    ensures Flat(items + [item]) == Flat(items) + (if item.Chunk? then item.bytes else [])
  {
    assert (items + [item])[..|items|] == items;
  }

  lemma FeedKeeps(s: State, step: Step)
    requires FeedInv(s) && Enabled(s, step)
    ensures FeedInv(Apply(s, step))
    ensures s.feed.accepted <= Apply(s, step).feed.accepted
    ensures s.feed.ended ==> Apply(s, step).feed == s.feed
  {
    hide Flat;
  }

  lemma PushBytes(s: State, item: Item)
    ensures Flat(s.pushed + [item]) == Flat(s.pushed) + (if item.Chunk? then item.bytes else [])
  {
    FlatAppend(s.pushed, item);
  }

  lemma RecvBytes(s: State, n: nat, ended: bool)
    requires BytesInv(s) && Enabled(s, Recv(n, ended))
    ensures BytesInv(Apply(s, Recv(n, ended)))
  {
    hide Flat;
    var got, more := s.feed.accepted[..s.taken], s.feed.accepted[s.taken..s.taken + n];
    assert s.feed.accepted[..s.taken + n] == got + more;
    assert Flat(s.pushed) == got;
  }

  lemma DeliverBytes(s: State)
    requires BytesInv(s) && Enabled(s, Deliver)
    ensures BytesInv(Apply(s, Deliver))
  {
    PushBytes(s, Chunk(s.reader.chunk));
    hide Flat;
  }

  lemma ConcludeBytes(s: State)
    requires BytesInv(s) && Enabled(s, Conclude) && !s.reader.item.Chunk?
    ensures BytesInv(Apply(s, Conclude))
  {
    PushBytes(s, s.reader.item);
    hide Flat;
  }

  lemma FeedBytes(s: State, call: FeedCall)
    requires BytesInv(s) && FeedInv(s) && Enabled(s, Feeding(call))
    ensures BytesInv(Apply(s, Feeding(call)))
  {
    FeedKeeps(s, Feeding(call));
    hide Flat, FeedApply, Carried, FeedInv;
    assert Apply(s, Feeding(call)).feed.accepted[..s.taken] == s.feed.accepted[..s.taken];
  }

  lemma OtherBytes(s: State, step: Step)
    requires BytesInv(s) && Enabled(s, step)
    requires !step.Recv? && !step.Deliver? && !step.Conclude? && !step.Feeding?
    ensures BytesInv(Apply(s, step))
  {
    hide Flat;
  }

  lemma BytesKeeps(s: State, step: Step)
    requires BytesInv(s) && FeedInv(s) && ShapeInv(s.pushed, s.reader, s.rxOpen) && Enabled(s, step)
    ensures BytesInv(Apply(s, step))
  {
    assert step.Conclude? ==> !s.reader.item.Chunk?;
    hide Apply, BytesInv, FeedInv, ShapeInv;
    match step {
      case Recv(n, ended) => RecvBytes(s, n, ended);
      case Deliver => DeliverBytes(s);
      case Conclude => ConcludeBytes(s);
      case Feeding(call) => FeedBytes(s, call);
      case _ => OtherBytes(s, step);
    }
  }

  lemma ShapeKeeps(s: State, step: Step)
    requires ShapeInv(s.pushed, s.reader, s.rxOpen) && Enabled(s, step)
    ensures var t := Apply(s, step); ShapeInv(t.pushed, t.reader, t.rxOpen)
  {
    hide FeedApply, Flat;
  }

  lemma ConcludeVerdict(s: State)
    requires Inv(s) && Enabled(s, Conclude)
    ensures VerdictInv(Apply(s, Conclude))
  {
    PushBytes(s, s.reader.item);
    assert s.feed.accepted[..|s.feed.accepted|] == s.feed.accepted;
    hide FeedApply, Flat, ChanInv;
  }

  lemma DeliverVerdict(s: State)
    requires Inv(s) && Enabled(s, Deliver)
    ensures VerdictInv(Apply(s, Deliver))
  {
    hide FeedApply, Flat, ChanInv, BytesInv, FeedInv;
  }

  lemma OtherVerdict(s: State, step: Step)
    requires Inv(s) && Enabled(s, step) && !step.Conclude? && !step.Deliver?
    ensures VerdictInv(Apply(s, step))
  {
    FeedKeeps(s, step);
    hide FeedApply, Flat, ChanInv, BytesInv, ShapeInv;
  }

  lemma VerdictKeeps(s: State, step: Step)
    requires Inv(s) && Enabled(s, step)
    ensures VerdictInv(Apply(s, step))
  {
    hide Inv, Apply, VerdictInv;
    if step.Conclude? {
      ConcludeVerdict(s);
    } else if step.Deliver? {
      DeliverVerdict(s);
    } else {
      OtherVerdict(s, step);
    }
  }

  lemma ChanKeeps(s: State, step: Step)
    requires ChanInv(s) && ShapeInv(s.pushed, s.reader, s.rxOpen) && Enabled(s, step)
    ensures ChanInv(Apply(s, step))
  {
    hide FeedApply, Flat;
  }

  lemma StepKeeps(s: State, step: Step)
    requires Inv(s) && Enabled(s, step)
    ensures Inv(Apply(s, step))
  {
    hide Apply, Enabled, FeedInv, BytesInv, ShapeInv, VerdictInv, ChanInv;
    FeedKeeps(s, step);
    BytesKeeps(s, step);
    ShapeKeeps(s, step);
    VerdictKeeps(s, step);
    ChanKeeps(s, step);
  }

  lemma {:induction false} RunKeeps(s: State, steps: seq<Step>)
    requires Inv(s)
    ensures Exec(s, steps).Some? ==> Inv(Exec(s, steps).value) && Exec(s, steps).value.body == s.body
  {
    hide Inv;
    if steps != [] && Exec(s, steps).Some? {
      var front := steps[..|steps| - 1];
      RunKeeps(s, front);
      StepKeeps(Exec(s, front).value, steps[|steps| - 1]);
    }
  }

  lemma InvariantHolds(s: State)
    requires Reachable(s)
    ensures Inv(s)
  {
    var steps :| Exec(Init(s.body), steps) == Some(s);
    assert Inv(Init(s.body));
    RunKeeps(Init(s.body), steps);
  }

  // Sequences of chunks

  lemma FlatEmpty()
    ensures Flat([]) == []
  {
  }

  lemma {:induction false} FlatConcat(a: seq<Item>, b: seq<Item>)
    ensures Flat(a + b) == Flat(a) + Flat(b)
  {
    hide Flat;
    if b == [] {
      FlatEmpty();
      assert a + b == a;
    } else {
      var front, last := b[..|b| - 1], b[|b| - 1];
      FlatConcat(a, front);
      assert b == front + [last];
      assert a + b == (a + front) + [last];
      FlatAppend(a + front, last);
      FlatAppend(front, last);
    }
  }

  lemma {:induction false} FlatOfNoChunks(items: seq<Item>)
    requires forall i | 0 <= i < |items| :: !items[i].Chunk?
    ensures Flat(items) == []
  {
    if items != [] {
      FlatOfNoChunks(items[..|items| - 1]);
    }
  }

  lemma {:induction false} FlatBound(items: seq<Item>)
    requires forall i | 0 <= i < |items| && items[i].Chunk? :: GoodChunk(items[i].bytes)
    ensures |Flat(items)| <= |items| * CHUNK
  {
    if items != [] {
      FlatBound(items[..|items| - 1]);
    }
  }

  /** The consumer has what was popped: nothing more, nothing else. */
  lemma ConsumerHas(s: State)
    requires Inv(s)
    ensures Flat(s.results) == Flat(s.pushed[..s.popped])
    ensures Flat(s.pushed) == Flat(s.results) + Flat(s.pushed[s.popped..])
  {
    var seen, rest := s.results[..s.popped], s.results[s.popped..];
    assert s.results == seen + rest;
    assert s.pushed == s.pushed[..s.popped] + s.pushed[s.popped..];
    hide FeedInv, BytesInv, ShapeInv, VerdictInv;
    FlatConcat(seen, rest);
    FlatOfNoChunks(rest);
    FlatConcat(s.pushed[..s.popped], s.pushed[s.popped..]);
  }

  // Main results

  /** At every moment, under any acceptance pattern, chunking and schedule, the
      consumer's bytes are a prefix of the body. */
  lemma ConsumerHasPrefix(s: State)
    requires Reachable(s)
    ensures Flat(s.results) <= s.body
  {
    InvariantHolds(s);
    ConsumerHas(s);
    hide ShapeInv, VerdictInv, ChanInv, Flat;
    assert Flat(s.pushed) <= s.feed.accepted[..s.taken] <= s.feed.accepted <= s.body;
  }

  /** The first result that is not a chunk is Ok(None) only when the native stream
      reported its end, verification succeeded and the whole body was delivered. */
  lemma HonestVerdict(s: State, k: nat)
    requires Reachable(s) && k < |s.results| && s.results[k] == End
    requires forall i | 0 <= i < k :: s.results[i].Chunk?
    ensures s.verified && WholeBody(s) && Flat(s.results[..k]) == s.body
  {
    EndMeansVerified(s, k);
  }

  /** The terminal item behind an Ok(None) at k: the last pushed, read at j <= k. */
  lemma TerminalBehind(s: State, k: nat) returns (j: nat)
    requires Inv(s) && k < |s.results| && s.results[k] == End
    ensures j <= k && j == |s.pushed| - 1 && j < s.popped && !s.pushed[j].Chunk?
    ensures s.results[..j] == s.pushed[..j] && s.results[j] == s.pushed[j]
    ensures forall i | 0 <= i < j :: s.results[i].Chunk?
    ensures forall i | j < i < |s.results| :: s.results[i] == End
  {
    hide FeedInv, BytesInv, VerdictInv;
    j := if k < s.popped then k else s.popped - 1;
    assert forall i | 0 <= i < s.popped :: s.results[i] == s.results[..s.popped][i];
    assert forall i | 0 <= i < s.popped :: s.pushed[i] == s.pushed[..s.popped][i];
    assert !s.pushed[j].Chunk?;
  }

  /** When the terminal item behind it is an end, what was read before it is the body. */
  lemma EndIsWhole(s: State, k: nat, j: nat)
    requires Inv(s) && j <= k <= |s.results| && j == |s.pushed| - 1 && s.pushed[j] == End
    requires s.results[..j] == s.pushed[..j] && forall i | j <= i < k :: !s.results[i].Chunk?
    ensures s.verified && WholeBody(s) && Flat(s.results[..k]) == s.body
  {
    EndInPushed(s, j);
    assert s.pushed == s.pushed[..j] + [End];
    FlatAppend(s.pushed[..j], End);
    var seen, rest := s.results[..j], s.results[j..k];
    assert s.results[..k] == seen + rest;
    hide Inv, Flat, WholeBody;
    FlatConcat(seen, rest);
    FlatOfNoChunks(rest);
  }

  lemma EndInPushed(s: State, j: nat)
    requires Inv(s) && j < |s.pushed| && s.pushed[j] == End
    ensures s.verified && WholeBody(s) && Flat(s.pushed) == s.body
  {
    hide FeedInv, BytesInv, ShapeInv, ChanInv, Flat, WholeBody;
  }

  lemma FailNotVerified(s: State, j: nat)
    requires Inv(s) && j < |s.pushed| && s.pushed[j].Fail?
    ensures !s.verified
  {
    hide FeedInv, BytesInv, ShapeInv, ChanInv, Flat, WholeBody;
  }

  /** Ok(None) is a verified end exactly when no error was read before it: after an
      error the closed channel reads as Ok(None) too. */
  lemma EndMeansVerified(s: State, k: nat)
    requires Reachable(s) && k < |s.results| && s.results[k] == End
    ensures (s.verified && WholeBody(s) && Flat(s.results[..k]) == s.body)
            <==> (forall i | 0 <= i < k :: !s.results[i].Fail?)
  {
    InvariantHolds(s);
    var j := TerminalBehind(s, k);
    hide Inv, Reachable, WholeBody, Flat;
    if s.pushed[j] == End {
      EndIsWhole(s, k, j);
    } else {
      FailNotVerified(s, j);
      assert s.results[j].Fail? && j < k;
    }
  }

  /** The case that breaks the unrestricted promise: a transport error, then Ok(None)
      with nothing verified and no byte received. */
  lemma EndAfterError(body: Bytes, e: Error) returns (s: State)
    ensures Reachable(s) && s.body == body
    ensures s.results == [Fail(e), End] && !s.verified
  {
    var s1 := Apply(Init(body), RecvErr(e));
    var s2 := Apply(s1, Conclude);
    var s3 := Apply(s2, Take);
    s := Apply(s3, TakeClosed);
    var run := [RecvErr(e), Conclude, Take, TakeClosed];
    assert run[..3][..2] == run[..2] && run[..2][..1] == run[..1] && run[..1][..0] == [];
    assert Exec(Init(body), run[..1]) == Some(s1);
    assert Exec(Init(body), run[..2]) == Some(s2);
    assert Exec(Init(body), run[..3]) == Some(s3);
    assert Exec(Init(body), run) == Some(s);
  }

  /** The items pushed are non-empty chunks of at most 65536 bytes, then at most one
      terminal item, after which the thread pushes nothing. */
  lemma ItemsWellShaped(s: State)
    requires Reachable(s)
    ensures forall i | 0 <= i < |s.pushed| && s.pushed[i].Chunk? :: 0 < |s.pushed[i].bytes| <= 65536
    ensures forall i | 0 <= i < |s.pushed| && !s.pushed[i].Chunk? :: i == |s.pushed| - 1 && s.reader.Gone?
  {
    InvariantHolds(s);
    hide FeedInv, BytesInv, VerdictInv, ChanInv;
  }

  /** While the consumer listens, the reader is at most eight queued chunks and the one
      in hand ahead of it. */
  lemma ReadAhead(s: State)
    requires Reachable(s) && s.rxOpen
    ensures |s.chan| <= 8
    ensures s.taken <= |Flat(s.results)| + 9 * 65536
  {
    InvariantHolds(s);
    ConsumerHas(s);
    FlatBound(s.chan);
    assert s.chan == s.pushed[s.popped..];
    assert |InHand(s.reader)| <= CHUNK;
  }

  /** A consumer that drains a finished stream ends with the whole body or an error. */
  lemma DrainedMeansWhole(s: State)
    requires Reachable(s) && s.rxOpen && s.reader.Gone? && s.chan == []
    ensures s.verified ==> Flat(s.results) == s.body
    ensures !s.verified ==> exists i :: 0 <= i < |s.results| && s.results[i].Fail?
  {
    InvariantHolds(s);
    ConsumerHas(s);
    var n := |s.pushed| - 1;
    assert s.popped == |s.pushed|;
    assert s.results[n] == s.pushed[n];
    assert s.pushed[s.popped..] == [];
    if s.pushed[n] == End {
      assert End in s.pushed;
    }
  }
}
