/** The streaming pipeline as a step system: a back-pressured feeder, the native stream,
    the owner thread that reads and verifies it, a bounded channel, and the consumer. */
module Stream {
  import opened Wire

  const CHUNK: nat := 65536
  const CAPACITY: nat := 8

  /** A channel item, and what `recv` returns for it: a chunk, the end, an error. */
  datatype Item = Chunk(bytes: Bytes) | End | Fail(error: Error)

  /** A streamed response as the server side has it. */
  datatype Feed = Feed(accepted: Bytes, ended: bool)

  /** A native call of the feeder: n bytes of the unsent tail accepted, or the end. */
  datatype FeedCall = Send(n: nat) | Finish

  predicate FeedEnabled(body: Bytes, feed: Feed, call: FeedCall) {
    && !feed.ended && |feed.accepted| <= |body|
    && match call
       case Send(n) => |feed.accepted| < |body| && n <= |body| - |feed.accepted|
       case Finish => |feed.accepted| == |body|
  }

  function FeedApply(body: Bytes, feed: Feed, call: FeedCall): Feed
    requires FeedEnabled(body, feed, call)
  {
    match call
    case Send(n) => feed.(accepted := feed.accepted + body[|feed.accepted|..|feed.accepted| + n])
    case Finish => feed.(ended := true)
  }

  /** The owner thread's program counter. */
  datatype Reader = Reading | Delivering(chunk: Bytes, ended: bool) | Verifying | Concluding(item: Item) | Gone

  datatype State = State(
    body: Bytes,
    feed: Feed,
    taken: nat,
    reader: Reader,
    chan: seq<Item>,
    rxOpen: bool,
    // histories
    verified: bool,
    pushed: seq<Item>,
    popped: nat,
    results: seq<Item>)

  datatype Step =
    | Feeding(call: FeedCall)
    // the owner thread
    | Recv(n: nat, ended: bool)
    | RecvErr(error: Error)
    | Deliver
    | Verify(failure: Option<Error>)
    | Conclude
    // the consumer
    | Take
    | TakeClosed
    | Hangup

  function Init(body: Bytes): State {
    State(body, Feed([], false), 0, Reading, [], true, false, [], 0, [])
  }

  predicate Enabled(s: State, step: Step) {
    match step
    case Feeding(call) => FeedEnabled(s.body, s.feed, call)
    case Recv(n, ended) =>
      && s.reader.Reading? && n <= CHUNK && s.taken + n <= |s.feed.accepted|
      && (ended ==> s.feed.ended && s.taken + n == |s.feed.accepted|)
    case RecvErr(_) => s.reader.Reading?
    case Deliver => s.reader.Delivering? && (s.rxOpen ==> |s.chan| < CAPACITY)
    case Verify(_) => s.reader.Verifying?
    case Conclude => s.reader.Concluding? && (s.rxOpen ==> |s.chan| < CAPACITY)
    case Take => s.rxOpen && s.chan != []
    case TakeClosed => s.rxOpen && s.chan == [] && s.reader.Gone?
    case Hangup => s.rxOpen
  }

  /** `blocking_send`, once there is room or the receiver is gone. */
  function Push(s: State, item: Item, next: Reader): State {
    if s.rxOpen then s.(chan := s.chan + [item], pushed := s.pushed + [item], reader := next)
    else s.(reader := Gone)
  }

  function Apply(s: State, step: Step): State
    requires Enabled(s, step)
  {
    match step
    case Feeding(call) => s.(feed := FeedApply(s.body, s.feed, call))
    case Recv(n, ended) =>
      var next :=
        if n > 0 then Delivering(s.feed.accepted[s.taken..s.taken + n], ended)
        else if ended then Verifying
        else Reading;
      s.(taken := s.taken + n, reader := next)
    case RecvErr(e) => s.(reader := Concluding(Fail(e)))
    case Deliver => Push(s, Chunk(s.reader.chunk), if s.reader.ended then Verifying else Reading)
    case Verify(failure) =>
      s.(verified := failure.None?, reader := Concluding(if failure.None? then End else Fail(failure.value)))
    case Conclude => Push(s, s.reader.item, Gone)
    case Take => s.(chan := s.chan[1..], popped := s.popped + 1, results := s.results + [s.chan[0]])
    // a channel closed with nothing left reads as Ok(None)
    case TakeClosed => s.(results := s.results + [End])
    case Hangup => s.(rxOpen := false, chan := [])
  }

  function Exec(s: State, steps: seq<Step>): Option<State> {
    if steps == [] then Some(s)
    else
      var before := Exec(s, steps[..|steps| - 1]);
      var step := steps[|steps| - 1];
      if before.Some? && Enabled(before.value, step) then Some(Apply(before.value, step)) else None
  }

  ghost predicate Reachable(s: State) {
    exists steps :: Exec(Init(s.body), steps) == Some(s)
  }

  /** The bytes of the chunks, in order. */
  function Flat(items: seq<Item>): Bytes {
    if items == [] then []
    else Flat(items[..|items| - 1]) + (if items[|items| - 1].Chunk? then items[|items| - 1].bytes else [])
  }

  function InHand(reader: Reader): Bytes {
    if reader.Delivering? then reader.chunk else []
  }

  // The invariant

  predicate GoodChunk(b: Bytes) {
    0 < |b| <= CHUNK
  }

  ghost predicate FeedInv(s: State) {
    s.feed.accepted <= s.body && (s.feed.ended ==> s.feed.accepted == s.body)
  }

  /** What was pushed and what is in hand, against what was taken. */
  predicate Carried(pushed: Bytes, hand: Bytes, taken: Bytes, whole: bool) {
    pushed <= taken && (whole ==> pushed + hand == taken)
  }

  /** The owner pushed, or holds, exactly the bytes it took, in order. */
  ghost predicate BytesInv(s: State) {
    && s.taken <= |s.feed.accepted|
    && Carried(Flat(s.pushed), InHand(s.reader), s.feed.accepted[..s.taken], s.rxOpen || !s.reader.Gone?)
  }

  /** Non-empty chunks, then at most one terminal item, pushed as the thread ends. */
  ghost predicate ShapeInv(pushed: seq<Item>, reader: Reader, rxOpen: bool) {
    && (forall i | 0 <= i < |pushed| && pushed[i].Chunk? :: GoodChunk(pushed[i].bytes))
    && (forall i | 0 <= i < |pushed| && !pushed[i].Chunk? :: i == |pushed| - 1 && reader.Gone?)
    && (reader.Gone? && rxOpen ==> pushed != [] && !pushed[|pushed| - 1].Chunk?)
    && (reader.Delivering? ==> GoodChunk(reader.chunk))
    && (reader.Concluding? ==> !reader.item.Chunk?)
  }

  ghost predicate WholeBody(s: State) {
    s.feed.ended && s.taken == |s.feed.accepted|
  }

  ghost predicate VerdictInv(s: State) {
    && ((s.reader.Delivering? && s.reader.ended) || s.reader.Verifying? ==> WholeBody(s))
    && (s.reader == Concluding(End) ==> WholeBody(s) && s.verified)
    && (End in s.pushed ==> WholeBody(s) && s.verified && Flat(s.pushed) == s.body)
    && (s.verified ==> s.reader == Concluding(End) || s.reader.Gone?)
    && (s.verified ==> forall i | 0 <= i < |s.pushed| :: !s.pushed[i].Fail?)
  }

  /** What the consumer saw is what was pushed, and Ok(None) once nothing is left. */
  ghost predicate ChanInv(s: State) {
    && s.popped <= |s.pushed| && s.popped <= |s.results|
    && (s.rxOpen ==> s.chan == s.pushed[s.popped..])
    && |s.chan| <= CAPACITY
    && s.results[..s.popped] == s.pushed[..s.popped]
    && (forall i | s.popped <= i < |s.results| :: s.results[i] == End)
    && (|s.results| > s.popped ==> s.popped == |s.pushed| && s.pushed != [] && !s.pushed[s.popped - 1].Chunk?)
  }

  ghost predicate Inv(s: State) {
    FeedInv(s) && BytesInv(s) && ShapeInv(s.pushed, s.reader, s.rxOpen) && VerdictInv(s) && ChanInv(s)
  }
}
