/** The server's back-pressured feeder: a table of active streams edited in place, each
    fed the unsent tail of the body until the native side takes no more. */
module Feeder {
  import opened Wire
  import opened Stream

  datatype StreamId = StreamId(conn: nat, stream: nat)

  datatype Active = Active(id: StreamId, sent: nat)

  /** A stream's native state after a list of calls on it, none when one was not allowed. */
  function FeedExec(body: Bytes, calls: seq<FeedCall>): Option<Feed> {
    if calls == [] then Some(Feed([], false))
    else
      var before := FeedExec(body, calls[..|calls| - 1]);
      var call := calls[|calls| - 1];
      if before.Some? && FeedEnabled(body, before.value, call) then Some(FeedApply(body, before.value,
          call)) else None
  }

  function Accepted(calls: seq<FeedCall>): nat {
    if calls == [] then 0
    else Accepted(calls[..|calls| - 1]) + (if calls[|calls| - 1].Send? then calls[|calls| - 1].n else 0)
  }

  /** Lawful calls send the body in order, end once, only after its last byte, and never
      call again. */
  lemma {:induction false} CallsAreLawful(body: Bytes, calls: seq<FeedCall>)
    requires FeedExec(body, calls).Some?
    ensures var feed := FeedExec(body, calls).value;
      && |feed.accepted| == Accepted(calls) <= |body|
      && feed.accepted == body[..Accepted(calls)]
      && (feed.ended <==> calls != [] && calls[|calls| - 1].Finish?)
      && (feed.ended ==> feed.accepted == body)
    ensures forall i | 0 <= i < |calls| && calls[i].Finish? :: i == |calls| - 1
  {
    if calls != [] {
      CallsAreLawful(body, calls[..|calls| - 1]);
      assert forall i | 0 <= i < |calls| - 1 :: calls[i] == calls[..|calls| - 1][i];
    }
  }

  /** From one list of calls to the next, only sends that took something. */
  ghost predicate Fed(was: seq<FeedCall>, now: seq<FeedCall>) {
    was <= now && forall i | |was| <= i < |now| :: now[i].Send? && now[i].n > 0
  }

  /** Such sends, and then one that took nothing. */
  ghost predicate Refused(was: seq<FeedCall>, now: seq<FeedCall>) {
    now != [] && now[|now| - 1] == Send(0) && Fed(was, now[..|now| - 1])
  }

  /** Such sends, and then the end. */
  ghost predicate Ended(was: seq<FeedCall>, now: seq<FeedCall>) {
    now != [] && now[|now| - 1] == Finish && Fed(was, now[..|now| - 1])
  }

  lemma FedNext(was: seq<FeedCall>, now: seq<FeedCall>, call: FeedCall)
    requires Fed(was, now)
    ensures call.Send? && call.n > 0 ==> Fed(was, now + [call])
    ensures call == Send(0) ==> Refused(was, now + [call])
    ensures call == Finish ==> Ended(was, now + [call])
  {
    assert (now + [call])[..|now|] == now;
  }

  /** The sends that took nothing. */
  function Refusals(calls: seq<FeedCall>): nat {
    if calls == [] then 0
    else Refusals(calls[..|calls| - 1]) + if calls[|calls| - 1] == Send(0) then 1 else 0
  }

  lemma {:induction false} FedIsTaken(was: seq<FeedCall>, now: seq<FeedCall>)
    requires Fed(was, now)
    ensures Refusals(now) == Refusals(was)
    decreases |now|
  {
    if was != now {
      FedIsTaken(was, now[..|now| - 1]);
    }
  }

  lemma RefusedOnce(was: seq<FeedCall>, now: seq<FeedCall>)
    requires Refused(was, now)
    ensures Refusals(now) == Refusals(was) + 1
  {
    FedIsTaken(was, now[..|now| - 1]);
  }

  function Feeds(calls: seq<FeedCall>): seq<Step> {
    seq(|calls|, i requires 0 <= i < |calls| => Feeding(calls[i]))
  }

  /** The feeder's calls on a stream are a run of that stream's pipeline. */
  lemma {:induction false} FeederDrivesPipeline(body: Bytes, calls: seq<FeedCall>)
    requires FeedExec(body, calls).Some?
    ensures Exec(Init(body), Feeds(calls)) == Some(Init(body).(feed := FeedExec(body, calls).value))
  {
    if calls != [] {
      var front := calls[..|calls| - 1];
      assert Feeds(calls)[..|calls| - 1] == Feeds(front);
      FeederDrivesPipeline(body, front);
    }
  }

  /** A row's stream is open and has taken exactly the first `sent` bytes. */
  ghost predicate RowFits(a: Active, body: Bytes, native: map<StreamId, Feed>) {
    a.id in native && a.sent <= |body| && native[a.id] == Feed(body[..a.sent], false)
  }

  ghost predicate Done(id: StreamId, body: Bytes, native: map<StreamId, Feed>)
    requires id in native
  {
    native[id] == Feed(body, true)
  }

  ghost predicate InTable(active: seq<Active>, id: StreamId) {
    exists i :: 0 <= i < |active| && active[i].id == id
  }

  ghost predicate Distinct(active: seq<Active>) {
    forall i, j | 0 <= i < j < |active| :: active[i].id != active[j].id
  }

  ghost predicate RowsFit(active: seq<Active>, lo: nat, body: Bytes, native: map<StreamId, Feed>) {
    forall i | lo <= i < |active| :: RowFits(active[i], body, native)
  }

  /** Every stream is in the table or carries the whole body. */
  ghost predicate Accounted(active: seq<Active>, body: Bytes, native: map<StreamId, Feed>) {
    forall id <- native :: Done(id, body, native) || InTable(active, id)
  }

  /** No other stream was called. */
  ghost predicate OnlyCalled(id: StreamId, calls: map<StreamId, seq<FeedCall>>,
                             calls': map<StreamId, seq<FeedCall>>) {
    calls'.Keys == calls.Keys && forall other <- calls | other != id :: calls'[other] == calls[other]
  }

  /** Every row was refused since. */
  ghost predicate AllRefused(active: seq<Active>, was: map<StreamId, seq<FeedCall>>,
                             now: map<StreamId, seq<FeedCall>>) {
    forall i | 0 <= i < |active| ::
      active[i].id in was && active[i].id in now && Refused(was[active[i].id], now[active[i].id])
  }

  /** The rows from k on were not called yet. */
  ghost predicate Uncalled(table: seq<Active>, k: nat, was: map<StreamId, seq<FeedCall>>,
                           now: map<StreamId, seq<FeedCall>>) {
    forall i | k <= i < |table| ::
      table[i].id in was && table[i].id in now && now[table[i].id] == was[table[i].id]
  }

  ghost predicate Untouched(id: StreamId, native: map<StreamId, Feed>, native': map<StreamId, Feed>) {
    native'.Keys == native.Keys && forall other <- native | other != id :: native'[other] == native[other]
  }

  /** `from[i]` is where the i-th kept row stood: the first k rows in order, minus those
      that finished. */
  ghost predicate Retained(table: seq<Active>, k: nat, kept: seq<Active>, from: seq<nat>, body: Bytes,
      native: map<StreamId, Feed>)
    requires k <= |table|
  {
    && |from| == |kept|
    && (forall i | 0 <= i < |from| :: from[i] < k && kept[i].id == table[from[i]].id)
    && (forall i, j | 0 <= i < j < |from| :: from[i] < from[j])
    && (forall m: nat | m < k && m !in from :: table[m].id in native && Done(table[m].id, body, native))
  }

  lemma RetainedStep(table: seq<Active>, k: nat, kept: seq<Active>, from: seq<nat>, body: Bytes,
                     native: map<StreamId, Feed>, native': map<StreamId, Feed>, row': Active, keep: bool)
    requires k < |table| && Distinct(table) && row'.id == table[k].id && Untouched(row'.id, native, native')
    requires Retained(table, k, kept, from, body, native) && RowsFit(kept, 0, body, native) && RowsFit(table, k,
        body, native)
    requires if keep then RowFits(row', body, native') else row'.id in native' && Done(row'.id, body, native')
    ensures RowsFit(table, k + 1, body, native')
    ensures keep ==> Retained(table, k + 1, kept + [row'], from + [k], body, native') && RowsFit(kept + [row'], 0,
        body, native')
    ensures !keep ==> Retained(table, k + 1, kept, from, body, native') && RowsFit(kept, 0, body, native')
  {
    assert forall i | 0 <= i < |kept| :: kept[i].id != row'.id;
    assert forall m | 0 <= m < |table| && m != k :: table[m].id != row'.id;
    assert forall m: nat | m in from + [k] :: m in from || m == k;
  }

  lemma RefusedStep(table: seq<Active>, k: nat, kept: seq<Active>, from: seq<nat>, row': Active, keep: bool,
                    body: Bytes, native: map<StreamId, Feed>, start: map<StreamId, seq<FeedCall>>,
                    was: map<StreamId, seq<FeedCall>>,
                    now: map<StreamId, seq<FeedCall>>)
    requires k < |table| && Distinct(table) && row'.id == table[k].id && OnlyCalled(row'.id, was, now)
    requires Retained(table, k, kept, from, body, native)
    requires AllRefused(kept, start, was) && Uncalled(table, k, start, was)
    requires row'.id in was && (keep ==> Refused(was[row'.id], now[row'.id]))
    ensures AllRefused(if keep then kept + [row'] else kept, start, now) && Uncalled(table, k + 1, start, now)
  {
    hide Refused;
  }

  /** A stream accounted for that is not done is in the table, where every row was refused. */
  lemma DoneOrRefused(active: seq<Active>, body: Bytes, native: map<StreamId, Feed>,
                      was: map<StreamId, seq<FeedCall>>, now: map<StreamId, seq<FeedCall>>)
    requires Accounted(active, body, native) && AllRefused(active, was, now)
    ensures forall id <- native | !Done(id, body, native) :: id in was && id in now && Refused(was[id], now[id])
  {
    hide Refused, Done;
  }

  /** A pass that failed at row k: the rows before are done or were refused, the row's own
      stream was fed until then, and the rows after were not called. */
  ghost predicate CutAt(table: seq<Active>, k: nat, body: Bytes, native: map<StreamId, Feed>,
                        was: map<StreamId, seq<FeedCall>>, now: map<StreamId, seq<FeedCall>>) {
    && k < |table| && table[k].id in was && table[k].id in now && Fed(was[table[k].id], now[table[k].id])
    && (forall i | 0 <= i < k && table[i].id in native && !Done(table[i].id, body, native) ::
          table[i].id in was && table[i].id in now && Refused(was[table[i].id], now[table[i].id]))
    && Uncalled(table, k + 1, was, now)
  }

  lemma CutThere(table: seq<Active>, k: nat, kept: seq<Active>, from: seq<nat>, row': Active, body: Bytes,
                 native: map<StreamId, Feed>, native': map<StreamId, Feed>,
                 start: map<StreamId, seq<FeedCall>>, was: map<StreamId, seq<FeedCall>>,
                 now: map<StreamId, seq<FeedCall>>)
    requires k < |table| && Distinct(table) && row'.id == table[k].id && OnlyCalled(row'.id, was, now)
    requires Untouched(row'.id, native, native') && Retained(table, k, kept, from, body, native)
    requires AllRefused(kept, start, was) && Uncalled(table, k, start, was)
    requires row'.id in was && row'.id in now && Fed(was[row'.id], now[row'.id])
    ensures CutAt(table, k, body, native', start, now)
  {
    hide Refused, Fed;
    assert forall i | 0 <= i < |table| && i != k :: table[i].id != row'.id;
    forall i | 0 <= i < k && table[i].id in native' && !Done(table[i].id, body, native')
      ensures table[i].id in start && table[i].id in now && Refused(start[table[i].id], now[table[i].id])
    {
      assert i in from;
      var j :| 0 <= j < |from| && from[j] == i;
      assert kept[j].id == table[i].id;
    }
  }

  /** Of the streams there were at the start, one not done was refused n more times. */
  ghost predicate RefusedTimes(n: nat, body: Bytes, native: map<StreamId, Feed>,
                               start: map<StreamId, seq<FeedCall>>, now: map<StreamId, seq<FeedCall>>) {
    forall id <- start | id in native && !Done(id, body, native) ::
      id in now && Refusals(now[id]) == Refusals(start[id]) + n
  }

  lemma NoneRefused(body: Bytes, native: map<StreamId, Feed>, calls: map<StreamId, seq<FeedCall>>)
    ensures RefusedTimes(0, body, native, calls, calls)
  {
  }

  /** Accepting more streams leaves those there were as they are. */
  lemma AcceptRefuses(n: nat, body: Bytes, native: map<StreamId, Feed>, native': map<StreamId, Feed>,
                      start: map<StreamId, seq<FeedCall>>, calls: map<StreamId, seq<FeedCall>>,
                      calls': map<StreamId, seq<FeedCall>>)
    requires RefusedTimes(n, body, native, start, calls) && start.Keys <= native.Keys <= native'.Keys
    requires calls.Keys <= calls'.Keys && forall id <- calls :: calls'[id] == calls[id]
    requires forall id <- native :: native'[id] == native[id]
    ensures RefusedTimes(n, body, native', start, calls')
  {
    hide Refusals;
    forall id <- start | !Done(id, body, native') ensures !Done(id, body, native) {}
  }

  lemma AllDone(body: Bytes, native: map<StreamId, Feed>)
    requires Accounted([], body, native)
    ensures forall id <- native :: Done(id, body, native)
  {
    hide Done;
  }

  lemma PassRefuses(n: nat, body: Bytes, was: map<StreamId, Feed>, native: map<StreamId, Feed>,
                    start: map<StreamId, seq<FeedCall>>, called: map<StreamId, seq<FeedCall>>,
                    now: map<StreamId, seq<FeedCall>>)
    requires RefusedTimes(n, body, was, start, called) && native.Keys == was.Keys
    requires forall id <- was | Done(id, body, was) :: Done(id, body, native)
    requires forall id <- native | !Done(id, body, native) ::
               id in called && id in now && Refused(called[id], now[id])
    ensures RefusedTimes(n + 1, body, native, start, now)
  {
    hide Refused, Done, Refusals;
    forall id <- start | id in native && !Done(id, body, native)
      ensures id in now && Refusals(now[id]) == Refusals(start[id]) + n + 1
    {
      RefusedOnce(called[id], now[id]);
    }
  }

  /** A row's stream is not done, so streams done already are not in the table. */
  lemma DoneStays(active: seq<Active>, body: Bytes, was: map<StreamId, Feed>, native: map<StreamId, Feed>)
    requires RowsFit(active, 0, body, was) && native.Keys == was.Keys
    requires forall id <- native | !InTable(active, id) :: native[id] == was[id]
    ensures forall id <- was | Done(id, body, was) :: Done(id, body, native)
  {
    forall i | 0 <= i < |active| ensures !Done(active[i].id, body, was) {
      assert RowFits(active[i], body, was);
    }
  }

  lemma RetainedEnds(table: seq<Active>, kept: seq<Active>, from: seq<nat>, body: Bytes,
                     was: map<StreamId, Feed>, native: map<StreamId, Feed>)
    requires Distinct(table) && Accounted(table, body, was) && native.Keys == was.Keys
    requires forall id <- was | !InTable(table, id) :: native[id] == was[id]
    requires Retained(table, |table|, kept, from, body, native)
    ensures Distinct(kept) && Accounted(kept, body, native)
  {
    forall id <- native
      ensures Done(id, body, native) || InTable(kept, id)
    {
      if InTable(table, id) {
        var m: nat :| m < |table| && table[m].id == id;
        if m in from {
          var i :| 0 <= i < |from| && from[i] == m;
          assert kept[i].id == id;
        }
      }
    }
  }

  lemma AcceptKeeps(active: seq<Active>, id: StreamId, body: Bytes, native: map<StreamId, Feed>)
    requires RowsFit(active, 0, body, native) && Distinct(active) && Accounted(active, body, native)
    requires id !in native
    ensures var active', native' := active + [Active(id, 0)], native[id := Feed([], false)];
            RowsFit(active', 0, body, native') && Distinct(active') && Accounted(active', body, native')
  {
    var active' := active + [Active(id, 0)];
    assert body[..0] == [];
    assert active'[|active|].id == id;
    forall other | InTable(active, other) ensures InTable(active', other) {
      var i :| 0 <= i < |active| && active[i].id == other;
      assert active'[i].id == other;
    }
  }

  ghost function Called(calls: map<StreamId, seq<FeedCall>>, id: StreamId, call: FeedCall)
      : map<StreamId, seq<FeedCall>>
    requires id in calls
  {
    calls[id := calls[id] + [call]]
  }

  /** A look at the stop flag, and whether any stream was left then. */
  datatype Look = Look(stop: bool, idle: bool)

  class Server {
    const body: Bytes
    /** The native streams, and every call made on each. */
    var native: map<StreamId, Feed>
    ghost var calls: map<StreamId, seq<FeedCall>>
    /** The streams on which a native call failed, in order. */
    ghost var failures: seq<StreamId>
    /** Passes begun over the table. */
    ghost var passes: nat
    /** Looks at the stop flag. */
    ghost var looks: seq<Look>
    /** Streams in progress with their send counters. */
    var active: seq<Active>

    /** Native state is what the calls made it. */
    ghost predicate Logged()
      reads `native, `calls
    {
      calls.Keys == native.Keys && forall id <- native :: FeedExec(body, calls[id]) == Some(native[id])
    }

    ghost predicate Valid()
      reads this
    {
      Logged() && RowsFit(active, 0, body, native) && Distinct(active) && Accounted(active, body, native)
    }

    constructor (body: Bytes)
      ensures Valid() && this.body == body && native == map[] && active == [] && failures == [] && passes == 0
      ensures looks == []
    {
      this.body, native, calls, active, failures, passes, looks := body, map[], map[], [], [], 0, [];
    }

    /** `stream_send`: accepts any prefix of the tail, perhaps none, or fails and accepts
        nothing. */
    method StreamSend(id: StreamId, tail: Bytes) returns (r: Result<nat>)
      requires Logged() && id in native && !native[id].ended
      requires |native[id].accepted| < |body| && tail == body[|native[id].accepted|..]
      modifies `native, `calls, `failures
      ensures Logged()
      ensures failures == if r.Err? then old(failures) + [id] else old(failures)
      ensures calls == if r.Ok? then Called(old(calls), id, Send(r.value)) else old(calls)
      ensures match r
        case Ok(n) => n <= |tail| && native == old(native)[id := FeedApply(body, old(native)[id], Send(n))]
        case Err(_) => native == old(native)
    {
      var failed: bool, e: Error := *, *;
      if failed {
        failures := failures + [id];
        return Err(e);
      }
      var n: nat := *;
      if n > |tail| {
        n := |tail|;
      }
      Record(id, Send(n));
      r := Ok(n);
    }

    /** `stream_end`: no further send is permitted. Failing, it ended nothing. */
    method StreamEnd(id: StreamId) returns (failure: Option<Error>)
      requires Logged() && id in native && !native[id].ended && |native[id].accepted| == |body|
      modifies `native, `calls, `failures
      ensures Logged()
      ensures failures == if failure.Some? then old(failures) + [id] else old(failures)
      ensures calls == if failure.None? then Called(old(calls), id, Finish) else old(calls)
      ensures native == if failure.None? then old(native)[id := Feed(old(native)[id].accepted, true)] else old(native)
    {
      var failed: bool, e: Error := *, *;
      if failed {
        failures := failures + [id];
        return Some(e);
      }
      Record(id, Finish);
      failure := None;
    }

    method Record(id: StreamId, call: FeedCall)
      requires Logged() && id in native && FeedEnabled(body, native[id], call)
      modifies `native, `calls
      ensures Logged() && native == old(native)[id := FeedApply(body, old(native)[id], call)]
      ensures calls == Called(old(calls), id, call)
    {
      ghost var all := calls[id] + [call];
      assert all[..|all| - 1] == calls[id];
      native := native[id := FeedApply(body, native[id], call)];
      calls := calls[id := all];
    }

    /** One send of the closure, from the row's counter on. */
    method SendTail(id: StreamId, sent: nat) returns (r: Result<nat>)
      requires Logged() && RowFits(Active(id, sent), body, native) && sent < |body|
      modifies `native, `calls, `failures
      ensures Logged() && Untouched(id, old(native), native)
      ensures failures == if r.Err? then old(failures) + [id] else old(failures)
      ensures id in old(calls)
      ensures calls == if r.Ok? then Called(old(calls), id, Send(r.value)) else old(calls)
      ensures match r
        case Ok(n) => RowFits(Active(id, sent + n), body, native)
        case Err(_) => native == old(native)
    {
      hide FeedExec;
      r := StreamSend(id, body[sent..]);
      if r.Ok? {
        assert body[..sent] + body[sent..sent + r.value] == body[..sent + r.value];
      }
    }

    /** The end the closure asks for once all is sent. */
    method EndIt(id: StreamId) returns (failure: Option<Error>)
      requires Logged() && RowFits(Active(id, |body|), body, native)
      modifies `native, `calls, `failures
      ensures Logged() && Untouched(id, old(native), native)
      ensures failures == if failure.Some? then old(failures) + [id] else old(failures)
      ensures id in old(calls) && calls == if failure.None? then Called(old(calls), id, Finish) else old(calls)
      ensures if failure.Some? then native == old(native) else id in native && Done(id, body, native)
    {
      hide FeedExec;
      assert body[..|body|] == body;
      failure := StreamEnd(id);
    }

    /** The `retain_mut` closure: sends until refused or done; false drops the row. A kept
        row's last call is a send that took nothing, a dropped row's the end, and every other
        call made is a send that took something. A native failure is unwrapped, which ends
        the thread with the stream as far as it got. */
    method FeedOne(a: Active) returns (a': Active, keep: bool, died: bool)
      requires Logged() && RowFits(a, body, native)
      modifies `native, `calls, `failures
      ensures Logged() && a'.id == a.id && Untouched(a.id, old(native), native)
      ensures failures == if died then old(failures) + [a.id] else old(failures)
      ensures a.id in old(calls) && calls.Keys == old(calls).Keys && OnlyCalled(a.id, old(calls), calls)
      ensures
        if died then Fed(old(calls)[a.id], calls[a.id])
        else if keep then Refused(old(calls)[a.id], calls[a.id])
        else Ended(old(calls)[a.id], calls[a.id])
      ensures died ==> RowFits(a', body, native) && a.sent <= a'.sent
      ensures !died ==>
        if keep then RowFits(a', body, native) && a.sent <= a'.sent < |body| else Done(a.id, body, native)
    {
      hide FeedExec, FeedApply, FeedEnabled, Logged, Fed, Refused, Ended;
      ghost var was := StartsFed(a);
      var sent := a.sent;
      while sent < |body|
        invariant Logged() && Untouched(a.id, old(native), native)
        invariant a.sent <= sent <= |body| && RowFits(Active(a.id, sent), body, native)
        invariant failures == old(failures)
        invariant a.id in calls && OnlyCalled(a.id, old(calls), calls) && Fed(was, calls[a.id])
        decreases |body| - sent
      {
        ghost var now := calls[a.id];
        var r := SendTail(a.id, sent);
        if r.Err? {
          return Active(a.id, sent), true, true;
        }
        var n := r.value;
        FedNext(was, now, Send(n));
        sent := sent + n;
        if n == 0 {
          return Active(a.id, sent), true, false;
        }
      }
      FedNext(was, calls[a.id], Finish);
      var failure := EndIt(a.id);
      return Active(a.id, sent), false, failure.Some?;
    }

    lemma StartsFed(a: Active) returns (was: seq<FeedCall>)
      requires Logged() && a.id in native
      ensures a.id in calls && was == calls[a.id] && Fed(was, was)
    {
      hide FeedExec;
      was := calls[a.id];
    }

    /** A new request's stream joins the table with nothing sent. Each request comes on
        a stream of its own. */
    method Accept(id: StreamId)
      requires Valid() && id !in native
      modifies this
      ensures Valid() && active == old(active) + [Active(id, 0)]
      ensures native == old(native)[id := Feed([], false)] && calls == old(calls)[id := []]
      ensures failures == old(failures) && passes == old(passes) && looks == old(looks)
    {
      AcceptKeeps(active, id, body, native);
      hide RowsFit, Distinct, Accounted;
      native := native[id := Feed([], false)];
      calls := calls[id := []];
      active := active + [Active(id, 0)];
    }

    /** One `retain_mut` pass: rows keep their order; a row leaves only when its stream
        carries the whole body and has been ended; other streams are not touched. A native
        failure cuts the pass, and the calls made until then were lawful. Otherwise each
        stream of the table was fed until it was done or refused. */
    method Pass() returns (ghost from: seq<nat>, died: bool)
      requires Valid()
      modifies this
      ensures Logged() && native.Keys == old(native).Keys
      ensures passes == old(passes) + 1 && looks == old(looks)
      ensures
        if died
        then exists k: nat ::
          && CutAt(old(active), k, body, native, old(calls), calls)
          && failures == old(failures) + [old(active)[k].id]
        else failures == old(failures)
      ensures !died ==> Valid() && Retained(old(active), |old(active)|, active, from, body, native)
      ensures forall id <- native | !InTable(old(active), id) :: native[id] == old(native)[id]
      ensures forall id <- native | Done(id, body, old(native)) :: Done(id, body, native)
      ensures calls.Keys == old(calls).Keys && (!died ==> AllRefused(active, old(calls), calls))
      ensures !died ==> forall id <- native | !Done(id, body, native) ::
        id in old(calls) && id in calls && Refused(old(calls)[id], calls[id])
    {
      hide CutAt, OnlyCalled, AllRefused, Uncalled, Fed, Refused, Ended;
      hide FeedExec, Retained, RowsFit, RowFits, Done, Distinct, Accounted, Logged;
      PassStarts();
      passes := passes + 1;
      var table := active;
      var kept: seq<Active> := [];
      from, died := [], false;
      for k := 0 to |table|
        invariant failures == old(failures) && passes == old(passes) + 1 && looks == old(looks)
        invariant Logged() && native.Keys == old(native).Keys
        invariant RowsFit(kept, 0, body, native) && RowsFit(table, k, body, native)
        invariant Retained(table, k, kept, from, body, native)
        invariant forall id <- native | !InTable(table, id) :: native[id] == old(native)[id]
        invariant calls.Keys == old(calls).Keys
        invariant AllRefused(kept, old(calls), calls) && Uncalled(table, k, old(calls), calls)
      {
        ghost var was, called := native, calls;
        RowAt(table, k);
        var row', keep, dead := FeedOne(table[k]);
        if dead {
          CutThere(table, k, kept, from, row', body, was, native, old(calls), called, calls);
          DeadPass(table, k, row', was);
          DoneStays(table, body, old(native), native);
          return from, true;
        }
        RetainedStep(table, k, kept, from, body, was, native, row', keep);
        RefusedStep(table, k, kept, from, row', keep, body, was, old(calls), called, calls);
        assert InTable(table, row'.id);
        if keep {
          kept, from := kept + [row'], from + [k];
        }
      }
      RetainedEnds(table, kept, from, body, old(native), native);
      active := kept;
      DoneOrRefused(kept, body, native, old(calls), calls);
      DoneStays(table, body, old(native), native);
    }

    lemma PassStarts()
      requires Valid()
      ensures Retained(active, 0, [], [], body, native) && RowsFit([], 0, body, native)
      ensures RowsFit(active, 0, body, native) && Distinct(active) && Accounted(active, body, native) && Logged()
      ensures AllRefused([], calls, calls) && Uncalled(active, 0, calls, calls)
    {
      hide FeedExec, Accounted;
    }

    lemma RowAt(table: seq<Active>, k: nat)
      requires k < |table| && RowsFit(table, k, body, native)
      ensures RowFits(table[k], body, native) && table[k].id in native
    {
      hide FeedExec;
    }

    /** After a failure: streams outside the table are as they were. */
    lemma DeadPass(table: seq<Active>, k: nat, row': Active, was: map<StreamId, Feed>)
      requires k < |table| && row'.id == table[k].id && Untouched(row'.id, was, native)
      ensures forall id <- native | !InTable(table, id) :: id in was && native[id] == was[id]
    {
      assert InTable(table, row'.id);
    }

    /** `pending` is drained into the table: any number of new streams. */
    method AcceptAll()
      requires Valid()
      modifies this
      ensures old(active) <= active && old(native).Keys <= native.Keys && old(calls).Keys <= calls.Keys
      ensures forall id <- old(native) :: native[id] == old(native)[id]
      ensures forall id <- old(calls) :: calls[id] == old(calls)[id]
      ensures Valid() && failures == old(failures) && passes == old(passes) && looks == old(looks)
    {
      var n: nat := *;
      while n > 0
        invariant old(active) <= active && old(native).Keys <= native.Keys && old(calls).Keys <= calls.Keys
        invariant forall id <- old(native) :: native[id] == old(native)[id]
        invariant forall id <- old(calls) :: calls[id] == old(calls)[id]
        invariant Valid() && failures == old(failures) && passes == old(passes) && looks == old(looks)
      {
        var id: StreamId := *;
        if id !in native {
          Accept(id);
        }
        n := n - 1;
      }
    }

    lemma SameStreams()
      requires Logged()
      ensures calls.Keys == native.Keys
    {
      hide FeedExec;
    }

    /** The stop flag, set by another thread. */
    method ReadStop() returns (stop: bool)
      requires Valid()
      modifies `looks
      ensures Valid() && looks == old(looks) + [Look(stop, active == [])]
    {
      stop := *;
      looks := looks + [Look(stop, active == [])];
    }

    /** The thread's loop over any number of ticks, stopping once told to with no
        stream left, as soon as it sees that: then every stream it ever accepted carries the
        whole body. A stream unfinished at the end was refused in every tick. It ends early
        otherwise only with a native failure, which ends the thread; what it had sent by
        then was lawful. */
    method Run(ticks: nat) returns (stopped: bool, died: bool)
      requires Valid()
      modifies this
      ensures Logged() && (!died ==> Valid())
      ensures |failures| == |old(failures)| + if died then 1 else 0
      ensures !stopped && !died ==> passes == old(passes) + ticks
      ensures stopped ==> !died && looks != [] && looks[|looks| - 1] == Look(true, true)
      ensures !stopped && !died ==> |looks| == |old(looks)| + ticks && Look(true, true) !in looks[|old(looks)|..]
      ensures !stopped && !died ==> RefusedTimes(ticks, body, native, old(calls), calls)
      ensures stopped ==> active == [] && forall id <- native :: Done(id, body, native)
    {
      hide FeedExec, RowsFit, Accounted, Distinct, Logged, Done, Refusals, RefusedTimes, Refused, InTable;
      NoneRefused(body, native, calls);
      SameStreams();
      for t := 0 to ticks
        invariant Valid() && failures == old(failures) && passes == old(passes) + t
        invariant |looks| == |old(looks)| + t && Look(true, true) !in looks[|old(looks)|..]
        invariant old(native).Keys <= native.Keys && RefusedTimes(t, body, native, old(calls), calls)
      {
        ghost var native0, calls0 := native, calls;
        AcceptAll();
        AcceptRefuses(t, body, native0, native, old(calls), calls0, calls);
        ghost var from, was, called := [], native, calls;
        from, died := Pass();
        if died {
          return false, true;
        }
        PassRefuses(t, body, was, native, old(calls), called, calls);
        var stop := ReadStop();
        if stop && active == [] {
          AllDone(body, native);
          return true, false;
        }
      }
      stopped, died := false, false;
    }
  }
}
