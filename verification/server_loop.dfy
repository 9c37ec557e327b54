/** The managed server's owner loop: it ticks, announces, services dht commands, runs
    lookups to their deadline and waits, until told to stop. Its native calls, and the
    clock readings it acts on, go through a recorded node. Other threads move between its
    operations; within a lookup, which looks at neither queue nor flag, between passes. */
module ServerLoop {
  import opened Wire
  import opened Announce
  import opened Node
  import opened Lookup
  import opened ServerLaw

  class Server {
    const hasDht: bool
    const announce: Option<Address>
    const node: NativeNode

    // shared with the handle
    var queue: seq<Command>
    var stop: bool

    // the loop's own
    var announcedAt: Secs

    /** Commands in the order the channel took them, the one being serviced, those
        answered and how many of these got a real reply. */
    ghost var arrived: seq<Command>
    ghost var inHand: Option<Command>
    ghost var answers: seq<Answer>
    ghost var served: nat

    /** Clock readings of the announce passes, and the times announced. */
    ghost var readings: seq<Secs>
    ghost var announces: seq<Secs>

    /** Since stop was set: the queue then, commands taken and waits begun since. */
    ghost var queuedAtStop: nat
    ghost var takenSince: nat
    ghost var waitsSince: nat

    ghost predicate Fifo()
      reads `queue, `arrived, `inHand, `answers
    {
      InOrder(arrived, answers, inHand, queue)
    }

    ghost predicate Stopping()
      reads `queue, `stop, `queuedAtStop, `takenSince
    {
      stop ==> takenSince + |queue| == queuedAtStop
    }

    ghost predicate Announcing()
      reads `announcedAt, `readings, `announces
    {
      && announcedAt == AnnouncedAt(readings) && announces == Announces(readings)
      && (!(hasDht && announce.Some?) ==> readings == [])
    }

    constructor (hasDht: bool, announce: Option<Address>, node: NativeNode)
      ensures Fifo() && Stopping() && Announcing() && AllEarned(answers, served, [])
      ensures arrived == [] && inHand == None && served == waitsSince == 0 && !stop && readings == []
      ensures this.hasDht == hasDht && this.announce == announce && this.node == node
    {
      this.hasDht, this.announce, this.node := hasDht, announce, node;
      queue, stop, announcedAt := [], false, 0;
      arrived, inHand, answers, served, readings, announces := [], None, [], 0, [], [];
      queuedAtStop, takenSince, waitsSince := 0, 0, 0;
    }

    // Other threads

    /** Callers enqueue while the handle lives and a dht is attached; shutdown or drop sets
        stop, after which no caller is left. */
    method Interfere()
      requires Fifo() && Stopping()
      modifies `queue, `stop, `arrived, `queuedAtStop, `takenSince
      ensures Fifo() && Stopping()
      ensures |arrived| >= |old(arrived)|
      ensures old(stop) ==> stop && queue == old(queue) && queuedAtStop == old(queuedAtStop)
      ensures !hasDht ==> queue == old(queue)
      ensures |queue| <= CAPACITY || queue == old(queue)
    {
      var n: nat := *;
      while n > 0
        invariant Fifo() && Stopping()
        invariant |arrived| >= |old(arrived)|
        invariant old(stop) ==> stop && queue == old(queue) && queuedAtStop == old(queuedAtStop)
        invariant !hasDht ==> queue == old(queue)
        invariant |queue| <= CAPACITY || queue == old(queue)
      {
        var dropped: bool, cmd: Command := *, *;
        if !stop && dropped {
          stop, queuedAtStop, takenSince := true, |queue|, 0;
        } else if !stop && hasDht && |queue| < CAPACITY {
          Enqueue(cmd);
        }
        n := n - 1;
      }
    }

    method Enqueue(cmd: Command)
      requires Fifo() && !stop
      modifies `queue, `arrived
      ensures Fifo() && queue == old(queue) + [cmd] && |arrived| == |old(arrived)| + 1
    {
      OrderJoined(arrived, answers, inHand, queue, cmd);
      hide InOrder;
      queue, arrived := queue + [cmd], arrived + [cmd];
    }

    // The loop

    /** The two ticks of a pass begun at the reading `now`; a failed one ends the lookup. */
    method TickBoth(target: NodeId, timeout: nat, ghost n: nat, now: int) returns (failure: Option<Error>)
      requires node.Valid() && |node.acts| >= n + 4
      requires node.acts[n + 2].Clock? && now < node.acts[n + 2].at + timeout
      requires node.acts[|node.acts| - 1] == Clock(now)
      requires |node.acts| == n + 4 || node.acts[|node.acts| - 2].Waited?
      requires Searching(node.acts[..|node.acts| - 1][n..], target, timeout)
      modifies node
      ensures node.Valid() && old(node.acts) <= node.acts
      ensures node.world.lookups == old(node.world.lookups) && node.world.clock == old(node.world.clock)
      ensures match failure
        case None =>
          var last := node.acts[|node.acts| - 1];
          Searching(node.acts[n..], target, timeout) && last.Ticked? && last.side.DhtSide?
        case Some(e) => LookupLaw(node.acts[n..], target, timeout, Err(e))
    {
      hide Searching, LookupLaw, NativeNode.Valid, Replay, Possible;
      ghost var acts := node.acts;
      assert acts == acts[..|acts| - 1] + [Clock(now)];
      SearchesOn(acts[..|acts| - 1], n, Clock(now), target, timeout);
      failure := node.Tick(ServerSide);
      if failure.Some? {
        SearchEnds(acts, n, node.acts[|acts|], target, timeout, Err(failure.value));
        return;
      }
      SearchesOn(acts, n, node.acts[|acts|], target, timeout);
      acts := node.acts;
      failure := node.Tick(DhtSide);
      if failure.Some? {
        SearchEnds(acts, n, node.acts[|acts|], target, timeout, Err(failure.value));
        return;
      }
      SearchesOn(acts, n, node.acts[|acts|], target, timeout);
    }

    /** One pass of a lookup begun at the reading `now`: tick the server, tick the dht, look
        and wait; an outcome ends the lookup. `n` is the lookup's first call. */
    method LookupPass(target: NodeId, timeout: nat, ghost n: nat, now: int) returns (r: Option<Result<Address>>)
      requires node.Valid() && |node.acts| >= n + 4
      requires node.acts[n + 2].Clock? && now < node.acts[n + 2].at + timeout
      requires node.acts[|node.acts| - 1] == Clock(now)
      requires |node.acts| == n + 4 || node.acts[|node.acts| - 2].Waited?
      requires Searching(node.acts[..|node.acts| - 1][n..], target, timeout)
      modifies node
      ensures node.Valid() && old(node.acts) <= node.acts
      ensures node.world.lookups == old(node.world.lookups) && node.world.clock == old(node.world.clock)
      ensures match r
        case None => Searching(node.acts[n..], target, timeout) && node.acts[|node.acts| - 1].Waited?
        case Some(out) =>
          && LookupLaw(node.acts[n..], target, timeout, out)
          && (out.Ok? ==> Stored(node.world.records, target) == Some(Record(target, out.value)))
    {
      hide Searching, LookupLaw, NativeNode.Valid, Replay, Possible;
      var failure := TickBoth(target, timeout, n, now);
      if failure.Some? {
        return Some(Err(failure.value));
      }
      ghost var acts := node.acts;
      var hit := node.LookupResult(target);
      if hit.Some? {
        SearchEnds(acts, n, Looked(target, hit), target, timeout, Ok(hit.value.address));
        return Some(Ok(hit.value.address));
      }
      SearchesOn(acts, n, Looked(target, hit), target, timeout);
      acts := node.acts;
      var timer := node.NextTimeout(DhtSide);
      SearchesOn(acts, n, Timer(DhtSide, timer), target, timeout);
      acts := node.acts;
      node.WaitReadable(Capped(timer));
      SearchesOn(acts, n, Waited(Capped(timer)), target, timeout);
      r := None;
    }

    /** What a lookup does before its first pass: it looks, starts the search and reads the
        clock; a stored record or a refused start ends it. */
    method BeginLookup(target: NodeId, timeout: nat) returns (r: Option<Result<Address>>, start: int)
      requires node.Valid()
      modifies node
      ensures node.Valid() && old(node.acts) <= node.acts && node.world.records == old(node.world.records)
      ensures target in old(node.world.records) ==>
        r == Some(Ok(old(node.world.records)[target])) && node.world == old(node.world)
      ensures match r
        case Some(out) =>
          && LookupLaw(node.acts[|old(node.acts)|..], target, timeout, out)
          && node.world.lookups == old(node.world.lookups)
          && (out.Ok? ==> target in node.world.records && node.world.records[target] == out.value)
        case None =>
          && |node.acts| == |old(node.acts)| + 3 && node.acts[|old(node.acts)| + 2] == Clock(start)
          && Searching(node.acts[|old(node.acts)|..], target, timeout)
          && node.world.lookups == old(node.world.lookups) + [target] && node.world.clock == start
    {
      hide Searching, LookupLaw, NativeNode.Valid;
      ghost var before := node.acts;
      start := 0;
      var hit := node.LookupResult(target);
      if hit.Some? {
        StoredEnds(before, target, hit.value.address, timeout);
        return Some(Ok(hit.value.address)), start;
      }
      var failure := node.StartLookup(target);
      if failure.Some? {
        StartFails(before, target, timeout, failure.value);
        return Some(Err(failure.value)), start;
      }
      start := node.Now();
      SearchBegins(before, target, timeout, start);
      r := None;
    }

    /** `resolve_on_thread`. It ends because the clock advances towards the deadline; the
        native calls it made keep the lookup law; and the dht bears them out: a stored
        record is returned at once with no lookup started, and an address is the target's
        in the store. */
    method ResolveOnThread(target: NodeId, timeout: nat) returns (r: Result<Address>)
      requires Fifo() && Stopping() && node.Valid()
      modifies `queue, `stop, `arrived, `queuedAtStop, `takenSince, node
      ensures Fifo() && Stopping() && node.Valid()
      ensures |arrived| >= |old(arrived)|
      ensures old(stop) ==> stop && queue == old(queue) && queuedAtStop == old(queuedAtStop)
      ensures !hasDht ==> queue == old(queue)
      ensures old(node.acts) <= node.acts
      ensures LookupLaw(node.acts[|old(node.acts)|..], target, timeout, r)
      ensures target in old(node.world.records) ==>
        r == Ok(old(node.world.records)[target]) && node.world == old(node.world)
      ensures node.world.lookups == old(node.world.lookups) || node.world.lookups == old(node.world.lookups) + [target]
      ensures r.Ok? ==> target in node.world.records && node.world.records[target] == r.value
    {
      hide Fifo, Stopping, Searching, LookupLaw, NativeNode.Valid, Follows, Replay, Possible;
      ghost var before, n := node.acts, |node.acts|;
      var ended, start := BeginLookup(target, timeout);
      if ended.Some? {
        return ended.value;
      }
      var deadline := start + timeout;
      ghost var begun := node.acts;
      var now := node.Now();
      assert node.acts[..|begun|] == begun;
      while now < deadline
        invariant Fifo() && Stopping() && node.Valid()
        invariant |arrived| >= |old(arrived)|
        invariant old(stop) ==> stop && queue == old(queue) && queuedAtStop == old(queuedAtStop)
        invariant !hasDht ==> queue == old(queue)
        invariant |node.acts| >= n + 4 && before <= node.acts && node.acts[n + 2] == Clock(start)
        invariant node.acts[|node.acts| - 1] == Clock(now) && node.world.clock == now
        invariant |node.acts| == n + 4 || node.acts[|node.acts| - 2].Waited?
        invariant Searching(node.acts[..|node.acts| - 1][n..], target, timeout)
        invariant node.world.lookups == old(node.world.lookups) + [target]
        decreases deadline - now
      {
        var out := LookupPass(target, timeout, n, now);
        if out.Some? {
          return out.value;
        }
        Interfere();
        ghost var acts := node.acts;
        now := node.Now();
        assert node.acts[..|acts|] == acts;
      }
      assert node.acts == node.acts[..|node.acts| - 1] + [Clock(now)];
      SearchEnds(node.acts[..|node.acts| - 1], n, Clock(now), target, timeout, Err(IdentityNotFound));
      r := Err(IdentityNotFound);
    }

    /** Records the answer to the command in hand: the calls made since call `at`. */
    ghost method Reply(reply: Reply, at: nat)
      requires Fifo() && at <= |node.acts| && AllEarned(answers, served, node.acts[..at])
      requires inHand.Some? && served == |answers|
      requires !reply.Dropped? && Earned(Answer(inHand.value, reply, at, node.acts[at..]))
      modifies `inHand, `answers, `served
      ensures Fifo() && AllEarned(answers, served, node.acts) && inHand == None && served == |answers|
      ensures answers == old(answers) + [Answer(old(inHand.value), reply, at, node.acts[at..])]
    {
      var a := Answer(inHand.value, reply, at, node.acts[at..]);
      if answers != [] {
        EarnedBehind(answers, served, node.acts[..at]);
      }
      EarnedGrows(answers, served, node.acts[..at], node.acts);
      EarnedAppend(answers, served, node.acts, a);
      OrderAnswered(arrived, answers, inHand.value, queue, a);
      hide InOrder, Earned, AllEarned, Made;
      answers := answers + [a];
      served := served + 1;
      inHand := None;
    }

    /** `try_recv`: the oldest command, if any. */
    method TryRecv() returns (cmd: Option<Command>)
      requires Fifo() && Stopping() && inHand == None
      modifies `queue, `inHand, `takenSince
      ensures Fifo() && Stopping() && inHand == cmd
      ensures cmd.None? <==> old(queue) == []
      ensures cmd.None? ==> queue == [] && takenSince == old(takenSince)
      ensures cmd.Some? ==> [cmd.value] + queue == old(queue) && |queue| < |old(queue)|
    {
      if queue == [] {
        return None;
      }
      OrderTaken(arrived, answers, queue);
      hide InOrder;
      cmd := Some(queue[0]);
      queue := queue[1..];
      inHand := cmd;
      takenSince := takenSince + 1;
    }

    /** The inner service loop, in order of arrival; `fuel` cuts it anywhere before stop
        is set, since callers may keep enqueuing. */
    method Service(fuel: nat) returns (left: nat)
      requires hasDht && Fifo() && Stopping() && inHand == None && served == |answers|
      requires node.Valid() && AllEarned(answers, served, node.acts)
      modifies `queue, `stop, `arrived, `queuedAtStop, `takenSince, `inHand, `answers, `served, node
      ensures Fifo() && Stopping() && inHand == None && served == |answers|
      ensures node.Valid() && AllEarned(answers, served, node.acts) && old(node.acts) <= node.acts
      ensures |arrived| >= |old(arrived)| && old(answers) <= answers
      ensures old(stop) ==> stop && queuedAtStop == old(queuedAtStop)
      ensures OnlyFor(old(node.acts), old(answers), node.acts, answers)
      ensures left <= fuel && |answers| >= |old(answers)| + (fuel - left)
      ensures queue == [] || (left == 0 && !stop)
    {
      hide Fifo, Stopping, LookupLaw, AllEarned, NativeNode.Valid, OnlyFor;
      OnlyForNone(node.acts, answers);
      left := fuel;
      while stop || left > 0
        invariant Fifo() && Stopping() && inHand == None && served == |answers|
        invariant node.Valid() && AllEarned(answers, served, node.acts) && old(node.acts) <= node.acts
        invariant |arrived| >= |old(arrived)| && old(answers) <= answers
        invariant old(stop) ==> stop && queuedAtStop == old(queuedAtStop)
        invariant OnlyFor(old(node.acts), old(answers), node.acts, answers)
        invariant left <= fuel && |answers| >= |old(answers)| + (fuel - left)
        decreases if stop then 0 else left + 1, |queue|
      {
        ghost var acts, given := node.acts, answers;
        Interfere();
        var cmd := TryRecv();
        match cmd {
          case None =>
            return;
          case Some(Resolve(target, timeout)) =>
            var r := ResolveOnThread(target, timeout);
            assert node.acts[..|acts|] == acts;
            Reply(Resolved(r), |acts|);
            OnlyForNext(old(node.acts), old(answers), acts, given, answers[|given|], node.acts);
          case Some(Metrics) =>
            var snapshot := node.Metrics();
            assert node.acts[..|acts|] == acts && node.acts[|acts|..] == [Counted(snapshot)];
            Reply(Counters(snapshot), |acts|);
            OnlyForNext(old(node.acts), old(answers), acts, given, answers[|given|], node.acts);
        }
        if !stop {
          left := left - 1;
        }
      }
    }

    /** One announce pass at the wall-clock reading `secs`. */
    method AnnouncePass(secs: Secs)
      requires Announcing() && hasDht && announce.Some? && node.Valid()
      modifies `announcedAt, `readings, `announces, node
      ensures Announcing() && readings == old(readings) + [secs]
      ensures node.Valid()
      ensures announces == old(announces) + if Due(old(announcedAt), secs) then [secs] else []
      ensures old(announces) <= announces
      ensures node.acts == old(node.acts) + Announcements(announces[|old(announces)|..])
    {
      assert (readings + [secs])[..|readings|] == readings;
      OneAnnounced(announces, secs);
      if Due(announcedAt, secs) {
        node.Announce(secs);
        announcedAt := secs;
        announces := announces + [secs];
      }
      readings := readings + [secs];
    }

    /** The reply halves still queued are dropped with the channel. */
    method DropReceiver()
      requires Fifo() && AllEarned(answers, served, node.acts) && inHand == None && served == |answers|
      modifies `queue, `answers
      ensures Fifo() && AllEarned(answers, served, node.acts) && queue == []
      ensures |answers| == |arrived| && old(answers) <= answers
    {
      while queue != []
        invariant Fifo() && AllEarned(answers, served, node.acts) && old(answers) <= answers
      {
        DropOne();
      }
    }

    method DropOne()
      requires Fifo() && AllEarned(answers, served, node.acts) && inHand == None && queue != []
      modifies `queue, `answers
      ensures Fifo() && AllEarned(answers, served, node.acts) && queue == old(queue)[1..] && old(answers) <= answers
    {
      var a := Answer(queue[0], Dropped, |node.acts|, []);
      if answers != [] {
        EarnedBehind(answers, served, node.acts);
      }
      EarnedAppend(answers, served, node.acts, a);
      OrderTaken(arrived, answers, queue);
      OrderAnswered(arrived, answers, queue[0], queue[1..], a);
      hide InOrder, Earned, AllEarned;
      answers := answers + [a];
      queue := queue[1..];
    }

    /** `wait_readable`; other threads run meanwhile. */
    method Wait(ms: nat)
      requires Fifo() && Stopping() && node.Valid()
      modifies `queue, `stop, `arrived, `queuedAtStop, `takenSince, `waitsSince, node
      ensures Fifo() && Stopping() && node.Valid()
      ensures node.acts == old(node.acts) + [Waited(ms)]
      ensures old(stop) ==> stop && queuedAtStop == old(queuedAtStop)
      ensures waitsSince == old(waitsSince) + (if old(stop) then 1 else 0)
      ensures |arrived| >= |old(arrived)|
    {
      if stop {
        waitsSince := waitsSince + 1;
      }
      node.WaitReadable(ms);
      Interfere();
    }

    /** The two timers, and the wait for the earlier. */
    method WaitForTimers()
      requires Fifo() && Stopping() && node.Valid() && node.acts != []
      modifies `queue, `stop, `arrived, `queuedAtStop, `takenSince, `waitsSince, node
      ensures Fifo() && Stopping() && node.Valid()
      ensures old(node.acts) <= node.acts && EndsInWait(node.acts, hasDht)
      ensures |node.acts| == |old(node.acts)| + if hasDht then 3 else 2
      ensures old(stop) ==> stop && queuedAtStop == old(queuedAtStop)
      ensures old(waitsSince) <= waitsSince <= old(waitsSince) + 1 && (!stop ==> waitsSince == old(waitsSince))
      ensures |arrived| >= |old(arrived)|
    {
      hide Fifo, Stopping, NativeNode.Valid, EndsInWait;
      ghost var acts := node.acts;
      var timer := node.NextTimeout(ServerSide);
      var dhtTimer: Option<nat> := None;
      if hasDht {
        dhtTimer := node.NextTimeout(DhtSide);
      }
      TimersThenWait(acts, timer, dhtTimer);
      Interfere();
      Wait(PollWait(timer, dhtTimer));
    }

    /** The server's tick, which begins a turn; other threads run around it. */
    method TickServer() returns (alive: bool)
      requires Fifo() && Stopping() && node.Valid() && AllEarned(answers, served, node.acts)
      modifies `queue, `stop, `arrived, `queuedAtStop, `takenSince, node
      ensures Fifo() && Stopping() && node.Valid() && AllEarned(answers, served, node.acts)
      ensures |node.acts| == |old(node.acts)| + 1 && old(node.acts) <= node.acts
      ensures ServerTick(node.acts[|old(node.acts)|], !alive)
      ensures |arrived| >= |old(arrived)|
    {
      hide Fifo, Stopping, AllEarned, NativeNode.Valid;
      ghost var acts := node.acts;
      Interfere();
      var failure := node.Tick(ServerSide);
      EarnedGrows(answers, served, acts, node.acts);
      Interfere();
      alive := failure.None?;
    }

    /** The turn since: its calls, its announces, its answers. */
    ghost function Since(acts: seq<Act>, told: seq<Secs>, given: seq<Answer>): Turned
      reads this, node
      requires acts <= node.acts && told <= announces && given <= answers
    {
      Turned(node.acts[|acts|..], announces[|told|..], answers[|given|..])
    }

    /** One turn of the loop, entered with stop unset. It begins with the server's tick; a
        failed one ends the loop. Otherwise it announces if due, really serves every command
        there was when it began, and ends by waiting for the earliest timer, unless `fuel`
        cut its service loop. Its calls are those of the turn's law and no other. */
    method Turn(fuel: nat) returns (alive: bool, cut: bool)
      requires Fifo() && Stopping() && Announcing() && inHand == None && served == |answers|
      requires node.Valid() && AllEarned(answers, served, node.acts) && !stop
      modifies this, node
      ensures Fifo() && Stopping() && Announcing() && inHand == None && served == |answers|
      ensures node.Valid() && AllEarned(answers, served, node.acts)
      ensures old(node.acts) <= node.acts && old(announces) <= announces && old(answers) <= answers
      ensures TurnLaw(Since(old(node.acts), old(announces), old(answers)), hasDht, alive, cut)
      ensures AnnouncedIn(node.acts[|old(node.acts)|..]) == announces[|old(announces)|..]
      ensures readings == old(readings) +
                          if announce.Some? then Walls(node.acts[|old(node.acts)|..]) else []
      ensures !alive ==> waitsSince == old(waitsSince)
      ensures alive && !cut ==>
        && (hasDht ==> served >= |old(arrived)|)
        && waitsSince <= old(waitsSince) + 1 && (!stop ==> waitsSince == old(waitsSince))
      ensures cut ==> alive && !stop && |answers| >= |old(answers)| + fuel && waitsSince == old(waitsSince)
    {
      hide Fifo, Stopping, Announcing, AllEarned, NativeNode.Valid, EndsInWait, TurnLaw, DhtPart, AnnouncedIn, Walls;
      cut := false;
      ghost var acts, told, given := node.acts, announces, answers;
      alive := TickServer();
      ghost var tick := node.acts[|acts|];
      assert node.acts == acts + [tick];
      if alive && hasDht {
        cut := DhtWork(fuel);
      }
      ghost var acts1 := node.acts;
      if alive && !cut {
        WaitForTimers();
        EarnedGrows(answers, served, acts1, node.acts);
      }
      TurnIs(acts, tick, acts1, node.acts, Since(acts, told, given), hasDht, alive, cut);
      AllNewEarned(given);
      TurnAnnounces(Since(acts, told, given), hasDht, alive, cut);
    }

    lemma AllNewEarned(given: seq<Answer>)
      requires AllEarned(answers, served, node.acts) && given <= answers
      ensures forall a <- answers[|given|..] :: Earned(a)
    {
      hide Earned, Made;
    }

    /** The dht's part of a turn: its tick, the announce, the service loop. */
    method DhtWork(fuel: nat) returns (cut: bool)
      requires hasDht && Fifo() && Stopping() && Announcing() && inHand == None && served == |answers|
      requires node.Valid() && AllEarned(answers, served, node.acts)
      modifies this, node
      ensures Fifo() && Stopping() && Announcing() && inHand == None && served == |answers|
      ensures node.Valid() && AllEarned(answers, served, node.acts)
      ensures old(node.acts) <= node.acts && old(answers) <= answers
      ensures old(announces) <= announces
      ensures DhtPart(node.acts, |old(node.acts)|, Turned([], announces[|old(announces)|..], answers[|old(answers)|..]))
      ensures
        && |node.acts| > |old(node.acts)| && node.acts[|old(node.acts)|].WallClock?
        && readings == old(readings) + if announce.Some? then [node.acts[|old(node.acts)|].secs] else []
      ensures old(stop) ==> stop
      ensures waitsSince == old(waitsSince) && |arrived| >= |old(arrived)|
      ensures if cut then !stop && |answers| >= |old(answers)| + fuel else queue == [] && served >= |old(arrived)|
    {
      hide Fifo, Stopping, Announcing, AllEarned, NativeNode.Valid, OnlyFor, DhtPart, Announcements;
      ghost var acts := node.acts;
      var secs := node.NowSecs();
      var _ := node.Tick(DhtSide); // its failure is not looked at
      ghost var tick := node.acts[|acts| + 1];
      OneAnnounced(announces, secs);
      if announce.Some? {
        AnnouncePass(secs);
      }
      EarnedGrows(answers, served, acts, node.acts);
      ghost var acts1 := node.acts;
      var left := Service(fuel);
      cut := left == 0 && !stop;
      if !cut {
        AllServed();
      }
      DhtCalls(acts, WallClock(secs), tick, old(announces), announces, acts1, old(answers), answers, node.acts);
    }

    lemma AllServed()
      requires Fifo() && queue == [] && inHand == None
      ensures |answers| == |arrived|
    {
    }

    lemma TakenAtMost()
      requires Stopping()
      ensures stop ==> takenSince <= queuedAtStop
    {
    }

    lemma NoneYet()
      requires Announcing() && readings == []
      ensures announces == []
    {
    }

    lemma RanAnnounces(turns: seq<Turned>, acts: seq<Act>, alive: bool, cut: bool)
      requires Announcing() && AllEarned(answers, served, node.acts) && served == |answers|
      requires IsRun(turns, acts, announce.Some?, node.acts, announces, answers, readings)
      requires RunLaw(turns, hasDht, alive, cut)
      ensures acts <= node.acts && AnnouncedIn(node.acts[|acts|..]) == announces == Announces(readings)
      ensures IsRun(turns, acts, announce.Some?, node.acts, announces, answers[..served], readings)
    {
      hide Earned, Made, RunLaw, AnnouncedIn, Announces, AnnouncedAt, Logs, TimesOf, AnswersOf, WallsOf;
      assert forall a <- answers :: Earned(a);
      assert answers[..served] == answers;
      RunAnnounces(turns, hasDht, alive, cut);
      assert node.acts[|acts|..] == Logs(turns);
    }

    /** One more turn of a run. */
    method NextTurn(fuel: nat, ghost turns: seq<Turned>, ghost acts: seq<Act>)
      returns (alive: bool, cut: bool, ghost turns': seq<Turned>)
      requires Fifo() && Stopping() && Announcing() && inHand == None && served == |answers|
      requires node.Valid() && AllEarned(answers, served, node.acts) && !stop
      requires IsRun(turns, acts, announce.Some?, node.acts, announces, answers, readings)
      requires RunLaw(turns, hasDht, true, false)
      modifies this, node
      ensures Fifo() && Stopping() && Announcing() && inHand == None && served == |answers|
      ensures node.Valid() && AllEarned(answers, served, node.acts)
      ensures IsRun(turns', acts, announce.Some?, node.acts, announces, answers, readings)
      ensures RunLaw(turns', hasDht, alive, cut) && |turns'| == |turns| + 1
      ensures waitsSince <= old(waitsSince) + 1 && (!stop || !alive || cut ==> waitsSince == old(waitsSince))
      ensures cut ==> alive && !stop && |answers| >= fuel
    {
      hide Fifo, Stopping, Announcing, AllEarned, NativeNode.Valid, IsRun, RunLaw, TurnLaw, AnnouncedIn;
      ghost var acts1, told, given, read := node.acts, announces, answers, readings;
      alive, cut := Turn(fuel);
      ghost var turn := Since(acts1, told, given);
      RanOne(turns, acts, announce.Some?, acts1, told, given, read, turn, node.acts, announces, answers, readings);
      RunNext(turns, turn, hasDht, alive, cut);
      turns' := turns + [turn];
    }

    /** The loop is left: what is still queued is dropped. */
    method LeaveLoop()
      requires Fifo() && Stopping() && AllEarned(answers, served, node.acts) && inHand == None && served == |answers|
      modifies `queue, `stop, `arrived, `queuedAtStop, `takenSince, `answers
      ensures Fifo() && AllEarned(answers, served, node.acts) && queue == []
      ensures |answers| == |arrived| && old(answers) <= answers
      ensures old(stop) ==> stop
      ensures stop ==> takenSince <= queuedAtStop
    {
      hide AllEarned, Fifo, Stopping;
      Interfere();
      TakenAtMost();
      DropReceiver();
    }

    /** `run_server_loop`. Its calls are those of its turns and no other. It leaves only once
        stop is set or on a failed server tick. Once stop is set it takes no more commands
        than were queued then and begins no more than one wait. When it leaves, every
        command was answered once, in order, the ones still queued by dropping their reply;
        and the announces it made are exactly those due. `fuel` cuts it, after at least
        that much work, only while stop is not set. */
    method Run(fuel: nat) returns (exited: bool, ghost turns: seq<Turned>, ghost alive: bool)
      requires Fifo() && Stopping() && Announcing() && node.Valid() && AllEarned(answers, served, node.acts)
      requires arrived == [] && inHand == None && waitsSince == served == |answers| == 0 && readings == []
      modifies this, node
      ensures Fifo() && Announcing() && node.Valid() && AllEarned(answers, served, node.acts)
      ensures served <= |answers|
      ensures IsRun(turns, old(node.acts), announce.Some?, node.acts, announces, answers[..served], readings)
      ensures old(node.acts) <= node.acts
      ensures AnnouncedIn(node.acts[|old(node.acts)|..]) == announces == Announces(readings)
      ensures exited ==> queue == [] && inHand == None && |answers| == |arrived|
      ensures exited ==> RunLaw(turns, hasDht, alive, false) && (alive ==> stop)
      ensures stop ==> takenSince <= queuedAtStop && waitsSince <= 1
      ensures !exited ==> !stop && (RunLaw(turns, hasDht, true, false) || RunLaw(turns, hasDht, true, true))
      ensures !exited ==> |turns| + |answers| >= fuel
    {
      hide Fifo, Stopping, Announcing, AllEarned, NativeNode.Valid, IsRun, RunLaw, TurnLaw, AnnouncedIn;
      hide Walls, Announces;
      exited, turns := false, [];
      var rounds: nat := fuel;
      var going := true;
      alive := true;
      RunStarts(node.acts, announce.Some?, hasDht);
      NoneYet();
      while going
        invariant Fifo() && Stopping() && Announcing() && inHand == None && served == |answers|
        invariant node.Valid() && AllEarned(answers, served, node.acts)
        invariant IsRun(turns, old(node.acts), announce.Some?, node.acts, announces, answers, readings)
        invariant RunLaw(turns, hasDht, going, false) && alive == going
        invariant waitsSince <= 1 && (!stop ==> waitsSince == 0)
        invariant |turns| == fuel - rounds && rounds <= fuel
        decreases rounds, going
      {
        Interfere();
        if stop {
          break;
        }
        if rounds == 0 {
          RanAnnounces(turns, old(node.acts), true, false);
          return;
        }
        rounds := rounds - 1;
        var cut;
        going, cut, turns := NextTurn(rounds, turns, old(node.acts));
        alive := going;
        if cut {
          RanAnnounces(turns, old(node.acts), true, true);
          return;
        }
      }
      RanAnnounces(turns, old(node.acts), alive, false);
      ghost var replies := answers;
      LeaveLoop();
      assert answers[..served] == replies[..served];
      exited := true;
    }
  }
}
