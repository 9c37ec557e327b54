/** What the managed server's owner loop answers for: each reply is earned by its own native
    calls, a turn is a fixed list of calls, and a run is its turns' calls and nothing else. */
module ServerLaw {
  import opened Wire
  import opened Announce
  import opened Node
  import opened Lookup

  const POLL_CAP_MS: nat := 200
  const CAPACITY: nat := 32

  datatype Command = Resolve(target: NodeId, timeout: nat) | Metrics

  datatype Reply = Resolved(outcome: Result<Address>) | Counters(snapshot: nat) | Dropped

  /** A command off the channel, what its one-shot reply carried, and the native calls made
      for it: those from call `at` on. `Dropped` is a reply half dropped unused. */
  datatype Answer = Answer(cmd: Command, reply: Reply, at: nat, calls: seq<Act>)

  /** A reply of the command's own kind, earned by its own calls. */
  predicate Earned(a: Answer) {
    match a.reply
    case Dropped => a.calls == []
    case Counters(n) => a.cmd.Metrics? && a.calls == [Counted(n)]
    case Resolved(r) => a.cmd.Resolve? && LookupLaw(a.calls, a.cmd.target, a.cmd.timeout, r)
  }

  /** Those calls are where the answer says, among all the calls made. */
  predicate Made(a: Answer, acts: seq<Act>) {
    a.at <= |acts| && a.calls <= acts[a.at..]
  }

  /** Every answer is earned by calls really made, each answer by later calls than the one
      before; the first `served` are replies, the others were dropped. */
  ghost predicate AllEarned(answers: seq<Answer>, served: nat, acts: seq<Act>) {
    && served <= |answers|
    && (forall i | 0 <= i < |answers| :: Earned(answers[i]) && Made(answers[i], acts))
    && (forall i | 0 < i < |answers| :: answers[i - 1].at + |answers[i - 1].calls| <= answers[i].at)
    && (forall i | 0 <= i < |answers| :: answers[i].reply.Dropped? <==> i >= served)
  }

  lemma EarnedGrows(answers: seq<Answer>, served: nat, acts: seq<Act>, acts': seq<Act>)
    requires AllEarned(answers, served, acts) && acts <= acts'
    ensures AllEarned(answers, served, acts')
  {
    hide Earned;
    forall i | 0 <= i < |answers| ensures Made(answers[i], acts') {
      var a := answers[i];
      assert acts[a.at..] <= acts'[a.at..];
    }
  }

  lemma EarnedAppend(answers: seq<Answer>, served: nat, acts: seq<Act>, a: Answer)
    requires AllEarned(answers, served, acts) && Earned(a) && Made(a, acts)
    requires answers != [] ==> answers[|answers| - 1].at + |answers[|answers| - 1].calls| <= a.at
    requires a.reply.Dropped? || served == |answers|
    ensures AllEarned(answers + [a], if a.reply.Dropped? then served else served + 1, acts)
  {
    hide Earned, Made;
  }

  /** The last answer's calls are all behind. */
  lemma EarnedBehind(answers: seq<Answer>, served: nat, acts: seq<Act>)
    requires AllEarned(answers, served, acts) && answers != []
    ensures answers[|answers| - 1].at + |answers[|answers| - 1].calls| <= |acts|
  {
    hide Earned;
    assert Made(answers[|answers| - 1], acts);
  }

  /** Commands leave in the order they came, each answered once. */
  ghost predicate InOrder(arrived: seq<Command>, answers: seq<Answer>, inHand: Option<Command>, queue: seq<Command>) {
    && |arrived| == |answers| + (if inHand.Some? then 1 else 0) + |queue|
    && (forall i | 0 <= i < |answers| :: answers[i].cmd == arrived[i])
    && (inHand.Some? ==> inHand.value == arrived[|answers|])
    && (forall i | 0 <= i < |queue| :: queue[i] == arrived[|arrived| - |queue| + i])
  }

  lemma OrderTaken(arrived: seq<Command>, answers: seq<Answer>, queue: seq<Command>)
    requires InOrder(arrived, answers, None, queue) && queue != []
    ensures InOrder(arrived, answers, Some(queue[0]), queue[1..])
  {
  }

  lemma OrderAnswered(arrived: seq<Command>, answers: seq<Answer>, cmd: Command, queue: seq<Command>, a: Answer)
    requires InOrder(arrived, answers, Some(cmd), queue) && a.cmd == cmd
    ensures InOrder(arrived, answers + [a], None, queue)
  {
  }

  lemma OrderJoined(arrived: seq<Command>, answers: seq<Answer>, inHand: Option<Command>, queue: seq<Command>,
                    cmd: Command)
    requires InOrder(arrived, answers, inHand, queue)
    ensures InOrder(arrived + [cmd], answers, inHand, queue + [cmd])
  {
  }

  /** What `RunningServer::resolve` returns: no channel, a closed one, or the reply. */
  function CallerSees(hasDht: bool, sent: bool, reply: Reply): Result<Address> {
    if !hasDht then Err(ConfigMissing)
    else if !sent || !reply.Resolved? then Err(NetworkClosed)
    else reply.outcome
  }

  /** What a caller of resolve is told, whatever became of its command: it has no channel,
      the channel or the reply was closed, or a lookup was made for it, which failed as its
      last native call did or at its deadline. */
  lemma CallerLearns(hasDht: bool, sent: bool, a: Answer, e: Error)
    requires Earned(a) && a.cmd.Resolve?
    ensures CallerSees(hasDht, sent, a.reply) == Err(e) <==>
              || (!hasDht && e == ConfigMissing)
              || (hasDht && (!sent || a.reply.Dropped?) && e == NetworkClosed)
              || (hasDht && sent && a.calls != [] && FailedWith(a.calls, a.cmd.timeout, e))
  {
    hide LookupLaw;
    if a.reply.Resolved? {
      LawNonEmpty(a.calls, a.cmd.target, a.cmd.timeout, a.reply.outcome);
      FailsAsCalled(a.calls, a.cmd.target, a.cmd.timeout, a.reply.outcome, e);
    }
  }

  /** A caller that asked for a target is given an address only when the native calls made
      for it ended with finding the target's record, in the dht's store at that moment. */
  lemma ResolveIsHonest(hasDht: bool, sent: bool, a: Answer, acts: seq<Act>, addr: Address)
    requires Earned(a) && Made(a, acts) && Replay(acts).Some?
    requires CallerSees(hasDht, sent, a.reply) == Ok(addr)
    ensures hasDht && sent && a.cmd.Resolve? && a.calls != []
    ensures var end := a.at + |a.calls|;
            end <= |acts| && acts[end - 1] == Looked(a.cmd.target, Some(Record(a.cmd.target, addr)))
            && Replay(acts[..end]).Some? && a.cmd.target in Replay(acts[..end]).value.records
            && Replay(acts[..end]).value.records[a.cmd.target] == addr
  {
    hide Replay, LookupLaw;
    var end := a.at + |a.calls|;
    ReplayPrefix(acts, end);
    assert acts[..end][a.at..] == a.calls;
    LawNonEmpty(a.calls, a.cmd.target, a.cmd.timeout, a.reply.outcome);
    FoundIffHit(a.calls, a.cmd.target, a.cmd.timeout, a.reply.outcome);
    FoundIsStored(acts[..end], a.at, a.cmd.target, a.cmd.timeout, a.reply.outcome);
    assert acts[end - 1] == a.calls[|a.calls| - 1];
  }

  lemma LawNonEmpty(log: seq<Act>, target: NodeId, timeout: nat, r: Result<Address>)
    requires LookupLaw(log, target, timeout, r)
    ensures log != []
  {
  }

  lemma {:induction false} ReplayPrefix(acts: seq<Act>, n: nat)
    requires n <= |acts| && Replay(acts).Some?
    ensures Replay(acts[..n]).Some?
  {
    if n < |acts| {
      ReplayPrefix(acts[..|acts| - 1], n);
      assert acts[..|acts| - 1][..n] == acts[..n];
    } else {
      assert acts[..n] == acts;
    }
  }

  /** The loop's wait: the earliest armed timer, and never above the cap. */
  function PollWait(server: Option<nat>, dht: Option<nat>): (ms: nat)
    ensures ms <= POLL_CAP_MS
    ensures (server.Some? ==> ms <= server.value) && (dht.Some? ==> ms <= dht.value)
    ensures ms < POLL_CAP_MS ==> server == Some(ms) || dht == Some(ms)
  {
    var first := if server.Some? then server.value else POLL_CAP_MS;
    var second := if dht.Some? && dht.value < first then dht.value else first;
    if second < POLL_CAP_MS then second else POLL_CAP_MS
  }

  /** The calls that end a turn: the timers are read and the loop waits for the earliest. */
  predicate EndsInWait(acts: seq<Act>, hasDht: bool) {
    var n := |acts|;
    && n >= 3 && acts[n - 1].Waited?
    && if hasDht
       then acts[n - 3].Timer? && acts[n - 3].side.ServerSide? && acts[n - 2].Timer? && acts[n - 2].side.DhtSide?
            && acts[n - 1].ms == PollWait(acts[n - 3].due, acts[n - 2].due)
       else acts[n - 2].Timer? && acts[n - 2].side.ServerSide? && acts[n - 1].ms == PollWait(acts[n - 2].due, None)
  }

  lemma TimersThenWait(acts: seq<Act>, server: Option<nat>, dht: Option<nat>)
    ensures var all := acts + [Timer(ServerSide, server)] + [Timer(DhtSide, dht)] + [Waited(PollWait(server, dht))];
            EndsInWait(all, true)
    ensures var all := acts + [Timer(ServerSide, server)] + [Waited(PollWait(server, None))];
            acts != [] ==> EndsInWait(all, false)
  {
    hide PollWait;
  }

  /** The server's own tick, which failed or did not. */
  predicate ServerTick(act: Act, failed: bool) {
    act.Ticked? && act.side.ServerSide? && (failed <==> act.failure.Some?)
  }

  /** The dht's work begins at call n: the wall clock is read and the dht is ticked. */
  predicate DhtBegins(acts: seq<Act>, n: nat) {
    n + 1 < |acts| && acts[n].WallClock? && acts[n + 1].Ticked? && acts[n + 1].side.DhtSide?
  }

  /** The wall-clock reading of a turn that got as far as the dht. */
  function Walls(log: seq<Act>): seq<Secs> {
    if |log| > 1 && log[1].WallClock? then [log[1].secs] else []
  }

  // A turn, call by call

  /** The calls made for a list of answers, in order. */
  function CallsOf(answers: seq<Answer>): seq<Act> {
    if answers == [] then []
    else CallsOf(answers[..|answers| - 1]) + answers[|answers| - 1].calls
  }

  function Announcements(times: seq<Secs>): seq<Act> {
    if times == [] then [] else Announcements(times[..|times| - 1]) + [Announced(times[|times| - 1])]
  }

  /** The announces really made among some calls, in order. */
  function AnnouncedIn(acts: seq<Act>): seq<Secs> {
    if acts == [] then []
    else
      var last := acts[|acts| - 1];
      AnnouncedIn(acts[..|acts| - 1]) + if last.Announced? then [last.secs] else []
  }

  /** A turn: the calls it made, the times it announced and the commands it answered. */
  datatype Turned = Turned(log: seq<Act>, announces: seq<Secs>, answers: seq<Answer>)

  /** The middle of a turn with a dht: announces made if due, then the calls of its answers. */
  function Middle(t: Turned): seq<Act> {
    Announcements(t.announces) + CallsOf(t.answers)
  }

  /** The dht's part of a turn, from call n on. */
  predicate DhtPart(acts: seq<Act>, n: nat, t: Turned) {
    DhtBegins(acts, n) && acts[n + 2..] == Middle(t)
  }

  /** The calls of a turn, all of them: the server's tick, whose failure ends it; with a dht
      the clock, the dht's tick and the middle; and unless cut the timers and the wait. */
  predicate TurnLaw(t: Turned, hasDht: bool, alive: bool, cut: bool) {
    && t.log != [] && ServerTick(t.log[0], !alive)
    && if !alive then |t.log| == 1 && !cut && t.announces == [] && t.answers == []
       else if !hasDht then |t.log| == 3 && EndsInWait(t.log, false) && !cut && t.announces == [] && t.answers == []
       else if cut then DhtPart(t.log, 1, t)
       else |t.log| >= 6 && DhtPart(t.log[..|t.log| - 3], 1, t) && EndsInWait(t.log, true)
  }

  lemma CallsNext(answers: seq<Answer>, a: Answer)
    ensures CallsOf(answers + [a]) == CallsOf(answers) + a.calls
  {
    assert (answers + [a])[..|answers|] == answers;
  }

  /** The calls since are those of the answers since, and no other. */
  predicate OnlyFor(acts: seq<Act>, answers: seq<Answer>, acts': seq<Act>, answers': seq<Answer>) {
    answers <= answers' && acts' == acts + CallsOf(answers'[|answers|..])
  }

  lemma OnlyForNone(acts: seq<Act>, answers: seq<Answer>)
    ensures OnlyFor(acts, answers, acts, answers)
  {
  }

  lemma OnlyForNext(start: seq<Act>, before: seq<Answer>, acts: seq<Act>, answers: seq<Answer>, a: Answer,
                    acts': seq<Act>)
    requires OnlyFor(start, before, acts, answers) && acts <= acts' && a.calls == acts'[|acts|..]
    ensures OnlyFor(start, before, acts', answers + [a])
  {
    hide CallsOf;
    var since := answers[|before|..];
    Tail(answers, a, |before|);
    CallsNext(since, a);
    Glue(start, CallsOf(since), acts, acts');
  }

  lemma Tail(answers: seq<Answer>, a: Answer, n: nat)
    requires n <= |answers|
    ensures (answers + [a])[n..] == answers[n..] + [a]
  {
  }

  /** What came since, after what had come before. */
  lemma Glue(start: seq<Act>, mid: seq<Act>, acts: seq<Act>, acts': seq<Act>)
    requires acts == start + mid && acts <= acts'
    ensures acts' == start + (mid + acts'[|acts|..])
  {
    assert acts' == acts + acts'[|acts|..];
  }

  /** The dht's part of a turn, put together. */
  lemma DhtCalls(acts: seq<Act>, wall: Act, tick: Act, told: seq<Secs>, told': seq<Secs>, acts1: seq<Act>,
                 given: seq<Answer>, given': seq<Answer>, acts2: seq<Act>)
    requires wall.WallClock? && tick.Ticked? && tick.side.DhtSide?
    requires told <= told' && acts1 == acts + [wall] + [tick] + Announcements(told'[|told|..])
    requires OnlyFor(acts1, given, acts2, given')
    ensures DhtPart(acts2, |acts|, Turned([], told'[|told|..], given'[|given|..])) && acts2[|acts|] == wall
  {
    hide Announcements, CallsOf;
    var rest := Announcements(told'[|told|..]) + CallsOf(given'[|given|..]);
    assert acts2 == acts + [wall, tick] + rest;
    assert (acts + [wall, tick] + rest)[|acts| + 2..] == rest;
  }

  lemma OneAnnounced(told: seq<Secs>, secs: Secs)
    ensures Announcements((told + [secs])[|told|..]) == [Announced(secs)] && Announcements(told[|told|..]) == []
  {
    var one := (told + [secs])[|told|..];
    assert one == [secs] && one[..0] == [];
  }

  lemma {:induction false} AnnouncedApart(a: seq<Act>, b: seq<Act>)
    ensures AnnouncedIn(a + b) == AnnouncedIn(a) + AnnouncedIn(b)
  {
    if b == [] {
      assert a + b == a;
    } else {
      var front := b[..|b| - 1];
      AnnouncedApart(a, front);
      assert (a + b)[..|a + b| - 1] == a + front;
    }
  }

  lemma {:induction false} NoneAnnounced(acts: seq<Act>)
    requires forall act <- acts :: !act.Announced?
    ensures AnnouncedIn(acts) == []
  {
    if acts != [] {
      NoneAnnounced(acts[..|acts| - 1]);
    }
  }

  lemma {:induction false} AllAnnounced(times: seq<Secs>)
    ensures AnnouncedIn(Announcements(times)) == times
  {
    if times != [] {
      var front := times[..|times| - 1];
      AllAnnounced(front);
      var acts := Announcements(times);
      assert acts[..|acts| - 1] == Announcements(front);
    }
  }

  /** No command's own calls announce. */
  lemma EarnedAnnouncesNothing(a: Answer)
    requires Earned(a)
    ensures forall act <- a.calls :: !act.Announced?
  {
    match a.reply
    case Resolved(r) => LookupAnnouncesNothing(a.calls, a.cmd.target, a.cmd.timeout, r);
    case _ =>
  }

  lemma LookupAnnouncesNothing(log: seq<Act>, target: NodeId, timeout: nat, r: Result<Address>)
    requires LookupLaw(log, target, timeout, r)
    ensures forall act <- log :: !act.Announced?
  {
    var front := log[..|log| - 1];
    forall i | 0 <= i < |log| ensures !log[i].Announced? {
      if i < |front| {
        Shape(front, target, timeout, i);
        if i >= 3 {
          assert Follows(i, front[i - 1], front[i], target, front[2].at + timeout);
        }
      }
    }
  }

  lemma {:induction false} AnswersAnnounceNothing(answers: seq<Answer>)
    requires forall a <- answers :: Earned(a)
    ensures AnnouncedIn(CallsOf(answers)) == []
  {
    hide Earned;
    if answers != [] {
      var front, last := answers[..|answers| - 1], answers[|answers| - 1];
      AnswersAnnounceNothing(front);
      EarnedAnnouncesNothing(last);
      NoneAnnounced(last.calls);
      AnnouncedApart(CallsOf(front), last.calls);
    }
  }

  /** The announces among a turn's calls are those it is said to have made. */
  lemma TurnAnnounces(t: Turned, hasDht: bool, alive: bool, cut: bool)
    requires TurnLaw(t, hasDht, alive, cut) && forall a <- t.answers :: Earned(a)
    ensures AnnouncedIn(t.log) == t.announces
  {
    hide Earned, AnnouncedIn, PollWait;
    if !alive || !hasDht {
      NoneAnnounced(t.log);
    } else {
      var n := if cut then |t.log| else |t.log| - 3;
      assert t.log == t.log[..3] + Middle(t) + t.log[n..];
      NoneAnnounced(t.log[..3]);
      NoneAnnounced(t.log[n..]);
      AllAnnounced(t.announces);
      AnswersAnnounceNothing(t.answers);
      AnnouncedApart(Announcements(t.announces), CallsOf(t.answers));
      AnnouncedApart(t.log[..3], Middle(t));
      AnnouncedApart(t.log[..3] + Middle(t), t.log[n..]);
    }
  }

  /** A turn put together: its tick up to call |acts|, the dht's part if any up to `acts1`,
      the wait unless cut. */
  lemma TurnIs(acts: seq<Act>, tick: Act, acts1: seq<Act>, acts2: seq<Act>, t: Turned, hasDht: bool, alive: bool,
               cut: bool)
    requires ServerTick(tick, !alive) && acts + [tick] <= acts1 <= acts2 && t.log == acts2[|acts|..]
    requires if alive && hasDht then DhtPart(acts1, |acts| + 1, Turned([], t.announces, t.answers))
             else t.announces == [] && t.answers == [] && acts1 == acts + [tick] && !cut
    requires if cut || !alive then acts2 == acts1
             else |acts2| == |acts1| + (if hasDht then 3 else 2) && EndsInWait(acts2, hasDht)
    ensures TurnLaw(t, hasDht, alive, cut)
    ensures Walls(t.log) == if alive && hasDht then [acts1[|acts| + 1].secs] else []
  {
    hide Announcements, CallsOf, PollWait;
    if alive && hasDht {
      var front := acts1[|acts|..];
      assert front[3..] == acts1[|acts| + 3..];
      assert t.log[..|front|] == front;
    }
  }

  // A run, turn by turn

  /** The turns' calls, announces, answers and wall-clock readings, end to end. */
  function Logs(turns: seq<Turned>): seq<Act> {
    if turns == [] then [] else Logs(turns[..|turns| - 1]) + turns[|turns| - 1].log
  }

  function TimesOf(turns: seq<Turned>): seq<Secs> {
    if turns == [] then [] else TimesOf(turns[..|turns| - 1]) + turns[|turns| - 1].announces
  }

  function AnswersOf(turns: seq<Turned>): seq<Answer> {
    if turns == [] then [] else AnswersOf(turns[..|turns| - 1]) + turns[|turns| - 1].answers
  }

  function WallsOf(turns: seq<Turned>): seq<Secs> {
    if turns == [] then []
    else
      WallsOf(turns[..|turns| - 1]) + Walls(turns[|turns| - 1].log)
  }

  /** Every turn of a run is a whole one but the last, which may have ended it. */
  ghost predicate RunLaw(turns: seq<Turned>, hasDht: bool, alive: bool, cut: bool) {
    && (turns == [] ==> alive && !cut)
    && (forall i | 0 <= i < |turns| - 1 :: TurnLaw(turns[i], hasDht, true, false))
    && (turns != [] ==> TurnLaw(turns[|turns| - 1], hasDht, alive, cut))
  }

  lemma TurnsNext(turns: seq<Turned>, t: Turned)
    ensures Logs(turns + [t]) == Logs(turns) + t.log
    ensures TimesOf(turns + [t]) == TimesOf(turns) + t.announces
    ensures AnswersOf(turns + [t]) == AnswersOf(turns) + t.answers
    ensures WallsOf(turns + [t]) == WallsOf(turns) + Walls(t.log)
  {
    assert (turns + [t])[..|turns|] == turns;
  }

  /** The calls since `acts`, the announces, replies and readings are these turns'. */
  predicate IsRun(turns: seq<Turned>, acts: seq<Act>, announcing: bool, acts': seq<Act>, announces: seq<Secs>,
                  answers: seq<Answer>, readings: seq<Secs>) {
    && acts' == acts + Logs(turns) && announces == TimesOf(turns) && answers == AnswersOf(turns)
    && readings == if announcing then WallsOf(turns) else []
  }

  lemma RunStarts(acts: seq<Act>, announcing: bool, hasDht: bool)
    ensures IsRun([], acts, announcing, acts, [], [], []) && RunLaw([], hasDht, true, false)
  {
  }

  lemma RanOne(turns: seq<Turned>, acts: seq<Act>, announcing: bool, acts1: seq<Act>, told: seq<Secs>,
               given: seq<Answer>, read: seq<Secs>, t: Turned, acts2: seq<Act>, told': seq<Secs>,
               given': seq<Answer>, read': seq<Secs>)
    requires IsRun(turns, acts, announcing, acts1, told, given, read)
    requires acts1 <= acts2 && told <= told' && given <= given'
    requires t == Turned(acts2[|acts1|..], told'[|told|..], given'[|given|..])
    requires read' == read + if announcing then Walls(t.log) else []
    ensures IsRun(turns + [t], acts, announcing, acts2, told', given', read')
  {
    hide Logs, TimesOf, AnswersOf, WallsOf, Walls;
    TurnsNext(turns, t);
    Glue(acts, Logs(turns), acts1, acts2);
    assert told' == told + t.announces && given' == given + t.answers;
  }

  lemma RunNext(turns: seq<Turned>, t: Turned, hasDht: bool, alive: bool, cut: bool)
    requires RunLaw(turns, hasDht, true, false) && TurnLaw(t, hasDht, alive, cut)
    ensures RunLaw(turns + [t], hasDht, alive, cut)
  {
    hide TurnLaw;
  }

  /** Over every run the announces really made are the turns'. */
  lemma {:induction false} RunAnnounces(turns: seq<Turned>, hasDht: bool, alive: bool, cut: bool)
    requires RunLaw(turns, hasDht, alive, cut) && forall a <- AnswersOf(turns) :: Earned(a)
    ensures AnnouncedIn(Logs(turns)) == TimesOf(turns)
  {
    hide Earned, TurnLaw;
    if turns != [] {
      var front, last := turns[..|turns| - 1], turns[|turns| - 1];
      RunFront(turns, hasDht, alive, cut);
      RunAnnounces(front, hasDht, true, false);
      TurnAnnounces(last, hasDht, alive, cut);
      AnnouncedApart(Logs(front), last.log);
    }
  }

  lemma RunFront(turns: seq<Turned>, hasDht: bool, alive: bool, cut: bool)
    requires RunLaw(turns, hasDht, alive, cut) && turns != []
    ensures RunLaw(turns[..|turns| - 1], hasDht, true, false)
  {
    hide TurnLaw;
  }
}
