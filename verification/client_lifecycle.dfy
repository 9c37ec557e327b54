/** The linear resources of a client over any sequence of calls: the native connection,
    the boxed completion hook and the attached cache. `sound` records whether every demand
    the native library makes of its caller was met so far. */
module ClientLifecycle {
  import opened Wire

  type BoxId = nat
  type CacheId = nat

  /** A connection being opened, an open client, or neither any more. */
  datatype Stage = Connecting | Connected | Gone

  /** Who owns one strong reference to a cache: the client's cell, an argument being
      passed, a value just taken out of the cell, or some variable of the application. */
  datatype Holder = Cell | Arg | Old | App(n: nat)

  datatype Held = Held(owner: Holder, cache: CacheId)

  datatype State = State(
    stage: Stage,
    cell: Option<CacheId>,     // `Client.cache`
    done: Option<BoxId>,       // `Client.done`
    closes: nat,               // calls of the native close
    hook: Option<BoxId>,       // the native side's registered callback
    borrowed: Option<CacheId>, // the native side's cache
    boxes: nat,                // callback boxes ever made
    live: set<BoxId>,
    freed: multiset<BoxId>,
    held: set<Held>,
    sound: bool)

  function Init(): State {
    State(Connecting, None, None, 0, None, None, 0, {}, multiset{}, {}, true)
  }

  // What the native library and the allocator demand

  predicate HookLive(s: State) {
    s.hook.Some? ==> s.hook.value in s.live
  }

  predicate CacheHeld(borrowed: Option<CacheId>, held: set<Held>) {
    borrowed.Some? ==> exists h <- held :: h.cache == borrowed.value
  }

  /** A call during which callbacks may fire and the cache may be read. */
  function Drive(s: State): State {
    s.(sound := s.sound && s.closes == 0 && HookLive(s) && CacheHeld(s.borrowed, s.held))
  }

  /** Callbacks may still fire until the close returns. */
  function Close(s: State): State {
    Drive(s).(closes := s.closes + 1)
  }

  function Free(s: State, box: BoxId): State {
    s.(sound := s.sound && box in s.live, live := s.live - {box}, freed := s.freed + multiset{box})
  }

  function Move(s: State, from: Holder, to: Holder, cache: CacheId): State {
    s.(sound := s.sound && Held(from, cache) in s.held,
       held := s.held - {Held(from, cache)} + {Held(to, cache)})
  }

  /** Dropping a reference, which must not leave an open client's cache without any. */
  function Release(s: State, owner: Holder, cache: CacheId): State {
    var held := s.held - {Held(owner, cache)};
    s.(sound := s.sound && Held(owner, cache) in s.held && (s.closes == 0 ==> CacheHeld(s.borrowed, held)),
       held := held)
  }

  function FreeOpt(s: State, box: Option<BoxId>): State {
    if box.Some? then Free(s, box.value) else s
  }

  function ReleaseOpt(s: State, owner: Holder, cache: Option<CacheId>): State {
    if cache.Some? then Release(s, owner, cache.value) else s
  }

  function MoveOpt(s: State, from: Holder, to: Holder, cache: Option<CacheId>): State {
    if cache.Some? then Move(s, from, to, cache.value) else s
  }

  // The calls

  /** `ok` and `took` are the native side's return codes. */
  datatype Call =
    | ConnectingTick
    | IntoClient
    | DropConnecting
    | Tick
    | SetCache(from: nat, arg: Option<CacheId>, ok: bool)
    | OnRequestDone(took: bool)
    | DropClient
    | NewCache(n: nat, cache: CacheId)
    | CloneCache(n: nat, m: nat, cache: CacheId)
    | DropCache(n: nat, cache: CacheId)

  /** What ownership lets the application write: calls of the stage it is in, on
      references it has. */
  predicate Legal(s: State, call: Call) {
    match call
    case ConnectingTick | IntoClient | DropConnecting => s.stage.Connecting?
    case Tick | OnRequestDone(_) | DropClient => s.stage.Connected?
    case SetCache(n, cache, _) => s.stage.Connected? && (cache.Some? ==> Held(App(n), cache.value) in s.held)
    case NewCache(n, cache) => forall h <- s.held :: h.cache != cache
    case CloneCache(n, m, cache) => Held(App(n), cache) in s.held
    case DropCache(n, cache) => Held(App(n), cache) in s.held
  }

  /** The native call comes first; only if it succeeds does the cell change, and the old
      reference goes last. On failure the argument goes. */
  function AfterSetCache(s: State, n: nat, cache: Option<CacheId>, ok: bool): State {
    var passed := MoveOpt(s, App(n), Arg, cache);
    if !ok then ReleaseOpt(passed, Arg, cache)
    else
      var taken := MoveOpt(passed.(borrowed := cache), Cell, Old, s.cell);
      ReleaseOpt(MoveOpt(taken, Arg, Cell, cache).(cell := cache), Old, s.cell)
  }

  /** The previous box is freed, a new one is made and registered, and kept whatever the
      registration returned. */
  function AfterOnRequestDone(s: State, took: bool): State {
    var freed := FreeOpt(s, s.done);
    freed.(boxes := s.boxes + 1, live := freed.live + {s.boxes},
           hook := if took then Some(s.boxes) else s.hook, done := Some(s.boxes))
  }

  /** Close, then free the box, then drop the cell's cache. */
  function AfterDrop(s: State): State {
    ReleaseOpt(FreeOpt(Close(s), s.done).(done := None), Cell, s.cell).(stage := Gone, cell := None)
  }

  function Apply(s: State, call: Call): State {
    match call
    case ConnectingTick => Drive(s)
    case Tick => Drive(s)
    case IntoClient => s.(stage := Connected, cell := None, done := None)
    case DropConnecting => Close(s).(stage := Gone)
    case SetCache(n, cache, ok) => AfterSetCache(s, n, cache, ok)
    case OnRequestDone(took) => AfterOnRequestDone(s, took)
    case DropClient => AfterDrop(s)
    case NewCache(n, cache) => s.(held := s.held + {Held(App(n), cache)})
    case CloneCache(n, m, cache) => s.(held := s.held + {Held(App(m), cache)})
    case DropCache(n, cache) => Release(s, App(n), cache)
  }

  function Exec(calls: seq<Call>): State {
    if calls == [] then Init() else Apply(Exec(calls[..|calls| - 1]), calls[|calls| - 1])
  }

  predicate LegalRun(calls: seq<Call>) {
    calls == [] || (LegalRun(calls[..|calls| - 1]) && Legal(Exec(calls[..|calls| - 1]), calls[|calls| - 1]))
  }

  // The invariant

  /** The connection is open until the client goes, and closed exactly once then. */
  predicate ClosedOnce(s: State) {
    s.closes == if s.stage.Gone? then 1 else 0
  }

  ghost predicate FreedOnce(boxes: nat, live: set<BoxId>, freed: multiset<BoxId>) {
    forall b: BoxId :: freed[b] == if b < boxes && b !in live then 1 else 0
  }

  /** Every box made is live and unfreed, or freed once; the live one is `done`. */
  ghost predicate BoxesOwned(s: State) {
    && s.live == (if s.done.Some? then {s.done.value} else {})
    && (s.done.Some? ==> s.done.value < s.boxes)
    && (s.hook.Some? ==> s.hook.value < s.boxes)
    && FreedOnce(s.boxes, s.live, s.freed)
    && (!s.stage.Connected? ==> s.done.None?)
    && (s.stage.Connecting? ==> s.hook.None?)
  }

  /** While open, the native side's cache is the one in the cell, which owns a reference
      to it. */
  predicate CacheOwned(s: State) {
    && (!s.stage.Gone? ==> s.borrowed == s.cell)
    && (!s.stage.Connected? ==> s.cell.None?)
    && (forall h <- s.held :: h.owner.App? || (h.owner.Cell? && s.cell == Some(h.cache)))
    && (s.cell.Some? ==> Held(Cell, s.cell.value) in s.held)
  }

  ghost predicate Inv(s: State) {
    ClosedOnce(s) && BoxesOwned(s) && CacheOwned(s)
  }

  lemma BoxesKeep(s: State, call: Call)
    requires BoxesOwned(s) && Legal(s, call)
    ensures BoxesOwned(Apply(s, call))
  {
    hide CacheHeld, HookLive, FreedOnce, AfterSetCache, AfterOnRequestDone, AfterDrop;
    match call {
      case SetCache(n, cache, ok) => SetCacheBoxes(s, n, cache, ok);
      case OnRequestDone(took) => RequestDoneBoxes(s, took);
      case DropClient => DropBoxes(s);
      case _ =>
    }
  }

  lemma SetCacheBoxes(s: State, n: nat, cache: Option<CacheId>, ok: bool)
    requires BoxesOwned(s) && s.stage.Connected?
    ensures BoxesOwned(AfterSetCache(s, n, cache, ok))
  {
    hide CacheHeld, HookLive, FreedOnce;
  }

  lemma RequestDoneBoxes(s: State, took: bool)
    requires BoxesOwned(s) && s.stage.Connected?
    ensures BoxesOwned(AfterOnRequestDone(s, took))
  {
    hide CacheHeld, HookLive, FreedOnce;
    FreeKeeps(s);
    FreshKeeps(s.boxes, FreeOpt(s, s.done).freed);
    assert FreeOpt(s, s.done).live + {s.boxes} == {s.boxes};
  }

  lemma DropBoxes(s: State)
    requires BoxesOwned(s) && s.stage.Connected?
    ensures BoxesOwned(AfterDrop(s))
  {
    hide CacheHeld, HookLive, FreedOnce;
    FreeKeeps(s);
  }

  lemma FreeKeeps(s: State)
    requires FreedOnce(s.boxes, s.live, s.freed)
    requires s.live == (if s.done.Some? then {s.done.value} else {}) && (s.done.Some? ==> s.done.value < s.boxes)
    ensures FreedOnce(s.boxes, {}, FreeOpt(s, s.done).freed) && FreeOpt(s, s.done).live == {}
  {
  }

  lemma FreshKeeps(boxes: nat, freed: multiset<BoxId>)
    requires FreedOnce(boxes, {}, freed)
    ensures FreedOnce(boxes + 1, {boxes}, freed)
  {
  }

  lemma ClosesKeep(s: State, call: Call)
    requires ClosedOnce(s) && Legal(s, call)
    ensures ClosedOnce(Apply(s, call))
  {
    hide CacheHeld, HookLive;
  }

  lemma CacheKeeps(s: State, call: Call)
    requires CacheOwned(s) && Legal(s, call)
    ensures CacheOwned(Apply(s, call))
  {
    hide CacheHeld, HookLive;
  }

  lemma {:induction false} RunKeeps(calls: seq<Call>)
    requires LegalRun(calls)
    ensures Inv(Exec(calls))
  {
    hide Apply, Legal, ClosedOnce, BoxesOwned, CacheOwned;
    if calls == [] {
      InitInv();
    } else {
      var front, last := calls[..|calls| - 1], calls[|calls| - 1];
      RunKeeps(front);
      BoxesKeep(Exec(front), last);
      ClosesKeep(Exec(front), last);
      CacheKeeps(Exec(front), last);
    }
  }

  lemma InitInv()
    ensures Inv(Init())
  {
  }

  // Results over every legal run

  /** The connection is closed at most once, and exactly once by the time neither handle
      is left; then no box is live, every box made was freed exactly once, and the cell
      kept no cache. */
  lemma ReleasedOnce(calls: seq<Call>)
    requires LegalRun(calls)
    ensures Exec(calls).closes == if Exec(calls).stage.Gone? then 1 else 0
    ensures forall b: BoxId :: Exec(calls).freed[b] <= 1
    ensures Exec(calls).stage.Gone? ==>
              Exec(calls).live == {} && (forall b: BoxId | b < Exec(calls).boxes :: Exec(calls).freed[b] == 1)
              && (forall h <- Exec(calls).held :: h.owner.App?)
  {
    RunKeeps(calls);
  }

  /** While the connection is open, the native side's cache is the one the client owns a
      reference to. */
  lemma CacheOutlivesBorrow(calls: seq<Call>)
    requires LegalRun(calls) && !Exec(calls).stage.Gone?
    ensures Exec(calls).borrowed == Exec(calls).cell
    ensures Exec(calls).cell.Some? ==> Held(Cell, Exec(calls).cell.value) in Exec(calls).held
  {
    RunKeeps(calls);
  }

  /** The last registration was refused by the native side, and an earlier one was not. */
  predicate Refused(calls: seq<Call>) {
    exists i | 0 <= i < |calls| ::
      calls[i] == OnRequestDone(false) && Registered(calls[..i])
      && forall j | i < j < |calls| :: !calls[j].OnRequestDone?
  }

  predicate Registered(calls: seq<Call>) {
    OnRequestDone(true) in calls
  }

  lemma RefusedStep(front: seq<Call>, last: Call)
    ensures Registered(front + [last]) <==> Registered(front) || last == OnRequestDone(true)
    ensures Refused(front + [last]) <==>
              if last.OnRequestDone? then !last.took && Registered(front) else Refused(front)
  {
    var calls, n := front + [last], |front|;
    assert calls[n] == last && calls[..n] == front;
    forall i | 0 <= i < n ensures calls[i] == front[i] && calls[..i] == front[..i] {}
    if Refused(front) && !last.OnRequestDone? {
      var i :| 0 <= i < n && front[i] == OnRequestDone(false) && Registered(front[..i])
               && forall j | i < j < n :: !front[j].OnRequestDone?;
      assert calls[i] == OnRequestDone(false) && Registered(calls[..i]);
    }
    if last == OnRequestDone(false) && Registered(front) {
      assert Registered(calls[..n]);
    }
  }

  /** The registered callback is a live box except after a refused replacement, because
      the old box is freed before the native side has let go of it. */
  lemma {:induction false} HookLiveIff(calls: seq<Call>)
    requires LegalRun(calls) && !Exec(calls).stage.Gone?
    ensures HookLive(Exec(calls)) <==> !Refused(calls)
    ensures Exec(calls).hook.Some? <==> Registered(calls)
  {
    hide Refused, Registered, BoxesOwned, CacheOwned;
    if calls == [] {
      NothingRegistered();
    } else {
      var front, last := calls[..|calls| - 1], calls[|calls| - 1];
      assert calls == front + [last];
      RefusedStep(front, last);
      NotGone(Exec(front), last);
      HookLiveIff(front);
      RunKeeps(front);
      HookStep(Exec(front), last);
    }
  }

  lemma NothingRegistered()
    ensures !Refused([]) && !Registered([])
  {
  }

  lemma NotGone(s: State, call: Call)
    requires !Apply(s, call).stage.Gone? && Legal(s, call)
    ensures !s.stage.Gone?
  {
    hide CacheHeld, HookLive;
  }

  lemma HookStep(s: State, call: Call)
    requires Legal(s, call) && BoxesOwned(s) && !Apply(s, call).stage.Gone?
    ensures var s' := Apply(s, call);
            if call.OnRequestDone?
            then HookLive(s') == (call.took || s.hook.None?) && s'.hook.Some? == (call.took || s.hook.Some?)
            else HookLive(s') == HookLive(s) && s'.hook == s.hook
  {
    hide CacheHeld;
  }

  /** A call during which the native side may fire its callback. */
  predicate MayFire(call: Call) {
    call.Tick? || call.DropClient?
  }

  /** Every demand is met throughout a run exactly when no refused replacement is followed
      by a tick or the drop before the next accepted one. */
  lemma {:induction false} SoundIff(calls: seq<Call>)
    requires LegalRun(calls)
    ensures Exec(calls).sound <==> forall i | 0 <= i < |calls| && MayFire(calls[i]) :: !Refused(calls[..i])
  {
    hide Refused, Registered, Apply, MayFire, HookLive, Legal;
    if calls != [] {
      var front, last := calls[..|calls| - 1], calls[|calls| - 1];
      SoundIff(front);
      forall i | 0 <= i < |front| ensures calls[i] == front[i] && calls[..i] == front[..i] {}
      assert calls[..|front|] == front;
      RunKeeps(front);
      SoundStep(Exec(front), last);
      if MayFire(last) {
        FiresWhileOpen(Exec(front), last);
        HookLiveIff(front);
      }
    }
  }

  lemma FiresWhileOpen(s: State, call: Call)
    requires Legal(s, call) && MayFire(call)
    ensures !s.stage.Gone?
  {
  }

  lemma SoundStep(s: State, call: Call)
    requires Legal(s, call) && Inv(s)
    ensures Apply(s, call).sound <==> s.sound && (MayFire(call) ==> HookLive(s))
  {
    if s.borrowed.Some? && s.closes == 0 {
      assert Held(Cell, s.borrowed.value) in s.held;
    }
    match call {
      case SetCache(n, cache, ok) => SetCacheSound(s, n, cache, ok);
      case OnRequestDone(took) =>
      case DropClient =>
      case DropCache(n, cache) =>
        assert s.closes == 0 && s.borrowed.Some? ==>
                 Held(Cell, s.borrowed.value) in s.held - {Held(App(n), cache)};
      case _ =>
    }
  }

  lemma SetCacheSound(s: State, n: nat, cache: Option<CacheId>, ok: bool)
    requires Legal(s, SetCache(n, cache, ok)) && Inv(s)
    ensures AfterSetCache(s, n, cache, ok).sound == s.sound
  {
  }

  /** A refused replacement, then a tick: the freed box would be called. */
  lemma RefusedReplacementDangles()
    ensures var calls := [IntoClient, OnRequestDone(true), OnRequestDone(false), Tick];
            LegalRun(calls) && !Exec(calls).sound
  {
    var one: seq<Call> := [IntoClient];
    var two, three := one + [OnRequestDone(true)], one + [OnRequestDone(true), OnRequestDone(false)];
    var four := three + [Tick];
    assert one[..0] == [] && two[..1] == one && three[..2] == two && four[..3] == three;
    assert LegalRun(one) && Exec(one) == Apply(Init(), IntoClient);
    assert LegalRun(two) && Exec(two) == Apply(Exec(one), OnRequestDone(true));
    assert LegalRun(three) && Exec(three) == Apply(Exec(two), OnRequestDone(false));
    assert four == [IntoClient, OnRequestDone(true), OnRequestDone(false), Tick];
  }
}
