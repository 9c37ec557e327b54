/** The handler box and the native handle of a driven server, from the half-built server to
    its drop. The demands on the handle and its box are those of a client's, without a cache. */
module ServerLifecycle {
  import opened Wire
  import opened ClientLifecycle

  /** A freshly bound server: an open handle with no callback box and no cache. */
  function Listening(): State {
    Init()
  }

  function Box(s: State): State {
    s.(boxes := s.boxes + 1, live := s.live + {s.boxes})
  }

  /** A built server's own `handler` field, or the error that unwound the build. */
  type Built = Result<Option<BoxId>>

  class NativeServer {
    var closes: nat
    var hook: Option<BoxId>
    var boxes: nat
    var live: set<BoxId>
    var freed: multiset<BoxId>
    ghost var sound: bool
    /** The errors with which handlers were refused. */
    ghost var refusals: seq<Error>
    /** The ticks made. */
    ghost var ticks: nat

    ghost function View(): State
      reads this
    {
      State(Stage.Connecting, None, None, closes, hook, None, boxes, live, freed, {}, sound)
    }

    constructor ()
      ensures View() == Listening() && refusals == [] && ticks == 0
    {
      closes, hook, boxes, live, freed, sound, refusals, ticks := 0, None, 0, {}, multiset{}, true, [], 0;
    }

    method TickServer()
      modifies this
      ensures View() == Drive(old(View())) && refusals == old(refusals) && ticks == old(ticks) + 1
    {
      sound := sound && closes == 0 && (hook.Some? ==> hook.value in live);
      ticks := ticks + 1;
    }

    method CloseServer()
      modifies this
      ensures View() == Close(old(View())) && refusals == old(refusals) && ticks == old(ticks)
    {
      sound := sound && closes == 0 && (hook.Some? ==> hook.value in live);
      closes := closes + 1;
    }

    method NewBox() returns (box: BoxId)
      modifies this
      ensures box == old(boxes) && View() == Box(old(View()))
      ensures refusals == old(refusals) && ticks == old(ticks)
    {
      box := boxes;
      boxes, live := boxes + 1, live + {box};
    }

    method FreeBox(box: BoxId)
      modifies this
      ensures View() == Free(old(View()), box) && refusals == old(refusals) && ticks == old(ticks)
    {
      sound := sound && box in live;
      live, freed := live - {box}, freed + multiset{box};
    }

    method SetHandler(box: BoxId) returns (failure: Option<Error>)
      modifies this
      ensures View() == if failure.None? then old(View()).(hook := Some(box)) else old(View())
      ensures ticks == old(ticks)
      ensures refusals == if failure.Some? then old(refusals) + [failure.value] else old(refusals)
    {
      var refused: bool, e: Error := *, *;
      if refused {
        refusals := refusals + [e];
        return Some(e);
      }
      hook := Some(box);
      failure := None;
    }
  }

  /** What a server owns while it is held: the open handle, and its handler box live and
      the only one. */
  ghost predicate Owned(s: State, handler: Option<BoxId>) {
    && s.sound && s.closes == 0 && s.hook == handler && s.borrowed == None
    && s.live == (if handler.Some? then {handler.value} else {})
    && s.boxes == (if handler.Some? then 1 else 0) && (handler.Some? ==> handler.value == 0)
    && s.freed == multiset{}
  }

  /** What is left behind: the handle closed once and every box made freed exactly once,
      with no demand broken on the way. */
  ghost predicate Settled(s: State) {
    && s.sound && s.closes == 1 && s.live == {}
    && forall b: BoxId :: s.freed[b] == if b < s.boxes then 1 else 0
  }

  /** `finish_build` on a freshly bound handle: a refused handler frees the box, closes
      the handle and reports the refusal, which is the only way it fails. */
  method FinishBuild(raw: NativeServer, handler: bool) returns (r: Built)
    requires raw.View() == Listening()
    modifies raw
    ensures r.Ok? ==> Owned(raw.View(), r.value) && (r.value.Some? <==> handler)
    ensures r.Err? ==> handler && Settled(raw.View())
    ensures raw.ticks == old(raw.ticks)
    ensures raw.refusals == if r.Err? then old(raw.refusals) + [r.error] else old(raw.refusals)
  {
    var handlerPtr: Option<BoxId> := None;
    if handler {
      var boxed := raw.NewBox();
      var failure := raw.SetHandler(boxed);
      if failure.Some? {
        raw.FreeBox(boxed);
        raw.CloseServer();
        return Err(failure.value);
      }
      handlerPtr := Some(boxed);
    }
    r := Ok(handlerPtr);
  }

  class Server {
    const raw: NativeServer
    const handler: Option<BoxId>

    ghost predicate Valid()
      reads raw
    {
      Owned(raw.View(), handler)
    }

    constructor (raw: NativeServer, handler: Option<BoxId>)
      requires Owned(raw.View(), handler)
      ensures Valid() && this.raw == raw && this.handler == handler
    {
      this.raw, this.handler := raw, handler;
    }

    method TickIt()
      requires Valid()
      modifies raw
      ensures Valid() && raw.refusals == old(raw.refusals) && raw.ticks == old(raw.ticks) + 1
    {
      raw.TickServer();
    }

    /** Close first, then free the handler's box. */
    method Drop()
      requires Valid()
      modifies raw
      ensures Settled(raw.View()) && raw.refusals == old(raw.refusals) && raw.ticks == old(raw.ticks)
    {
      raw.CloseServer();
      if handler.Some? {
        raw.FreeBox(handler.value);
      }
    }
  }

  /** A server's whole life, with any handler and any number of ticks: whether the build
      fails or the server is dropped, everything is settled. */
  method Lifetime(handler: bool, ticks: nat) returns (raw: NativeServer, built: Built)
    ensures Settled(raw.View())
    ensures raw.refusals == if built.Err? then [built.error] else []
    ensures raw.ticks == if built.Ok? then ticks else 0
  {
    raw := new NativeServer();
    built := FinishBuild(raw, handler);
    if built.Ok? {
      var s := new Server(raw, built.value);
      for i := 0 to ticks
        invariant s.Valid() && s.raw == raw && fresh(raw) && raw.refusals == [] && raw.ticks == i
      {
        s.TickIt();
      }
      s.Drop();
    }
  }

  /** Both ways out settle whatever was made, and neither order may be changed: freeing a
      registered handler before the close is a broken demand. */
  lemma OrderMatters(s: State, handler: BoxId)
    requires Owned(s, Some(handler))
    ensures Settled(Free(Close(s), handler)) && !Close(Free(s, handler)).sound
  {
  }
}
