/** `Connecting` and `Client` as objects that change their cells in place, each method
    proved to be the lifecycle's call of that name. */
module ClientOwner {
  import opened Wire
  import opened ClientLifecycle

  /** One native connection, with the boxes and cache references around it. */
  class Native {
    var closes: nat
    var hook: Option<BoxId>
    var borrowed: Option<CacheId>
    var boxes: nat
    var live: set<BoxId>
    var freed: multiset<BoxId>
    var held: set<Held>
    ghost var sound: bool
    /** What the native calls that return a code gave back, in order. */
    ghost var codes: seq<bool>

    /** The state but for what the handle itself keeps. */
    ghost function Part(): State
      reads this
    {
      State(Connecting, None, None, closes, hook, borrowed, boxes, live, freed, held, sound)
    }

    constructor ()
      ensures Part() == Init() && codes == []
    {
      closes, hook, borrowed, boxes, live, freed, held, sound := 0, None, None, 0, {}, multiset{}, {}, true;
      codes := [];
    }

    method TickClient() returns (ok: bool)
      modifies this
      ensures Part() == Drive(old(Part())) && codes == old(codes) + [ok]
    {
      sound := sound && closes == 0 && HookLive(Part()) && CacheHeld(borrowed, held);
      ok := *;
      codes := codes + [ok];
    }

    /** Callbacks may fire until it returns; it returns no code. */
    method CloseClient()
      modifies this
      ensures Part() == Close(old(Part())) && codes == old(codes)
    {
      sound := sound && closes == 0 && HookLive(Part()) && CacheHeld(borrowed, held);
      closes := closes + 1;
    }

    method NewBox() returns (box: BoxId)
      modifies this
      ensures box == old(boxes) && codes == old(codes)
      ensures Part() == old(Part()).(boxes := old(boxes) + 1, live := old(live) + {box})
    {
      box := boxes;
      boxes, live := boxes + 1, live + {box};
    }

    method FreeBox(box: BoxId)
      modifies this
      ensures Part() == Free(old(Part()), box) && codes == old(codes)
    {
      sound := sound && box in live;
      live, freed := live - {box}, freed + multiset{box};
    }

    /** `nwep_client_set_request_done`. */
    method SetRequestDone(box: BoxId) returns (took: bool)
      modifies this
      ensures Part() == if took then old(Part()).(hook := Some(box)) else old(Part())
      ensures codes == old(codes) + [took]
    {
      took := *;
      codes := codes + [took];
      if took {
        hook := Some(box);
      }
    }

    /** `nwep_client_set_cache`. */
    method AttachCache(cache: Option<CacheId>) returns (ok: bool)
      modifies this
      ensures Part() == if ok then old(Part()).(borrowed := cache) else old(Part())
      ensures codes == old(codes) + [ok]
    {
      ok := *;
      codes := codes + [ok];
      if ok {
        borrowed := cache;
      }
    }

    method MoveRc(from: Holder, to: Holder, cache: Option<CacheId>)
      modifies this
      ensures Part() == MoveOpt(old(Part()), from, to, cache) && codes == old(codes)
    {
      if cache.Some? {
        sound := sound && Held(from, cache.value) in held;
        held := held - {Held(from, cache.value)} + {Held(to, cache.value)};
      }
    }

    method DropRc(owner: Holder, cache: Option<CacheId>)
      modifies this
      ensures Part() == ReleaseOpt(old(Part()), owner, cache) && codes == old(codes)
    {
      if cache.Some? {
        var rest := held - {Held(owner, cache.value)};
        sound := sound && Held(owner, cache.value) in held && (closes == 0 ==> CacheHeld(borrowed, rest));
        held := rest;
      }
    }
  }

  /** The handle's own fields laid over the native part. */
  function Dress(p: State, stage: Stage, cell: Option<CacheId>, done: Option<BoxId>): State {
    p.(stage := stage, cell := cell, done := done)
  }

  lemma DressMove(p: State, g: Stage, cell: Option<CacheId>, done: Option<BoxId>,
                  from: Holder, to: Holder, cache: Option<CacheId>)
    ensures MoveOpt(Dress(p, g, cell, done), from, to, cache) == Dress(MoveOpt(p, from, to, cache), g, cell, done)
  {
  }

  lemma DressRelease(p: State, g: Stage, cell: Option<CacheId>, done: Option<BoxId>,
                     owner: Holder, cache: Option<CacheId>)
    ensures ReleaseOpt(Dress(p, g, cell, done), owner, cache) == Dress(ReleaseOpt(p, owner, cache), g, cell, done)
  {
    hide CacheHeld;
  }

  lemma DressFreeClosed(p: State, g: Stage, cell: Option<CacheId>, done: Option<BoxId>)
    ensures FreeOpt(Close(Dress(p, g, cell, done)), done) == Dress(FreeOpt(Close(p), done), g, cell, done)
  {
    hide CacheHeld;
  }

  class Connecting {
    const raw: Native

    ghost function View(): State
      reads raw
    {
      raw.Part()
    }

    /** `start_connect`. */
    constructor (raw: Native)
      requires raw.Part() == Init()
      ensures this.raw == raw && View() == Init()
    {
      this.raw := raw;
    }

    method TickIt() returns (ok: bool)
      modifies raw
      ensures View() == Apply(old(View()), ConnectingTick) && raw.codes == old(raw.codes) + [ok]
    {
      ok := raw.TickClient();
    }

    /** `into_client`: the connection moves; this handle's drop does not run. */
    method ToClient() returns (c: Client)
      ensures fresh(c) && c.raw == raw && c.View(true) == Apply(View(), IntoClient)
    {
      c := new Client(raw);
    }

    method Drop()
      modifies raw
      ensures View().(stage := Gone) == Apply(old(View()), DropConnecting)
    {
      raw.CloseClient();
    }
  }

  class Client {
    const raw: Native
    var cache: Option<CacheId>
    var done: Option<BoxId>

    ghost function View(owned: bool): State
      reads this, raw
    {
      Dress(raw.Part(), if owned then Connected else Gone, cache, done)
    }

    /** `Client::wrap`. */
    constructor (raw: Native)
      ensures this.raw == raw && cache == None && done == None
    {
      this.raw, cache, done := raw, None, None;
    }

    method TickIt() returns (ok: bool)
      modifies raw
      ensures View(true) == Apply(old(View(true)), ClientLifecycle.Tick) && raw.codes == old(raw.codes) + [ok]
    {
      hide CacheHeld;
      ok := raw.TickClient();
    }

    method SetCache(n: nat, arg: Option<CacheId>) returns (ok: bool)
      modifies this, raw
      ensures View(true) == Apply(old(View(true)), ClientLifecycle.SetCache(n, arg, ok))
      ensures raw.codes == old(raw.codes) + [ok]
    {
      hide MoveOpt, ReleaseOpt;
      ghost var p, g := raw.Part(), Connected;
      DressMove(p, g, cache, done, App(n), Arg, arg);
      DressRelease(MoveOpt(p, App(n), Arg, arg), g, cache, done, Arg, arg);
      raw.MoveRc(App(n), Arg, arg);
      ok := raw.AttachCache(arg);
      if !ok {
        raw.DropRc(Arg, arg);
        return;
      }
      var last := cache;
      p := raw.Part();
      DressMove(p, g, last, done, Cell, Old, last);
      DressMove(MoveOpt(p, Cell, Old, last), g, last, done, Arg, Cell, arg);
      DressRelease(MoveOpt(MoveOpt(p, Cell, Old, last), Arg, Cell, arg), g, arg, done, Old, last);
      raw.MoveRc(Cell, Old, last);
      raw.MoveRc(Arg, Cell, arg);
      cache := arg;
      raw.DropRc(Old, last);
    }

    method RequestDone() returns (ghost took: bool)
      modifies this, raw
      ensures View(true) == Apply(old(View(true)), OnRequestDone(took))
      ensures raw.codes == old(raw.codes) + [took]
    {
      hide CacheHeld;
      var prev := done;
      done := None;
      if prev.Some? {
        raw.FreeBox(prev.value);
      }
      var boxed := raw.NewBox();
      took := raw.SetRequestDone(boxed);
      done := Some(boxed);
    }

    method Drop()
      modifies this, raw
      ensures View(false) == Apply(old(View(true)), DropClient) && raw.codes == old(raw.codes)
    {
      hide CacheHeld, ReleaseOpt, Close;
      ghost var p := raw.Part();
      DressFreeClosed(p, Connected, cache, done);
      DressRelease(FreeOpt(Close(p), done), Connected, cache, None, Cell, cache);
      raw.CloseClient();
      var prev := done;
      done := None;
      if prev.Some? {
        raw.FreeBox(prev.value);
      }
      var last := cache;
      cache := None;
      raw.DropRc(Cell, last);
    }
  }
}
