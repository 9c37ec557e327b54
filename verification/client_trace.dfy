/** A client's cells and the native side's registrations against the calls made so far: what
    they hold is what the last call that could set them left there. */
module ClientTrace {
  import opened Wire
  import opened ClientLifecycle

  /** The argument of the last attach that the native side took. */
  function LastAttached(calls: seq<Call>): Option<CacheId> {
    if calls == [] then None
    else
      var last := calls[|calls| - 1];
      if last.SetCache? && last.ok then last.arg else LastAttached(calls[..|calls| - 1])
  }

  /** The hooks ever given: each is boxed, and the box named by how many came before. */
  function Hooks(calls: seq<Call>): nat {
    if calls == [] then 0
    else Hooks(calls[..|calls| - 1]) + if calls[|calls| - 1].OnRequestDone? then 1 else 0
  }

  /** The box of the last registration that the native side took. */
  function LastTaken(calls: seq<Call>): Option<BoxId> {
    if calls == [] then None
    else
      var front := calls[..|calls| - 1];
      if calls[|calls| - 1] == OnRequestDone(true) then Some(Hooks(front)) else LastTaken(front)
  }

  /** What a call leaves of a variable's reference. */
  predicate HasAfter(call: Call, n: nat, cache: CacheId, before: bool) {
    match call
    case NewCache(m, c) => before || (m == n && c == cache)
    case CloneCache(_, m, c) => before || (m == n && c == cache)
    case SetCache(m, arg, _) => before && !(m == n && arg == Some(cache))
    case DropCache(m, c) => before && !(m == n && c == cache)
    case _ => before
  }

  /** A variable of the application still has its reference to a cache: it got one by making
      or cloning, and since then has neither passed it nor dropped it. */
  predicate AppHas(calls: seq<Call>, n: nat, cache: CacheId) {
    calls != []
    && HasAfter(calls[|calls| - 1], n, cache, AppHas(calls[..|calls| - 1], n, cache))
  }

  /** What one call does to the fields. */
  ghost predicate FieldsFollow(s: State, call: Call, t: State) {
    && (t.stage.Connected? ==> s.stage.Connected? || call.IntoClient?)
    && (t.stage.Gone? <==> s.stage.Gone? || call.DropClient? || call.DropConnecting?)
    && (t.stage.Connecting? <==> s.stage.Connecting? && !call.IntoClient? && !call.DropConnecting?)
    && t.boxes == s.boxes + (if call.OnRequestDone? then 1 else 0)
    && t.hook == (if call == OnRequestDone(true) then Some(s.boxes) else s.hook)
    && t.borrowed == (if call.SetCache? && call.ok then call.arg else s.borrowed)
    && (t.stage.Connected? && !call.IntoClient? ==>
          && t.cell == (if call.SetCache? && call.ok then call.arg else s.cell)
          && t.done == if call.OnRequestDone? then Some(s.boxes) else s.done)
  }

  lemma SetCacheFields(s: State, n: nat, arg: Option<CacheId>, ok: bool)
    requires s.stage.Connected?
    ensures FieldsFollow(s, SetCache(n, arg, ok), AfterSetCache(s, n, arg, ok))
  {
    hide CacheHeld;
  }

  lemma RequestDoneFields(s: State, took: bool)
    requires s.stage.Connected?
    ensures FieldsFollow(s, OnRequestDone(took), AfterOnRequestDone(s, took))
  {
  }

  lemma DropFields(s: State)
    requires s.stage.Connected?
    ensures FieldsFollow(s, DropClient, AfterDrop(s))
  {
    hide CacheHeld, HookLive;
  }

  lemma FieldsStep(s: State, call: Call)
    requires Legal(s, call)
    ensures FieldsFollow(s, call, Apply(s, call))
  {
    hide HookLive, CacheHeld, AfterSetCache, AfterOnRequestDone, AfterDrop;
    match call {
      case SetCache(n, arg, ok) => SetCacheFields(s, n, arg, ok);
      case OnRequestDone(took) => RequestDoneFields(s, took);
      case DropClient => DropFields(s);
      case _ =>
    }
  }

  /** Over every legal run: the handle's stage is what was called; the cell of an open client
      and the native side's borrow are the last cache attached with success; as many boxes
      were made as hooks were given, the last of them is the client's own, and the native
      side has that of the last registration it took. */
  lemma {:induction false} FieldsAreCalls(calls: seq<Call>)
    requires LegalRun(calls)
    ensures var s := Exec(calls);
      && (s.stage.Gone? <==> exists call <- calls :: call.DropClient? || call.DropConnecting?)
      && (s.stage.Connecting? <==> forall call <- calls :: !call.IntoClient? && !call.DropConnecting?)
      && s.borrowed == LastAttached(calls) && (s.stage.Connected? ==> s.cell == LastAttached(calls))
      && s.boxes == Hooks(calls) && s.hook == LastTaken(calls)
      && (s.stage.Connected? ==> s.done == if Hooks(calls) == 0 then None else Some(Hooks(calls) - 1))
      && (s.stage.Connecting? ==> LastAttached(calls) == None && Hooks(calls) == 0)
  {
    hide Apply;
    if calls != [] {
      var front, last := calls[..|calls| - 1], calls[|calls| - 1];
      FieldsAreCalls(front);
      assert calls == front + [last];
      IntoEmpty(Exec(front), last);
      FieldsStep(Exec(front), last);
    }
  }

  lemma IntoEmpty(s: State, call: Call)
    requires Legal(s, call)
    ensures call.IntoClient? ==> s.stage.Connecting? && Apply(s, call).cell == None && Apply(s, call).done == None
    ensures call.SetCache? || call.OnRequestDone? ==> s.stage.Connected?
  {
  }

  lemma SetCacheHolds(s: State, m: nat, arg: Option<CacheId>, ok: bool, n: nat, cache: CacheId)
    ensures Held(App(n), cache) in AfterSetCache(s, m, arg, ok).held
            <==> Held(App(n), cache) in s.held && !(m == n && arg == Some(cache))
  {
    hide CacheHeld;
  }

  lemma HoldsStep(s: State, call: Call, n: nat, cache: CacheId)
    requires Legal(s, call)
    ensures Held(App(n), cache) in Apply(s, call).held <==> HasAfter(call, n, cache, Held(App(n), cache) in s.held)
  {
    hide HookLive, CacheHeld, AfterSetCache;
    match call {
      case SetCache(m, arg, ok) => SetCacheHolds(s, m, arg, ok, n, cache);
      case _ =>
    }
  }

  /** Over every legal run the application's variables hold exactly the references it made
      and has not passed or dropped: an attach takes its argument whether or not it
      succeeds, and nothing else takes or returns one. */
  lemma {:induction false} ReferencesAreCalls(calls: seq<Call>, n: nat, cache: CacheId)
    requires LegalRun(calls)
    ensures Held(App(n), cache) in Exec(calls).held <==> AppHas(calls, n, cache)
  {
    hide Apply, Legal;
    if calls != [] {
      var front, last := calls[..|calls| - 1], calls[|calls| - 1];
      ReferencesAreCalls(front, n, cache);
      HoldsStep(Exec(front), last, n, cache);
    }
  }
}
