/** The native calls and clock readings of a server's owner thread. Each call is recorded
    in order, and the record must explain the state the calls left. */
module Node {
  import opened Announce
  import opened Wire

  type NodeId = nat
  type Address = nat

  /** A discovery record: the node it is for and where that node listens. */
  datatype Record = Record(node: NodeId, address: Address)

  datatype Side = ServerSide | DhtSide

  /** One call and what it gave back. A tick leaves the dht with some store of records. */
  datatype Act =
    | Ticked(side: Side, failure: Option<Error>, records: map<NodeId, Address>)
    | Looked(target: NodeId, hit: Option<Record>)
    | Started(target: NodeId, failure: Option<Error>)
    | Clock(at: int)
    | WallClock(secs: Secs)
    | Timer(side: Side, due: Option<nat>)
    | Waited(ms: nat)
    | Announced(secs: Secs)
    | Counted(snapshot: nat)

  /** What the calls depend on: the records stored, the lookups started, the clock. */
  datatype World = World(records: map<NodeId, Address>, lookups: seq<NodeId>, clock: int)

  function Stored(records: map<NodeId, Address>, target: NodeId): Option<Record> {
    if target in records then Some(Record(target, records[target])) else None
  }

  /** A look finds the target's own record when one is stored; the clock advances. */
  predicate Possible(w: World, act: Act) {
    match act
    case Looked(target, hit) => hit == Stored(w.records, target)
    case Clock(at) => at > w.clock
    case _ => true
  }

  function After(w: World, act: Act): World {
    match act
    case Ticked(_, _, records) => w.(records := records)
    case Started(target, failure) => if failure.None? then w.(lookups := w.lookups + [target]) else w
    case Clock(at) => w.(clock := at)
    case _ => w
  }

  /** The world after a list of calls, none if they could not have gone that way. */
  function Replay(acts: seq<Act>): Option<World> {
    if acts == [] then Some(World(map[], [], 0))
    else
      var w := Replay(acts[..|acts| - 1]);
      var act := acts[|acts| - 1];
      if w.Some? && Possible(w.value, act) then Some(After(w.value, act)) else None
  }

  class NativeNode {
    var world: World
    ghost var acts: seq<Act>

    ghost predicate Valid()
      reads this
    {
      Replay(acts) == Some(world)
    }

    constructor ()
      ensures Valid() && acts == []
    {
      world, acts := World(map[], [], 0), [];
    }

    method Do(act: Act)
      requires Valid() && Possible(world, act)
      modifies this
      ensures Valid() && acts == old(acts) + [act] && world == After(old(world), act)
    {
      ghost var all := acts + [act];
      assert all[..|all| - 1] == acts;
      world, acts := After(world, act), all;
    }

    /** `server.tick` or `dht.tick`. */
    method Tick(side: Side) returns (failure: Option<Error>)
      requires Valid()
      modifies this
      ensures Valid() && acts == old(acts) + [Ticked(side, failure, world.records)]
      ensures world == old(world).(records := world.records)
    {
      failure := *;
      var records: map<NodeId, Address> := *;
      Do(Ticked(side, failure, records));
    }

    /** `dht.lookup_result`. */
    method LookupResult(target: NodeId) returns (hit: Option<Record>)
      requires Valid()
      modifies this
      ensures Valid() && acts == old(acts) + [Looked(target, hit)]
      ensures world == old(world) && hit == Stored(world.records, target)
    {
      hit := Stored(world.records, target);
      Do(Looked(target, hit));
    }

    /** `dht.start_lookup`. */
    method StartLookup(target: NodeId) returns (failure: Option<Error>)
      requires Valid()
      modifies this
      ensures Valid() && acts == old(acts) + [Started(target, failure)]
      ensures world == After(old(world), Started(target, failure))
    {
      failure := *;
      Do(Started(target, failure));
    }

    /** `Instant::now()`, on a clock that advances between readings. */
    method Now() returns (at: int)
      requires Valid()
      modifies this
      ensures Valid() && acts == old(acts) + [Clock(at)]
      ensures at > old(world.clock) && world == old(world).(clock := at)
    {
      at := *;
      at := if at > world.clock then at else world.clock + 1;
      Do(Clock(at));
    }

    /** `now_secs()`, a clock anyone may set. */
    method NowSecs() returns (secs: Secs)
      requires Valid()
      modifies this
      ensures Valid() && acts == old(acts) + [WallClock(secs)] && world == old(world)
    {
      secs := *;
      Do(WallClock(secs));
    }

    /** `next_timeout` of the server or of the dht. */
    method NextTimeout(side: Side) returns (ms: Option<nat>)
      requires Valid()
      modifies this
      ensures Valid() && acts == old(acts) + [Timer(side, ms)] && world == old(world)
    {
      var armed: bool, timer: nat := *, *;
      ms := if armed then Some(timer) else None;
      Do(Timer(side, ms));
    }

    method WaitReadable(ms: nat)
      requires Valid()
      modifies this
      ensures Valid() && acts == old(acts) + [Waited(ms)] && world == old(world)
    {
      Do(Waited(ms));
    }

    /** `dht.announce`; its result is not looked at. */
    method Announce(secs: Secs)
      requires Valid()
      modifies this
      ensures Valid() && acts == old(acts) + [Announced(secs)] && world == old(world)
    {
      Do(Announced(secs));
    }

    method Metrics() returns (snapshot: nat)
      requires Valid()
      modifies this
      ensures Valid() && acts == old(acts) + [Counted(snapshot)] && world == old(world)
    {
      snapshot := *;
      Do(Counted(snapshot));
    }
  }
}
