/** The cross-thread waker: one signal, kept by an eventfd counter or by the receive
    queue of a socket connected to itself. */
module Waker {

  /** What a waker holds after a wake. A wake is lost only on a full buffer. */
  function Woken(held: nat, lost: bool): nat {
    if lost then held else held + 1
  }

  predicate MayLose(held: nat) {
    held > 0
  }

  /** What a read may leave: less than it found. */
  predicate MayLeave(held: nat, left: nat) {
    held > 0 ==> left < held
  }

  /** The largest value an eventfd counter takes. */
  const COUNTER_MAX: nat := 0xFFFF_FFFF_FFFF_FFFE

  datatype Kind = Eventfd | Datagrams(capacity: nat) {
    /** The most wakes the kernel keeps. */
    function Limit(): nat {
      if Eventfd? then COUNTER_MAX else capacity
    }

    /** A read takes the whole counter, or one datagram. */
    function Left(held: nat): nat {
      if Eventfd? || held == 0 then 0 else held - 1
    }
  }

  datatype Event = Wake | Read

  function Step(kind: Kind, held: nat, e: Event): nat {
    match e
    case Wake => Woken(held, held >= kind.Limit())
    case Read => kind.Left(held)
  }

  /** What a waker holds after any interleaving of wakes and reads. */
  function Run(kind: Kind, held: nat, events: seq<Event>): nat {
    if events == [] then held
    else Step(kind, Run(kind, held, events[..|events| - 1]), events[|events| - 1])
  }

  /** Read i found something. */
  predicate Consumes(kind: Kind, held: nat, events: seq<Event>, i: nat)
    requires i < |events|
  {
    events[i].Read? && Run(kind, held, events[..i]) > 0
  }

  predicate WakeIn(events: seq<Event>, lo: nat, hi: nat)
    requires lo <= hi <= |events|
  {
    exists w :: lo <= w < hi && events[w].Wake?
  }

  /** Both kinds meet the step system's contract for the waker. */
  lemma KindsAreWakers(kind: Kind, held: nat)
    requires kind.Limit() > 0
    ensures Step(kind, held, Wake) > 0
    ensures exists lost :: Step(kind, held, Wake) == Woken(held, lost) && (lost ==> MayLose(held))
    ensures MayLeave(held, Step(kind, held, Read))
  {
    assert Step(kind, held, Wake) == Woken(held, held >= kind.Limit());
  }

  /** While no read consumes, the signal is set exactly when it was or a wake came. */
  lemma {:induction false} SetSince(kind: Kind, held: nat, events: seq<Event>, lo: nat, hi: nat)
    requires kind.Limit() > 0 && lo <= hi <= |events|
    requires forall i | lo <= i < hi :: !Consumes(kind, held, events, i)
    ensures Run(kind, held, events[..hi]) > 0 <==> Run(kind, held, events[..lo]) > 0 || WakeIn(events, lo, hi)
    decreases hi
  {
    if lo < hi {
      SetSince(kind, held, events, lo, hi - 1);
      assert events[..hi][..hi - 1] == events[..hi - 1];
      assert !Consumes(kind, held, events, hi - 1);
      assert events[hi - 1].Wake? ==> WakeIn(events, lo, hi);
      assert WakeIn(events, lo, hi) ==> WakeIn(events, lo, hi - 1) || events[hi - 1].Wake?;
    }
  }

  /** A finished drain: read r found nothing, and no read from `lo` on consumes, where `lo`
      is right after the last read that did, or the start. Afterwards the signal is set
      exactly when a wake came from `lo` on, which then came after read r. */
  lemma DrainVerdict(kind: Kind, held: nat, events: seq<Event>, lo: nat, r: nat)
    requires kind.Limit() > 0 && lo <= r < |events|
    requires lo == 0 || Consumes(kind, held, events, lo - 1)
    requires forall i | lo <= i < |events| :: !Consumes(kind, held, events, i)
    requires events[r].Read?
    ensures Run(kind, held, events) > 0 <==> WakeIn(events, lo, |events|)
    ensures !WakeIn(events, lo, r)
  {
    assert !Consumes(kind, held, events, r);
    SetSince(kind, held, events, lo, r);
    SetSince(kind, held, events, lo, |events|);
    assert events[..|events|] == events;
  }

  // A drain against given wakes

  function Wakes(n: nat): seq<Event> {
    seq(n, i => Wake)
  }

  /** The wakes due before the k-th read. */
  function DueAt(storm: seq<nat>, k: nat): nat {
    if k < |storm| then storm[k] else 0
  }

  /** n reads, each with the wakes due before it. */
  function Storm(storm: seq<nat>, n: nat): seq<Event> {
    if n == 0 then [] else Storm(storm, n - 1) + Wakes(DueAt(storm, n - 1)) + [Read]
  }

  /** Every read so far found something. */
  ghost predicate AllFound(kind: Kind, held: nat, events: seq<Event>) {
    forall i | 0 <= i < |events| && events[i].Read? :: Consumes(kind, held, events, i)
  }

  /** A whole drain: n reads of which all but the last found something, with exactly the
      wakes given, those of `after` once the last read had failed. */
  ghost predicate Drained(kind: Kind, held: nat, storm: seq<nat>, after: nat, n: nat, events: seq<Event>) {
    && n > 0 && events == Storm(storm, n) + Wakes(after)
    && AllFound(kind, held, Storm(storm, n - 1))
    && Run(kind, held, Storm(storm, n - 1) + Wakes(DueAt(storm, n - 1))) == 0
  }

  /** Where the last read begins: the wakes since the last one that found something. */
  function LastRead(storm: seq<nat>, n: nat): nat
    requires n > 0
  {
    |Storm(storm, n - 1)|
  }

  lemma {:induction false} RunOn(kind: Kind, held: nat, a: seq<Event>, b: seq<Event>)
    ensures Run(kind, held, a + b) == Run(kind, Run(kind, held, a), b)
  {
    if b == [] {
      assert a + b == a;
    } else {
      assert (a + b)[..|a + b| - 1] == a + b[..|b| - 1];
      RunOn(kind, held, a, b[..|b| - 1]);
    }
  }

  lemma FoundOn(kind: Kind, held: nat, events: seq<Event>, k: nat)
    requires AllFound(kind, held, events) && Run(kind, held, events + Wakes(k)) > 0
    ensures AllFound(kind, held, events + Wakes(k) + [Read])
  {
    var woken := events + Wakes(k);
    var all := woken + [Read];
    forall i | 0 <= i < |all| && all[i].Read? ensures Consumes(kind, held, all, i) {
      if i < |events| {
        assert events[i].Read? && all[..i] == events[..i];
        assert Consumes(kind, held, events, i);
      } else {
        assert i == |woken| && all[..i] == woken;
      }
    }
  }

  lemma DrainLayout(front: seq<Event>, due: nat, after: nat)
    ensures var events, r := front + Wakes(due) + [Read] + Wakes(after), |front| + due;
      && |events| == r + 1 + after && events[..|front|] == front && events[..r] == front + Wakes(due)
      && events[r] == Read
      && forall i | |front| <= i < |events| && i != r :: events[i] == Wake
  {
  }

  lemma StormEnds(storm: seq<nat>, n: nat)
    ensures n > 0 ==> Storm(storm, n) == Storm(storm, n - 1) + Wakes(DueAt(storm, n - 1)) + [Read]
    ensures Storm(storm, n) != [] ==> Storm(storm, n)[|Storm(storm, n)| - 1] == Read
  {
  }

  lemma FoundLast(kind: Kind, held: nat, front: seq<Event>, events: seq<Event>)
    requires AllFound(kind, held, front) && front <= events && front != [] && front[|front| - 1].Read?
    ensures Consumes(kind, held, events, |front| - 1)
  {
    var i := |front| - 1;
    assert Consumes(kind, held, front, i) && front[..i] == events[..i];
  }

  /** A whole drain has its verdict: the signal is left set exactly when a wake came after
      the last read that found something, and that is after the failing read too. */
  lemma DrainDecides(kind: Kind, held: nat, storm: seq<nat>, after: nat, n: nat, events: seq<Event>)
    requires kind.Limit() > 0 && Drained(kind, held, storm, after, n, events)
    ensures var lo := LastRead(storm, n);
      && lo <= |events| && (lo == 0 || Consumes(kind, held, events, lo - 1))
      && (Run(kind, held, events) > 0 <==> WakeIn(events, lo, |events|))
      && (Run(kind, held, events) > 0 <==> after > 0)
  {
    hide Run, Storm, Wakes, AllFound;
    var front, due := Storm(storm, n - 1), DueAt(storm, n - 1);
    var lo, r := |front|, |front| + due;
    StormEnds(storm, n);
    StormEnds(storm, n - 1);
    DrainLayout(front, due, after);
    if lo > 0 {
      FoundLast(kind, held, front, events);
    }
    DrainVerdict(kind, held, events, lo, r);
    if after > 0 {
      assert events[r + 1].Wake?;
    }
  }

  lemma DrainStarts(kind: Kind, held: nat)
    ensures Run(kind, held, []) == held && AllFound(kind, held, [])
  {
  }

  lemma RunWakes(kind: Kind, held: nat, events: seq<Event>, n: nat)
    ensures Run(kind, held, events + Wakes(n)) == Run(kind, Run(kind, held, events), Wakes(n))
  {
    RunOn(kind, held, events, Wakes(n));
  }

  /** The read after `before` and the wakes due: it found something, or the drain is whole. */
  lemma ReadNext(kind: Kind, held: nat, storm: seq<nat>, k: nat, before: seq<Event>, got: bool)
    requires before == Storm(storm, k) && AllFound(kind, held, before)
    requires got == (Run(kind, held, before + Wakes(DueAt(storm, k))) > 0)
    ensures var woken := before + Wakes(DueAt(storm, k));
      && woken + [Read] == Storm(storm, k + 1)
      && Run(kind, held, woken + [Read]) == kind.Left(Run(kind, held, woken))
      && (got ==> AllFound(kind, held, woken + [Read]))
      && (!got ==> Drained(kind, held, storm, 0, k + 1, woken + [Read]))
  {
    hide AllFound;
    var woken := before + Wakes(DueAt(storm, k));
    assert (woken + [Read])[..|woken|] == woken;
    if got {
      FoundOn(kind, held, before, DueAt(storm, k));
    } else {
      assert woken + [Read] + Wakes(0) == woken + [Read];
    }
  }

  lemma WakesAfter(kind: Kind, held: nat, storm: seq<nat>, after: nat, n: nat, events: seq<Event>)
    requires Drained(kind, held, storm, 0, n, events)
    ensures Drained(kind, held, storm, after, n, events + Wakes(after))
  {
    assert events + Wakes(0) == events;
  }

  /** The eventfd waker. */
  class UnixWaker {
    var counter: nat

    ghost predicate Valid()
      reads this
    {
      counter <= COUNTER_MAX
    }

    constructor ()
      ensures Valid() && counter == 0
    {
      counter := 0;
    }

    /** Writes 1; refused, non-blocking, when the counter is full. */
    method Wake()
      requires Valid()
      modifies this
      ensures Valid() && counter == Step(Eventfd, old(counter), Event.Wake)
    {
      if counter < COUNTER_MAX {
        counter := counter + 1;
      }
    }

    /** Reads and zeroes the counter; nothing to read is EAGAIN. */
    method Read() returns (got: bool)
      requires Valid()
      modifies this
      ensures Valid() && got == (old(counter) > 0) && counter == Step(Eventfd, old(counter), Event.Read)
    {
      got := counter > 0;
      counter := 0;
    }

    /** Some wakes from other threads. */
    method WakeMany(n: nat)
      requires Valid()
      modifies this
      ensures Valid() && counter == Run(Eventfd, old(counter), Wakes(n))
      ensures n == 0 ==> counter == old(counter)
    {
      assert Wakes(0) == [];
      for i := 0 to n
        invariant Valid() && counter == Run(Eventfd, old(counter), Wakes(i))
        invariant n == 0 ==> counter == old(counter)
      {
        Wake();
        assert Wakes(i + 1)[..i] == Wakes(i);
      }
    }

    /** `drain`, with `storm[k]` wakes landing before its k-th read and `after` once its
        last read has failed. */
    method Drain(storm: seq<nat>, after: nat) returns (ghost events: seq<Event>, ghost n: nat)
      requires Valid()
      modifies this
      ensures Valid() && counter == Run(Eventfd, old(counter), events)
      ensures Drained(Eventfd, old(counter), storm, after, n, events)
      ensures counter > 0 <==> WakeIn(events, LastRead(storm, n), |events|)
      ensures counter > 0 <==> after > 0
    {
      hide Run, Drained, AllFound;
      ghost var held := counter;
      DrainStarts(Eventfd, held);
      events, n := [], 0;
      var k: nat, got := 0, true;
      while got
        invariant Valid() && k == n && counter == Run(Eventfd, held, events)
        invariant got ==> events == Storm(storm, k) && AllFound(Eventfd, held, events)
        invariant !got ==> Drained(Eventfd, held, storm, 0, n, events)
        decreases if k < |storm| then |storm| - k else 0, counter, got
      {
        ghost var before := events;
        ghost var was := counter;
        WakeMany(DueAt(storm, k));
        RunWakes(Eventfd, held, before, DueAt(storm, k));
        got := Read();
        ReadNext(Eventfd, held, storm, k, before, got);
        events := before + Wakes(DueAt(storm, k)) + [Event.Read];
        k, n := k + 1, n + 1;
      }
      WakeMany(after);
      RunWakes(Eventfd, held, events, after);
      WakesAfter(Eventfd, held, storm, after, n, events);
      events := events + Wakes(after);
      DrainDecides(Eventfd, held, storm, after, n, events);
    }
  }

  /** The socket waker: each wake sends it one byte. */
  class WindowsWaker {
    const capacity: nat
    var queue: seq<int>

    ghost predicate Valid()
      reads this
    {
      |queue| <= capacity && capacity > 0
    }

    constructor (capacity: nat)
      requires capacity > 0
      ensures Valid() && queue == [] && this.capacity == capacity
    {
      this.capacity, queue := capacity, [];
    }

    /** Sends a byte; dropped when the receive buffer is full. */
    method Wake()
      requires Valid()
      modifies this
      ensures Valid() && |queue| == Step(Datagrams(capacity), |old(queue)|, Event.Wake)
    {
      if |queue| < capacity {
        queue := queue + [1];
      }
    }

    /** Receives one datagram; an empty queue is WSAEWOULDBLOCK. */
    method Read() returns (got: bool)
      requires Valid()
      modifies this
      ensures Valid() && got == (|old(queue)| > 0) && |queue| == Step(Datagrams(capacity), |old(queue)|, Event.Read)
    {
      got := queue != [];
      if got {
        queue := queue[1..];
      }
    }

    /** Some wakes from other threads. */
    method WakeMany(n: nat)
      requires Valid()
      modifies this
      ensures Valid() && |queue| == Run(Datagrams(capacity), |old(queue)|, Wakes(n))
      ensures n == 0 ==> |queue| == |old(queue)|
    {
      assert Wakes(0) == [];
      for i := 0 to n
        invariant Valid() && |queue| == Run(Datagrams(capacity), |old(queue)|, Wakes(i))
        invariant n == 0 ==> |queue| == |old(queue)|
      {
        Wake();
        assert Wakes(i + 1)[..i] == Wakes(i);
      }
    }

    /** `drain`, with `storm[k]` wakes landing before its k-th read and `after` once its
        last read has failed. */
    method Drain(storm: seq<nat>, after: nat) returns (ghost events: seq<Event>, ghost n: nat)
      requires Valid()
      modifies this
      ensures Valid() && |queue| == Run(Datagrams(capacity), |old(queue)|, events)
      ensures Drained(Datagrams(capacity), |old(queue)|, storm, after, n, events)
      ensures |queue| > 0 <==> WakeIn(events, LastRead(storm, n), |events|)
      ensures |queue| > 0 <==> after > 0
    {
      hide Run, Drained, AllFound;
      ghost var held := |queue|;
      DrainStarts(Datagrams(capacity), held);
      events, n := [], 0;
      var k: nat, got := 0, true;
      while got
        invariant Valid() && k == n && |queue| == Run(Datagrams(capacity), held, events)
        invariant got ==> events == Storm(storm, k) && AllFound(Datagrams(capacity), held, events)
        invariant !got ==> Drained(Datagrams(capacity), held, storm, 0, n, events)
        decreases if k < |storm| then |storm| - k else 0, |queue|, got
      {
        ghost var before := events;
        ghost var was := |queue|;
        WakeMany(DueAt(storm, k));
        RunWakes(Datagrams(capacity), held, before, DueAt(storm, k));
        got := Read();
        ReadNext(Datagrams(capacity), held, storm, k, before, got);
        events := before + Wakes(DueAt(storm, k)) + [Event.Read];
        k, n := k + 1, n + 1;
      }
      WakeMany(after);
      RunWakes(Datagrams(capacity), held, events, after);
      WakesAfter(Datagrams(capacity), held, storm, after, n, events);
      events := events + Wakes(after);
      DrainDecides(Datagrams(capacity), held, storm, after, n, events);
    }
  }
}
