/** When the managed dht announces itself, over any sequence of wall-clock readings. */
module Announce {

  const INTERVAL_SECS: nat := 30

  /** The number of values of the seconds counter. */
  const U64: nat := 0x1_0000_0000_0000_0000

  /** A reading of the unix-seconds clock. */
  type Secs = n: nat | n < U64

  /** `secs - at` on 64-bit unsigned values, wrapping below zero. */
  function WrapSub(secs: Secs, at: Secs): Secs {
    if secs >= at then secs - at else U64 + secs - at
  }

  /** Zero stands for never announced. */
  predicate Due(at: Secs, secs: Secs) {
    at == 0 || WrapSub(secs, at) >= INTERVAL_SECS
  }

  /** The `announced_at` field after a pass for each reading. */
  function AnnouncedAt(readings: seq<Secs>): Secs {
    if readings == [] then 0
    else
      var at, secs := AnnouncedAt(readings[..|readings| - 1]), readings[|readings| - 1];
      if Due(at, secs) then secs else at
  }

  /** The readings at which those passes announced. */
  function Announces(readings: seq<Secs>): seq<Secs> {
    if readings == [] then []
    else
      var front, secs := readings[..|readings| - 1], readings[|readings| - 1];
      Announces(front) + (if Due(AnnouncedAt(front), secs) then [secs] else [])
  }

  /** Consecutive announces are at least 30 seconds apart. */
  predicate Spaced(times: seq<Secs>) {
    forall i | 0 < i < |times| :: times[i] >= times[i - 1] + INTERVAL_SECS
  }

  /** The last announce is less than 30 seconds old. */
  predicate Recent(times: seq<Secs>, secs: Secs) {
    times != [] && times[|times| - 1] <= secs < times[|times| - 1] + INTERVAL_SECS
  }

  lemma {:induction false} FieldIsLast(readings: seq<Secs>)
    ensures Announces(readings) == [] <==> readings == []
    ensures readings != [] ==> AnnouncedAt(readings) == Announces(readings)[|Announces(readings)| - 1]
    ensures readings == [] ==> AnnouncedAt(readings) == 0
  {
    if readings != [] {
      FieldIsLast(readings[..|readings| - 1]);
    }
  }

  /** A clock that is positive and never goes back. */
  predicate Advances(readings: seq<Secs>) {
    && (forall i | 0 <= i < |readings| :: readings[i] > 0)
    && (forall i | 0 < i < |readings| :: readings[i - 1] <= readings[i])
  }

  lemma {:induction false} AnnouncesAreReadings(readings: seq<Secs>)
    requires Advances(readings)
    ensures readings != [] ==> 0 < AnnouncedAt(readings) <= readings[|readings| - 1]
  {
    if readings != [] {
      AnnouncesAreReadings(readings[..|readings| - 1]);
    }
  }

  /** Over every run on such a clock, announces are spaced and each pass ends with a
      recent one. */
  lemma {:induction false} SpacedAndRecent(readings: seq<Secs>)
    requires Advances(readings)
    ensures Spaced(Announces(readings))
    ensures readings != [] ==> Recent(Announces(readings), readings[|readings| - 1])
  {
    if readings != [] {
      var front := readings[..|readings| - 1];
      SpacedAndRecent(front);
      FieldIsLast(front);
      PassIsGood(front, readings[|readings| - 1]);
      assert readings == front + [readings[|readings| - 1]];
      AnnouncesAreReadings(front);
    }
  }

  /** The reading keeps both properties, given the field before its pass. */
  predicate GoodReading(front: seq<Secs>, secs: Secs) {
    front == [] || (secs >= AnnouncedAt(front) && (AnnouncedAt(front) > 0 || secs >= INTERVAL_SECS))
  }

  lemma AnnouncesNext(front: seq<Secs>, secs: Secs)
    ensures Announces(front + [secs]) == Announces(front) + (if Due(AnnouncedAt(front), secs) then [secs] else [])
  {
    assert (front + [secs])[..|front|] == front;
  }

  lemma SpacedNext(times: seq<Secs>, secs: Secs)
    requires Spaced(times)
    ensures Spaced(times + [secs]) <==> times == [] || secs >= times[|times| - 1] + INTERVAL_SECS
  {
    var all := times + [secs];
    forall i | 0 < i < |times| ensures all[i] >= all[i - 1] + INTERVAL_SECS {
      assert times[i] >= times[i - 1] + INTERVAL_SECS;
    }
    assert times != [] ==> all[|times|] == secs && all[|times| - 1] == times[|times| - 1];
  }

  /** A pass that announces, and one that does not. */
  lemma DueIsGood(front: seq<Secs>, secs: Secs)
    requires Spaced(Announces(front)) && Due(AnnouncedAt(front), secs)
    ensures Spaced(Announces(front + [secs])) && Recent(Announces(front + [secs]), secs) <==> GoodReading(front, secs)
  {
    FieldIsLast(front);
    AnnouncesNext(front, secs);
    SpacedNext(Announces(front), secs);
    hide Announces, AnnouncedAt, Spaced;
  }

  lemma NotDueIsGood(front: seq<Secs>, secs: Secs)
    requires Spaced(Announces(front)) && !Due(AnnouncedAt(front), secs)
    ensures Spaced(Announces(front + [secs])) && Recent(Announces(front + [secs]), secs) <==> GoodReading(front, secs)
  {
    FieldIsLast(front);
    AnnouncesNext(front, secs);
    assert Announces(front) + [] == Announces(front);
    hide Announces, AnnouncedAt, Spaced;
  }

  /** One more pass keeps the spacing and ends recent exactly when it is the first, or
      its reading has not gone back and did not follow an announce at second zero too
      soon. */
  lemma PassIsGood(front: seq<Secs>, secs: Secs)
    requires Spaced(Announces(front))
    ensures Spaced(Announces(front + [secs])) && Recent(Announces(front + [secs]), secs)
            <==> (front == [] || (secs >= AnnouncedAt(front) && (AnnouncedAt(front) > 0 || secs >= INTERVAL_SECS)))
  {
    hide Announces, AnnouncedAt, Spaced, Recent, Due;
    if Due(AnnouncedAt(front), secs) {
      DueIsGood(front, secs);
    } else {
      NotDueIsGood(front, secs);
    }
  }

  /** The announces so far are spaced, and the last pass ended with a recent one. */
  predicate GoodSoFar(readings: seq<Secs>)
    requires readings != []
  {
    Spaced(Announces(readings)) && Recent(Announces(readings), readings[|readings| - 1])
  }

  /** After every pass of the run both properties hold. */
  predicate GoodThroughout(readings: seq<Secs>) {
    forall n | 0 < n <= |readings| :: GoodSoFar(readings[..n])
  }

  /** Every reading of the run, given those before it, is a good one. */
  predicate GoodReadings(readings: seq<Secs>) {
    forall n | 0 <= n < |readings| :: GoodReading(readings[..n], readings[n])
  }

  lemma ThroughoutNext(front: seq<Secs>, last: Secs)
    ensures GoodThroughout(front + [last]) <==> GoodThroughout(front) && GoodSoFar(front + [last])
  {
    hide GoodSoFar;
    var all := front + [last];
    assert all[..|all|] == all;
    forall n | 0 < n <= |front| ensures all[..n] == front[..n] {}
    if GoodThroughout(all) {
      forall n | 0 < n <= |front| ensures GoodSoFar(front[..n]) {
        assert GoodSoFar(all[..n]);
      }
      assert GoodSoFar(all[..|all|]);
    }
    if GoodThroughout(front) && GoodSoFar(all) {
      forall n | 0 < n <= |all| ensures GoodSoFar(all[..n]) {
        if n <= |front| {
          assert GoodSoFar(front[..n]);
        }
      }
    }
  }

  lemma ReadingsNext(front: seq<Secs>, last: Secs)
    ensures GoodReadings(front + [last]) <==> GoodReadings(front) && GoodReading(front, last)
  {
    hide GoodReading;
    var all := front + [last];
    assert all[..|front|] == front && all[|front|] == last;
    forall n | 0 <= n < |front| ensures all[..n] == front[..n] && all[n] == front[n] {}
    if GoodReadings(all) {
      forall n | 0 <= n < |front| ensures GoodReading(front[..n], front[n]) {
        assert GoodReading(all[..n], all[n]);
      }
      assert GoodReading(all[..|front|], all[|front|]);
    }
    if GoodReadings(front) && GoodReading(front, last) {
      forall n | 0 <= n < |all| ensures GoodReading(all[..n], all[n]) {
        if n < |front| {
          assert GoodReading(front[..n], front[n]);
        }
      }
    }
  }

  lemma FrontSpaced(front: seq<Secs>)
    requires GoodThroughout(front)
    ensures Spaced(Announces(front))
  {
    if front != [] {
      assert GoodSoFar(front[..|front|]);
      assert front[..|front|] == front;
      hide Announces, Spaced;
    }
  }

  lemma OnePassGood(front: seq<Secs>, secs: Secs)
    requires Spaced(Announces(front))
    ensures GoodSoFar(front + [secs]) <==> GoodReading(front, secs)
  {
    PassIsGood(front, secs);
    hide Announces, AnnouncedAt, Spaced, Recent, Due;
  }

  /** A run keeps both properties throughout exactly when each of its readings, given those
      before it, is a good one. */
  lemma {:induction false} RunIsGood(readings: seq<Secs>)
    ensures GoodThroughout(readings) <==> GoodReadings(readings)
  {
    if readings != [] {
      var front, last := readings[..|readings| - 1], readings[|readings| - 1];
      hide GoodThroughout, GoodReadings, GoodSoFar, GoodReading;
      assert readings == front + [last];
      RunIsGood(front);
      ThroughoutNext(front, last);
      ReadingsNext(front, last);
      if GoodThroughout(front) {
        FrontSpaced(front);
        OnePassGood(front, last);
      }
    }
  }

  lemma TwoPasses(a: Secs, b: Secs)
    ensures Announces([a, b]) == if Due(a, b) then [a, b] else [a]
  {
    var one, two: seq<Secs> := [a], [a, b];
    assert one[..0] == [] && two[..1] == one;
    assert Announces(one) == [a] && AnnouncedAt(one) == a;
  }

  /** A clock at zero, or one set back, breaks the spacing. */
  lemma ClockMatters()
    ensures Announces([0, 0]) == [0, 0]
    ensures Announces([100, 50]) == [100, 50]
  {
    TwoPasses(0, 0);
    TwoPasses(100, 50);
  }
}
