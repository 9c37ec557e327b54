/** A resumable download in 16-byte range windows, and the handler that serves it. */
module Download {
  import opened Wire

  const WINDOW: nat := 16

  /** An inclusive byte range. */
  datatype ByteRange = ByteRange(start: nat, end: nat)

  datatype RangeOutcome = Full | Unsatisfiable | Ranges(ranges: seq<ByteRange>)

  /** How a single range resolves against `total` bytes: clamped to the end, unless it
      starts at or past it. */
  function Resolve(total: nat, first: nat, last: nat): RangeOutcome
    requires first <= last
  {
    if first >= total then Unsatisfiable
    else Ranges([ByteRange(first, if last < total then last else total - 1)])
  }

  datatype Reply = PartialContent(body: Bytes) | RangeNotSatisfiable | Whole(body: Bytes)

  /** The handler: one range sends that part, a server that ignores the header sends all. */
  function Handle(file: Bytes, honoured: bool, first: nat, last: nat): Reply
    requires first <= last
  {
    match if honoured then Resolve(|file|, first, last) else Full
    case Ranges(rs) => PartialContent(file[rs[0].start..rs[0].end + 1])
    case Unsatisfiable => RangeNotSatisfiable
    case Full => Whole(file)
  }

  /** A window answers with the bytes at its offset, at most 16 of them; short or missing
      exactly when the file ends inside or before it. */
  lemma WindowServed(file: Bytes, have: nat)
    requires have <= |file|
    ensures var r := Handle(file, true, have, have + WINDOW - 1);
            if have == |file| then r.RangeNotSatisfiable?
            else r.PartialContent? && 0 < |r.body| <= WINDOW && file[..have] + r.body == file[..have + |r.body|]
                 && (|r.body| < WINDOW ==> have + |r.body| == |file|)
  {
  }

  /** The loop's variables, and whether it has broken off. */
  datatype Loop = Loop(have: nat, downloaded: Bytes, stopped: bool)

  /** What one reply does to them. The status is looked at for one value only. */
  function Turn(l: Loop, reply: Reply): Loop {
    if reply.RangeNotSatisfiable? || reply.body == [] then l.(stopped := true)
    else Loop(l.have + |reply.body|, l.downloaded + reply.body, |reply.body| < WINDOW)
  }

  /** The loop from a kept prefix after at most `n` requests. */
  function After(file: Bytes, honoured: bool, kept: nat, n: nat): Loop
    requires kept <= |file|
  {
    if n == 0 then Loop(kept, file[..kept], false)
    else
      var l := After(file, honoured, kept, n - 1);
      if l.stopped then l else Turn(l, Handle(file, honoured, l.have, l.have + WINDOW - 1))
  }

  /** One request moves a full window on, or ends with the file's last bytes. */
  lemma TurnKeeps(file: Bytes, l: Loop)
    requires l.have <= |file| && l.downloaded == file[..l.have] && !l.stopped
    ensures var next := Turn(l, Handle(file, true, l.have, l.have + WINDOW - 1));
            if l.have + WINDOW > |file| then next == Loop(|file|, file, true)
            else next == Loop(l.have + WINDOW, file[..l.have + WINDOW], false)
  {
    WindowServed(file, l.have);
    assert file[..|file|] == file;
  }

  /** Against a server that honours ranges, for every file and every prefix already kept:
      the bytes held are always a prefix of the file, and the loop has stopped once the
      windows asked for reach past the file, and no sooner, holding the whole file. */
  lemma {:induction false} DownloadsTheFile(file: Bytes, kept: nat, n: nat)
    requires kept <= |file|
    ensures var l := After(file, true, kept, n);
            l.have <= |file| && l.downloaded == file[..l.have]
            && (l.stopped <==> kept + n * WINDOW > |file|)
            && (if l.stopped then l.downloaded == file else l.have == kept + n * WINDOW)
  {
    hide Turn, Handle;
    if n > 0 {
      DownloadsTheFile(file, kept, n - 1);
      var l := After(file, true, kept, n - 1);
      if !l.stopped {
        TurnKeeps(file, l);
        assert file[..|file|] == file;
      }
    }
  }

  /** Against a server that ignores them, the loop stops exactly when the file is shorter
      than a window, holding the kept prefix and then the whole file again: right exactly
      when nothing was kept. Otherwise it never stops and keeps repeating the file. */
  lemma {:induction false} IgnoredRanges(file: Bytes, kept: nat, n: nat)
    requires n > 0 && kept <= |file|
    ensures var l := After(file, false, kept, n);
      && (l.stopped <==> |file| < WINDOW)
      && (l.stopped && file != [] ==> l.downloaded == file[..kept] + file)
      && (l.stopped ==> (l.downloaded == file <==> kept == 0 || file == []))
      && (!l.stopped ==> |l.downloaded| == kept + n * |file|)
  {
    if n > 1 {
      IgnoredRanges(file, kept, n - 1);
      assert (n - 1) * |file| + |file| == n * |file|;
    } else {
      var first := After(file, false, kept, 0);
      assert first == Loop(kept, file[..kept], false);
      OneIgnored(file, kept);
    }
  }

  lemma OneIgnored(file: Bytes, kept: nat)
    requires kept <= |file|
    ensures var l := Turn(Loop(kept, file[..kept], false), Handle(file, false, kept, kept + WINDOW - 1));
      && (l.stopped <==> |file| < WINDOW)
      && (file != [] ==> l.downloaded == file[..kept] + file)
      && (l.stopped ==> (l.downloaded == file <==> kept == 0 || file == []))
      && (!l.stopped ==> |l.downloaded| == kept + |file|)
  {
    if kept == 0 {
      assert file[..0] + file == file;
    }
  }

  /** The download loop itself, from a kept prefix. */
  method Download(file: Bytes, kept: nat) returns (downloaded: Bytes, requests: nat)
    requires kept <= |file|
    ensures downloaded == file
    ensures requests == (|file| - kept) / WINDOW + 1
  {
    var have := kept;
    downloaded, requests := file[..kept], 0;
    while true
      invariant have == kept + requests * WINDOW <= |file|
      invariant downloaded == file[..have]
      decreases |file| - have
    {
      WindowServed(file, have);
      var resp := Handle(file, true, have, have + WINDOW - 1);
      requests := requests + 1;
      if resp.RangeNotSatisfiable? {
        break;
      }
      var chunk := resp.body;
      if chunk == [] {
        break;
      }
      have := have + |chunk|;
      var last := |chunk| < WINDOW;
      downloaded := downloaded + chunk;
      if last {
        break;
      }
    }
  }
}
