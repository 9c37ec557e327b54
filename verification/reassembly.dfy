/** The blocking receive loop: a driven client reads a stream into one fixed buffer until
    the stream says it has ended. */
module Reassembly {
  import opened Wire

  const BUFFER: nat := 65536

  /** A native stream delivering `body` in order, in pieces of its own choosing. */
  class NativeStream {
    ghost const body: Bytes
    ghost var taken: nat
    var rest: Bytes // still to deliver
    var sawEnd: bool
    /** The errors of failed reads, in order. */
    ghost var failures: seq<Error>

    ghost predicate Valid()
      reads this
    {
      taken <= |body| && rest == body[taken..] && (sawEnd ==> rest == [])
    }

    constructor (body: Bytes)
      ensures Valid() && this.body == body && taken == 0 && !sawEnd && failures == []
    {
      this.body, taken, rest, sawEnd, failures := body, 0, body, false, [];
    }

    /** Blocks until data or the end, so a read that is not the last brings something. */
    method Recv(buf: array<byte>) returns (r: Result<(nat, bool)>)
      requires Valid() && !sawEnd && buf.Length > 0
      modifies this, buf
      ensures Valid()
      ensures failures == old(failures) + if r.Err? then [r.error] else []
      ensures r.Err? ==> taken == old(taken) && !sawEnd
      ensures r.Ok? ==>
        var (n, ended) := r.value;
        && n <= buf.Length && taken == old(taken) + n <= |body|
        && buf[..n] == body[old(taken)..taken]
        && sawEnd == ended && (ended ==> taken == |body|) && (n > 0 || ended)
    {
      var failed: bool, e: Error, n: nat, late: bool := *, *, *, *;
      if failed {
        failures := failures + [e];
        return Err(e);
      }
      n := if n > |rest| then |rest| else n;
      n := if n > buf.Length then buf.Length else n;
      n := if n == 0 && rest != [] then 1 else n;
      Fill(buf, rest[..n]);
      assert rest[..n] == body[taken..taken + n] && rest[n..] == body[taken + n..];
      taken, rest := taken + n, rest[n..];
      sawEnd := rest == [] && (late || n == 0);
      r := Ok((n, sawEnd));
    }

    method Fill(buf: array<byte>, data: Bytes)
      requires |data| <= buf.Length
      modifies buf
      ensures buf[..|data|] == data
    {
      forall i | 0 <= i < |data| {
        buf[i] := data[i];
      }
    }
  }

  /** The loop ends, and without an error has put the whole body together. */
  method Reassemble(stream: NativeStream) returns (r: Result<Bytes>)
    requires stream.Valid() && stream.taken == 0 && !stream.sawEnd
    modifies stream
    ensures stream.Valid()
    ensures r.Ok? ==> r.value == stream.body && stream.sawEnd
    ensures r.Err? ==> !stream.sawEnd && stream.failures == old(stream.failures) + [r.error]
    ensures r.Ok? ==> stream.failures == old(stream.failures)
  {
    var received: Bytes := [];
    var buf := new byte[BUFFER](_ => 0);
    while true
      invariant stream.Valid() && !stream.sawEnd && stream.failures == old(stream.failures)
      invariant received == stream.body[..stream.taken]
      decreases |stream.body| - stream.taken
    {
      var got := stream.Recv(buf);
      if got.Err? {
        return Err(got.error);
      }
      var (n, ended) := got.value;
      received := received + buf[..n];
      if ended {
        break;
      }
    }
    r := Ok(received);
  }
}
