/** Request marshalling: the C view of a request and the two code paths that build it. */
module Marshal {
  import opened Wire

  /** A C pointer: null, or the memory from the pointed-to byte onwards. */
  datatype CPtr = Null | To(mem: Bytes)

  /** One entry of the C header array. A null name is the end sentinel. */
  datatype CHeader = CHeader(name: CPtr, value: CPtr)

  /** The arguments `nwep_client_request_submit` receives. */
  datatype View = View(verb: int, path: CPtr, headers: seq<CHeader>, body: CPtr, bodyLen: nat)

  const NUL: byte := 0

  /** `CString::new`: the bytes with a terminator, or nothing for an interior nul. */
  function NewCString(s: Bytes): Option<Bytes> {
    if NUL in s then None else Some(s + [NUL])
  }

  predicate NulFree(req: Request) {
    && NUL !in req.path
    && forall h <- req.headers :: NUL !in h.name && NUL !in h.value
  }

  // What the C side does with a view

  /** Reads a C string: the bytes up to the first nul. */
  function ReadCString(mem: Bytes): (s: Bytes)
    requires NUL in mem
    ensures NUL !in s
    ensures s + [NUL] <= mem
  {
    if mem[0] == NUL then [] else [mem[0]] + ReadCString(mem[1..])
  }

  predicate Readable(p: CPtr) {
    p.To? && NUL in p.mem
  }

  /** The header array can be walked to its sentinel without leaving it. */
  predicate ReadableHeaders(a: seq<CHeader>) {
    a != [] && (a[0].name.Null? || (Readable(a[0].name) && Readable(a[0].value) && ReadableHeaders(a[1..])))
  }

  function ReadHeaders(a: seq<CHeader>): seq<Header>
    requires ReadableHeaders(a)
  {
    if a[0].name.Null? then []
    else [Header(ReadCString(a[0].name.mem), ReadCString(a[0].value.mem))] + ReadHeaders(a[1..])
  }

  /** The C side stays inside the memory it was handed. */
  predicate WellFormed(v: View) {
    && Readable(v.path)
    && ReadableHeaders(v.headers)
    && (v.bodyLen == 0 || (v.body.To? && v.bodyLen <= |v.body.mem|))
  }

  /** The request as the C side reads it. */
  function ReadBack(v: View): Request
    requires WellFormed(v)
  {
    Request(v.verb, ReadCString(v.path.mem), ReadHeaders(v.headers),
            if v.bodyLen == 0 then [] else v.body.mem[..v.bodyLen])
  }

  // What the Rust side builds

  function CString(s: Bytes): CPtr {
    To(s + [NUL])
  }

  function HeaderArray(headers: seq<Header>): seq<CHeader> {
    seq(|headers|, i requires 0 <= i < |headers| => CHeader(CString(headers[i].name), CString(headers[i].value)))
    + [CHeader(Null, Null)]
  }

  function ViewOf(req: Request): View {
    View(req.verb, CString(req.path), HeaderArray(req.headers),
         if req.body == [] then Null else To(req.body), |req.body|)
  }

  /** The specification both code paths meet. */
  function Marshalled(req: Request): Result<View> {
    if NulFree(req) then Ok(ViewOf(req)) else Err(ProtoInvalidHeader)
  }

  lemma {:induction false} ReadCStringOf(s: Bytes)
    requires NUL !in s
    ensures ReadCString(s + [NUL]) == s
  {
    if s != [] {
      assert (s + [NUL])[1..] == s[1..] + [NUL];
      ReadCStringOf(s[1..]);
    }
  }

  lemma {:induction false} ReadHeadersOf(headers: seq<Header>)
    requires forall h <- headers :: NUL !in h.name && NUL !in h.value
    ensures ReadableHeaders(HeaderArray(headers))
    ensures ReadHeaders(HeaderArray(headers)) == headers
  {
    var a := HeaderArray(headers);
    if headers != [] {
      ReadCStringOf(headers[0].name);
      ReadCStringOf(headers[0].value);
      assert headers[0] in headers;
      assert a[1..] == HeaderArray(headers[1..]);
      ReadHeadersOf(headers[1..]);
      assert a[0].name == To(headers[0].name + [NUL]);
      assert a[0].value == To(headers[0].value + [NUL]);
    }
  }

  /** Marshalling fails exactly on an interior nul; otherwise the C side reads the
      same request back, and never outside the memory it was given. */
  lemma RoundTrip(req: Request)
    ensures Marshalled(req).Ok? <==> NulFree(req)
    ensures Marshalled(req).Err? ==> Marshalled(req).error == ProtoInvalidHeader
    ensures Marshalled(req).Ok? ==> WellFormed(Marshalled(req).value) && ReadBack(Marshalled(req).value) == req
  {
    if NulFree(req) {
      ReadCStringOf(req.path);
      ReadHeadersOf(req.headers);
    }
  }

  /** Both paths build their array from a vector of C strings the same way. */
  method CollectArray(cstrings: seq<(Bytes, Bytes)>) returns (entries: seq<CHeader>)
    ensures |entries| == |cstrings| + 1
    ensures forall k | 0 <= k < |cstrings| :: entries[k] == CHeader(To(cstrings[k].0), To(cstrings[k].1))
    ensures entries[|cstrings|] == CHeader(Null, Null)
  {
    entries := [];
    for i := 0 to |cstrings|
      invariant |entries| == i
      invariant forall k | 0 <= k < i :: entries[k] == CHeader(To(cstrings[k].0), To(cstrings[k].1))
    {
      entries := entries + [CHeader(To(cstrings[i].0), To(cstrings[i].1))];
    }
    entries := entries + [CHeader(Null, Null)];
  }

  /** The builder an embedder chains calls on, consumed by its terminal. */
  class RequestBuilder {
    var verb: int
    var path: Bytes
    var headers: seq<Header>
    var body: Bytes

    function Built(): Request
      reads this
    {
      Request(verb, path, headers, body)
    }

    constructor (verb: int, path: Bytes)
      ensures Built() == Request(verb, path, [], [])
    {
      this.verb, this.path, headers, body := verb, path, [], [];
    }

    method AddHeader(name: Bytes, value: Bytes)
      modifies this
      ensures Built() == old(Built()).(headers := old(headers) + [Header(name, value)])
    {
      headers := headers + [Header(name, value)];
    }

    method SetBody(body: Bytes)
      modifies this
      ensures Built() == old(Built()).(body := body)
    {
      this.body := body;
    }

    /** `RequestBuilder::with_c`: takes the headers one by one, by value. */
    method WithC() returns (r: Result<View>)
      modifies this
      ensures r == Marshalled(old(Built()))
    {
      ghost var all := headers;
      var cpath := NewCString(path);
      if cpath.None? {
        return Err(ProtoInvalidHeader);
      }
      var cstrings: seq<(Bytes, Bytes)> := [];
      while headers != []
        invariant |cstrings| <= |all| && headers == all[|cstrings|..]
        invariant Built() == old(Built()).(headers := headers)
        invariant forall k | 0 <= k < |cstrings| :: NUL !in all[k].name && NUL !in all[k].value
        invariant forall k | 0 <= k < |cstrings| :: cstrings[k] == (all[k].name + [NUL], all[k].value + [NUL])
        decreases |headers|
      {
        var Header(name, value) := headers[0];
        headers := headers[1..];
        var n := NewCString(name);
        if n.None? {
          return Err(ProtoInvalidHeader);
        }
        var v := NewCString(value);
        if v.None? {
          return Err(ProtoInvalidHeader);
        }
        cstrings := cstrings + [(n.value, v.value)];
      }
      var entries := CollectArray(cstrings);
      assert entries == HeaderArray(all);
      var bptr, blen := Null, 0;
      if body != [] {
        bptr, blen := To(body), |body|;
      }
      r := Ok(View(verb, To(cpath.value), entries, bptr, blen));
    }
  }

  /** `Client::submit_request` up to its native call: borrows the same strings. */
  method SubmitView(verb: int, path: Bytes, headers: seq<Header>, body: Bytes) returns (r: Result<View>)
    ensures r == Marshalled(Request(verb, path, headers, body))
  {
    var cpath := NewCString(path);
    if cpath.None? {
      return Err(ProtoInvalidHeader);
    }
    var cstrings: seq<(Bytes, Bytes)> := [];
    for i := 0 to |headers|
      invariant |cstrings| == i
      invariant forall k | 0 <= k < i :: NUL !in headers[k].name && NUL !in headers[k].value
      invariant forall k | 0 <= k < i :: cstrings[k] == (headers[k].name + [NUL], headers[k].value + [NUL])
    {
      var n := NewCString(headers[i].name);
      if n.None? {
        return Err(ProtoInvalidHeader);
      }
      var v := NewCString(headers[i].value);
      if v.None? {
        return Err(ProtoInvalidHeader);
      }
      cstrings := cstrings + [(n.value, v.value)];
    }
    var entries := CollectArray(cstrings);
    assert entries == HeaderArray(headers);
    var bptr, blen := Null, 0;
    if body != [] {
      bptr, blen := To(body), |body|;
    }
    r := Ok(View(verb, To(cpath.value), entries, bptr, blen));
  }

  // A streamed response's metadata

  /** The headers of a streamed response that reach the C side: those with an interior
      nul are skipped. */
  function Kept(headers: seq<Header>): seq<Header> {
    if headers == [] then []
    else
      var last := headers[|headers| - 1];
      Kept(headers[..|headers| - 1]) + (if NUL !in last.name && NUL !in last.value then [last] else [])
  }

  predicate Clean(h: Header) {
    NUL !in h.name && NUL !in h.value
  }

  lemma KeptNext(front: seq<Header>, last: Header)
    ensures Kept(front + [last]) == Kept(front) + (if Clean(last) then [last] else [])
  {
    assert (front + [last])[..|front|] == front;
  }

  lemma {:induction false} KeptBound(headers: seq<Header>)
    ensures |Kept(headers)| <= |headers|
  {
    if headers != [] {
      KeptBound(headers[..|headers| - 1]);
    }
  }

  lemma {:induction false} KeptClean(headers: seq<Header>)
    ensures forall h <- Kept(headers) :: Clean(h)
  {
    if headers != [] {
      var front, last := headers[..|headers| - 1], headers[|headers| - 1];
      KeptClean(front);
      assert headers == front + [last];
      KeptNext(front, last);
      hide Kept, Clean;
    }
  }

  lemma {:induction false} KeptIffNulFree(headers: seq<Header>)
    ensures Kept(headers) == headers <==> forall h <- headers :: Clean(h)
  {
    hide Kept, Clean;
    if headers == [] {
      KeptBound(headers);
    } else {
      var front, last := headers[..|headers| - 1], headers[|headers| - 1];
      KeptIffNulFree(front);
      assert headers == front + [last];
      KeptNext(front, last);
      KeptBound(front);
    }
  }

  /** The C side reads back the kept headers in order, never past the sentinel: all of
      them exactly when none holds a nul. A path with a nul reads as empty. */
  lemma StreamRoundTrip(path: Bytes, headers: seq<Header>)
    ensures ReadableHeaders(HeaderArray(Kept(headers))) && ReadHeaders(HeaderArray(Kept(headers))) == Kept(headers)
    ensures ReadHeaders(HeaderArray(Kept(headers))) == headers
            <==> forall h <- headers :: NUL !in h.name && NUL !in h.value
    ensures var p := if NewCString(path).Some? then path else [];
            Readable(CString(p)) && (ReadCString(CString(p).mem) == path <==> NUL !in path)
  {
    KeptIffNulFree(headers);
    KeptClean(headers);
    ReadHeadersOf(Kept(headers));
    ReadCStringOf(if NUL in path then [] else path);
  }

  /** `Responder::stream` up to its native call. */
  method StreamView(path: Bytes, headers: seq<Header>) returns (cpath: CPtr, entries: seq<CHeader>)
    ensures cpath == CString(if NUL in path then [] else path)
    ensures entries == HeaderArray(Kept(headers))
  {
    var c := NewCString(path);
    cpath := To(if c.Some? then c.value else [NUL]);
    assert [] + [NUL] == [NUL];
    var cstrings: seq<(Bytes, Bytes)> := [];
    for i := 0 to |headers|
      invariant |cstrings| == |Kept(headers[..i])|
      invariant forall k | 0 <= k < |cstrings| ::
        cstrings[k] == (Kept(headers[..i])[k].name + [NUL], Kept(headers[..i])[k].value + [NUL])
    {
      var n, v := NewCString(headers[i].name), NewCString(headers[i].value);
      assert headers[..i + 1][..i] == headers[..i];
      if n.Some? && v.Some? {
        cstrings := cstrings + [(n.value, v.value)];
      }
    }
    assert headers[..|headers|] == headers;
    entries := CollectArray(cstrings);
  }
}
