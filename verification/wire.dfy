/** Values shared by every component: bytes, errors, requests and responses. */
module Wire {

  newtype byte = x: int | 0 <= x < 256

  type Bytes = seq<byte>

  datatype Option<+T> = None | Some(value: T)

  datatype Result<+T> = Ok(value: T) | Err(error: Error)

  /** The errors the modelled code names itself, and every other code the native
      library can hand back. */
  datatype Error =
    | NetworkClosed
    | ProtoInvalidHeader
    | ConfigMissing
    | IdentityNotFound
    | CryptoVerify
    | Internal
    | WouldBlock
    | Native(code: int)

  datatype Header = Header(name: Bytes, value: Bytes)

  datatype Request = Request(verb: int, path: Bytes, headers: seq<Header>, body: Bytes)

  type RequestId = nat

  /** An owned response message: the id it answers and whatever the native side put in it. */
  datatype Response = Response(id: RequestId, payload: Bytes)
}
