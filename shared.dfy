/**
 * Values shared by the tunnel client and the test sockets: an optional value
 * (the source's null and Nullable), bytes, and the response records of the
 * tunnel's request/response contract (BdtShared/Response).
 */
module Shared {

  /** A value that may be absent: a null reference or an empty Nullable. */
  datatype Option<+T> = None | Some(value: T)

  /** One octet of a socket stream. */
  newtype byte = x: int | 0 <= x < 256

  /** IMinimalResponse: every tunnel answer says whether it succeeded and carries a message. */
  datatype MinimalResponse = MinimalResponse(success: bool, message: string)

  /** LoginResponse: the answer to Login, with the session id the server allocated. */
  datatype LoginResponse = LoginResponse(success: bool, message: string, sid: int)

  function Min(a: int, b: int): (m: int) { if a <= b then a else b }

  function Max(a: int, b: int): (m: int) { if a >= b then a else b }
}
