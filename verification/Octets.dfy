/** Bytes, and the outcomes of socket calls that every model shares. */
module Octets {
  type byte = x: int | 0 <= x < 256

  const BUFFER_SIZE: nat := 64 * 1024

  datatype Option<T> = None | Some(value: T)

  /** What a receive call gives: something, end of stream, or nothing now. */
  datatype RecvOutcome<T> = Received(what: T) | Eof | RecvBlocked | RecvFailed

  datatype SendOutcome = Sent(n: nat) | SendBlocked | SendFailed

  /** send and recv move between one byte and all that was offered. */
  function Clip(n: nat, offered: nat): (k: nat)
    requires offered > 0
    ensures 1 <= k <= offered
  {
    if n == 0 then 1 else if n > offered then offered else n
  }
}
