/** Types shared by every layer of the model. */
module Base {

  /** An unsigned 8-bit value; every arithmetic result is reduced explicitly where the program wraps. */
  type byte = x: int | 0 <= x < 256

  datatype Option<+T> = None | Some(value: T)

  /** The error codes a SonyException carries. */
  datatype ErrorCode =
    | Timeout
    | Disconnected
    | Unsupported
    | InvalidFrame
    | InvalidChecksum
    | InvalidResponse
    | TransportFailure

  datatype Result<+T> = Ok(value: T) | Err(error: ErrorCode)

  /** All the pieces, one after the other. */
  function Flatten<T>(pieces: seq<seq<T>>): seq<T> {
    if pieces == [] then [] else pieces[0] + Flatten(pieces[1..])
  }

  lemma ConcatAssociative<T>(a: seq<T>, b: seq<T>, c: seq<T>)
    ensures a + b + c == a + (b + c)
  {
  }

  const ACK: byte := 1
  const DATA_MDR: byte := 12

  /** A decoded protocol message. The type byte is kept raw: decoding casts any byte to the enumeration. */
  datatype Frame = Frame(kind: byte, sequence: byte, payload: seq<byte>)
}
