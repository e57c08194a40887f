/**
 The wire-level vocabulary of the load-balancing broker: bytes, frames,
 multipart messages, the READY sentinel and the framing errors.
 */
module Frames {

  type Byte = bv8

  /** One ZeroMQ message part; the broker never looks inside except to compare it. */
  type Frame = seq<Byte>

  /** A multipart message: the frames of one message, in order. */
  type Multipart = seq<Frame>

  /** The zero-length frame that separates the routing identity from the payload. */
  const Delimiter: Frame := []

  /** The body a worker sends to announce that it is free: the five bytes `READY`. */
  const Ready: Frame := [0x52, 0x45, 0x41, 0x44, 0x59]

  /** The framing errors of the broker. `TooManyMessages` is declared by the
      broker but no code path produces it. */
  datatype Error = NotEnoughMessages | TooManyMessages | MsgNotEmpty

  datatype Option<+T> = None | Some(value: T)

  datatype Result<+T> = Ok(value: T) | Err(error: Error)
}
