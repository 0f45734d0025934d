/** Types shared by every module of the model. */
module Common {

  datatype Option<+T> = None | Some(value: T)

  type Byte = b: int | 0 <= b < 256

  /** A SHA-256 digest. The hash itself is a parameter of the model: every theorem holds
      for every function from byte strings to digests. */
  type Checksum = c: seq<Byte> | |c| == 32 witness seq(32, _ => 0)

  /** The placeholder a record carries until its checksum is computed. */
  function ZeroChecksum(): Checksum {
    seq(32, _ => 0)
  }

  /** Byte strings are Dafny strings; a Rust `String` is the string of its UTF-8 code units. */
  type Hash = string -> Checksum

  /** Delivery statuses of an event, as they appear in the lifecycle and delivery tables. */
  datatype Status = LocalAccepted | Pending | Retrying | Replicated | Blocked
}
