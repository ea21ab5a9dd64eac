/** Small value types shared by every module. */
module Wrappers {

  datatype Option<+T> = None | Some(value: T)

  datatype Result<+T, +E> = Ok(value: T) | Err(error: E)

  /** Outcome of a check that carries no value. */
  datatype Check<+E> = Pass | Fail(error: E)

  /** A digest is the symbol of its preimage: equal digests have equal preimages. */
  datatype Digest<+B> = Sha256(preimage: B)

  /** A version 4 UUID, or any other opaque identifier. */
  type Id = nat
}
