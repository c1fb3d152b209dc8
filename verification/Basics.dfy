/** Datatypes shared by every model of the SDK. */
module Basics {

  /** A value that may be absent: a nil pointer, a missing map key, a failed parse. */
  datatype Option<+T> = None | Some(value: T)

  type Byte = b: int | 0 <= b < 256

  type Bytes = seq<Byte>

  function Abs(n: int): nat {
    if n < 0 then -n else n
  }
}
