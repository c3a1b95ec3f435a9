/** Result types shared by every module of the model.
    Every error path of the renderer goes through an error log call that throws
    (src/Log.cpp); the model turns each such throw into an `Err` carrying the
    message the source logs. */
module Wrappers {

  datatype Option<+T> = None | Some(value: T)

  datatype Outcome<+T> = Ok(value: T) | Err(msg: string) {
    predicate IsFailure() { Err? }

    function PropagateFailure<U>(): Outcome<U>
      requires Err?
    {
      Err(msg)
    }

    function Extract(): T
      requires Ok?
    {
      value
    }
  }
}

/** Fixed-width unsigned arithmetic of the C++ source, written out explicitly. */
module MachineInts {

  const TWO_TO_THE_32: int := 0x1_0000_0000
  const TWO_TO_THE_64: int := 0x1_0000_0000_0000_0000
  const UINT32_MAX: int := TWO_TO_THE_32 - 1

  newtype byte = x: int | 0 <= x < 256

  /** Conversion of an integer to `uint32_t` (two's complement wrap-around). */
  function Wrap32(x: int): (r: nat)
    ensures r < TWO_TO_THE_32
    ensures 0 <= x < TWO_TO_THE_32 ==> r == x
  {
    x % TWO_TO_THE_32
  }

  /** Conversion of an integer to `size_t` on a 64-bit target. */
  function Wrap64(x: int): (r: nat)
    ensures r < TWO_TO_THE_64
    ensures 0 <= x < TWO_TO_THE_64 ==> r == x
  {
    x % TWO_TO_THE_64
  }
}
