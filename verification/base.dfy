/** Shared vocabulary of the model: Java references that may be null, the
    outcome of a service call, and Java's 32-bit `int` arithmetic. */
module Base {

  /** A Java reference that may be null: `None` is `null`. */
  datatype Option<+T> = None | Some(value: T) {

    /** The referenced value, or `default` when the reference is null. */
    function GetOr(default: T): (r: T)
      ensures Some? ==> r == value
      ensures None? ==> r == default
    {
      match this
      case Some(v) => v
      case None => default
    }
  }

  /** The outcome of a service call: its return value, or the exception it
      throws. Failure-compatible, so `:-` propagates the exception. */
  datatype Result<+T, +E> = Ok(value: T) | Err(error: E) {

    predicate IsFailure() {
      Err?
    }

    function PropagateFailure<U>(): Result<U, E>
      requires Err?
    {
      Err(error)
    }

    function Extract(): T
      requires Ok?
    {
      value
    }
  }

  const MIN_INT32: int := -0x8000_0000
  const MAX_INT32: int := 0x7FFF_FFFF

  /** Values of a Java `int` / `Integer`. */
  type Int32 = x: int | -0x8000_0000 <= x <= 0x7FFF_FFFF

  /** Java's `int + int`: two's-complement addition, wrapping on overflow. */
  function AddInt32(a: Int32, b: Int32): (r: Int32)
    ensures (r - (a + b)) % 0x1_0000_0000 == 0
    ensures MIN_INT32 <= a + b <= MAX_INT32 ==> r == a + b
  {
    var s := a + b;
    if s > MAX_INT32 then s - 0x1_0000_0000
    else if s < MIN_INT32 then s + 0x1_0000_0000
    else s
  }
}
