/** Option, Result and Outcome: the failure-carrying values the client returns. */
module Wrappers {

  /**
    An optional value, as the client's `Option<T>` fields and lookups use it.
    A missing value stops a `:-` chain: the enclosing function then returns
    `None` itself.
  */
  datatype Option<+T> = None | Some(value: T) {

    predicate IsFailure() {
      None?
    }

    /** The `None` a stopped `:-` chain hands back, retyped for the caller. */
    function PropagateFailure<U>(): Option<U>
      requires None?
    {
      None
    }

    /** The value a `:-` binding continues with. */
    function Extract(): T
      requires Some?
    {
      value
    }

    /** `unwrap_or`: the carried value, or `default` when there is none. */
    function GetOr(default: T): T {
      match this
      case Some(v) => v
      case None => default
    }
  }

  /** Rust's `Result<R, E>`. */
  datatype Result<+R, +E> = Success(value: R) | Failure(error: E)

  /** A check that either passes or fails with an error and carries no value. */
  datatype Outcome<+E> = Pass | Fail(error: E)
}

/** The fixed-width unsigned integers of the Rust source, as bounded subsets of `int`. */
module Ints {
  type u8 = x: int | 0 <= x < 0x100
  type u16 = x: int | 0 <= x < 0x1_0000
  type u32 = x: int | 0 <= x < 0x1_0000_0000
  type u64 = x: int | 0 <= x < 0x1_0000_0000_0000_0000
}
