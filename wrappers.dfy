/** Failure-compatible wrappers shared by every module, and the crate's error type. */
module Wrappers {

  datatype Option<+T> = None | Some(value: T) {
    /** The wrapped value, or `default` when there is none. */
    function GetOr(default: T): T {
      match this
      case Some(v) => v
      case None => default
    }
  }

  /** `Some(true)` is the only setting of an optional flag that switches it on. */
  predicate IsSet(flag: Option<bool>) {
    flag == Some(true)
  }

  /** An optional clause of a statement: the prefix followed by the value, or nothing when it is unset. */
  function Clause(prefix: string, o: Option<string>): string {
    if o.Some? then prefix + o.value else ""
  }

  /** The crate's error: a message, or an unknown failure. */
  datatype SqlError = Message(text: string) | Unknown

  /** The result of every fallible rendering step; `:-` propagates the first error. */
  datatype Result<+T> = Ok(value: T) | Err(error: SqlError) {
    predicate IsFailure() {
      Err?
    }

    function PropagateFailure<U>(): Result<U>
      requires Err?
    {
      Err(error)
    }

    function Extract(): T
      requires Ok?
    {
      value
    }
  }

  /** The largest `usize`: counts and offsets are 64-bit unsigned integers. */
  const UsizeMax: nat := 0xFFFF_FFFF_FFFF_FFFF
}
