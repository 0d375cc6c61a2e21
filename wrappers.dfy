/** Option and Result types shared by every module of the model.
    Errors of the original program are strings (`failure::Error` built from a
    formatted message), so `Result` carries a `string`. A Rust panic (an
    `unwrap` on `None`/`Err`, an out-of-range index, a `usize` underflow) is a
    separate outcome, `Panic`, so that no module has to forbid it by a
    precondition. */
module Wrappers {

  datatype Option<+T> = None | Some(value: T) {
    function GetOr(default: T): T {
      match this
      case Some(v) => v
      case None => default
    }
  }

  datatype Result<+T> = Ok(value: T) | Err(msg: string) {
    predicate IsFailure() { Err? }
    function PropagateFailure<U>(): Result<U>
      requires Err?
    {
      Err(msg)
    }
    function Extract(): T
      requires Ok?
    {
      value
    }
  }

  /** The outcome of code that may panic. */
  datatype Run<+T> = Done(value: T) | Panic(reason: string)
}
