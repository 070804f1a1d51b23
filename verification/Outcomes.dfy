/** Small result types shared by every component, and the driver that turns one turn
    of an asynchronous loop into a whole call. */
module Outcomes {

  datatype Option<+T> = None | Some(value: T)

  datatype Result<+T, +E> = Ok(value: T) | Err(error: E)

  /** What polling a future gives: not yet, or its output. */
  datatype Poll<+T> = Pending | Ready(output: T)

  /** One turn of a loop either goes round again or returns to the caller. */
  datatype Turn<+S, +R> = Again(state: S) | Return(state: S, result: R)

  function Min(a: int, b: int): int { if a <= b then a else b }

  function Max(a: int, b: int): int { if a >= b then a else b }
}
