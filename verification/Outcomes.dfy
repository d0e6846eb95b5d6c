/** Results of operations that may be absent or may throw, and all of a sequence but its last element. */
module Outcomes {

  datatype Option<+T> = None | Some(value: T)

  /** What a call that may throw comes back with. */
  datatype Result<+T, +E> = Ok(value: T) | Err(error: E)

  function ButLast<T>(s: seq<T>): seq<T> {
    if s == [] then [] else s[..|s| - 1]
  }
}
