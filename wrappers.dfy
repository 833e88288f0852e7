/** Small value wrappers shared by the other modules. */
module Wrappers {

  datatype Option<+T> = None | Some(value: T)

  /** What a call in the modelled program does to its caller: it returns a value,
      or it raises an exception that escapes to the caller. */
  datatype Outcome<+T> = Returned(value: T) | Raised

  /** What a modelled function sent to the storage service, in order, and what it gave back. */
  datatype Run<+R, +T> = Run(requests: seq<R>, result: Outcome<T>)

  function Min(a: int, b: int): int
  {
    if a <= b then a else b
  }
}
