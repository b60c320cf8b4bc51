// Shared value types: an optional value, and the way a Python call ends.
module Basics {
  datatype Option<+T> = None | Some(value: T)

  // The exception classes the connection's callers can tell apart.
  //   Cancelled  asyncio.CancelledError
  //   Unknown    ControlOutcomeUnknownError
  //   TTLock     any other TTLockError
  //   TimedOut   TimeoutError
  //   Other      any other Exception
  //   Ownership  one of the five ownership RuntimeErrors
  datatype Error = Cancelled | Unknown | TTLock | TimedOut | Other | Ownership

  // The command opcodes that matter here.
  datatype Command = CheckUserTime | LockBolt | UnlockBolt | OtherCommand(code: int)

  // A call either returns a value or raises.  `:-` propagates the exception.
  datatype Exit<+T> = Return(value: T) | Raise(error: Error) {
    predicate IsFailure() {
      Raise?
    }

    function PropagateFailure<U>(): Exit<U>
      requires Raise?
    {
      Raise(error)
    }

    function Extract(): T
      requires Return?
    {
      value
    }
  }

  function Min(a: real, b: real): real {
    if a <= b then a else b
  }

  function Max(a: real, b: real): real {
    if a <= b then b else a
  }
}
