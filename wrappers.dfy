/** Value-or-failure wrappers for calls into the lottery contract and the wallet. */
module Wrappers {

  /** A call that either returns a value or fails (the failure itself is not inspected). */
  datatype Option<+T> = None | Some(value: T)

  /** A call that either returns a value or fails with an error the caller looks at. */
  datatype Result<+T, +E> = Success(value: T) | Failure(error: E)

  function Min(a: int, b: int): int { if a <= b then a else b }

  function Max(a: int, b: int): int { if a >= b then a else b }

  /** Concatenation regroups freely; stated once so that proofs need not redo it element by element. */
  lemma AppendAssoc<T>(x: seq<T>, y: seq<T>, z: seq<T>)
    ensures x + (y + z) == (x + y) + z
  {
  }
}
