/** Types shared by the framer, the registries and the dispatcher. */
module Common {

  /** An unsigned 8-bit value (C# `byte`). */
  newtype byte = b: int | 0 <= b < 256

  /** A reference that may be absent, or a value that may not have been written. */
  datatype Option<+T> = None | Some(value: T)

  /** The outcome of an operation that may throw. */
  datatype Outcome<+E> = Pass | Fail(error: E)

  /** A value, or the exception thrown instead of computing it. */
  datatype Result<+T, +E> = Success(value: T) | Failure(error: E)

  /** Sequence concatenation regrouped. */
  lemma AppendAssociative<T>(a: seq<T>, b: seq<T>, c: seq<T>)
    ensures a + (b + c) == (a + b) + c
  {
  }
}
