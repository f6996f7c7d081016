/** Option and Result, the two failure-compatible wrappers the model uses for
    C#'s null results and thrown exceptions. */
module Wrappers {

  /** `None` stands for a C# null / a `FirstOrDefault` that found nothing. */
  datatype Option<+T> = None | Some(value: T) {
    /** The `??` operator: the value, or `default` when there is none. */
    function GetOr(default: T): T {
      match this
      case Some(v) => v
      case None => default
    }
  }

  /** `Failure` stands for an exception thrown by an operation. */
  datatype Result<+T, +E> = Success(value: T) | Failure(error: E)

  /** Sequence concatenation is associative; stated once so that long chains
      of appended report lines are regrouped without element-wise reasoning. */
  lemma AppendAssoc<T>(a: seq<T>, b: seq<T>, c: seq<T>)
    ensures a + (b + c) == (a + b) + c
  {
  }

  /** A slice of `s` is the slice one further along once `h` is put in front. */
  lemma ShiftedSlice<T>(h: T, s: seq<T>, i: nat, j: nat)
    requires i <= j <= |s|
    ensures ([h] + s)[i + 1..j + 1] == s[i..j]
  {
  }
}
