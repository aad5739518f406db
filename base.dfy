/** Optional values and success/failure results, used wherever the source
    returns `null` from a regex match or throws. */
module Base {

  datatype Option<+T> = None | Some(value: T)

  datatype Result<+T, +E> = Success(value: T) | Failure(error: E)

  /** Concatenation is associative; stated once so that proofs about event
      logs need not rediscover it element by element. */
  lemma {:induction false} AppendAssociates<T>(a: seq<T>, b: seq<T>, c: seq<T>)
    ensures a + (b + c) == a + b + c
  {
  }
}
