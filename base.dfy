/** Small value wrappers shared by every module of the shop model. */
module Base {

  /** A value that may be absent: a nullable column or a query that found nothing. */
  datatype Option<+T> = None | Some(value: T)

  /** The outcome of an operation that either returns a value or raises an error. */
  datatype Result<+T, +E> = Success(value: T) | Failure(error: E)

  /** `n` copies of `x`, in a row. */
  function Repeat<T>(x: T, n: nat): (r: seq<T>)
    ensures |r| == n
    ensures forall i :: 0 <= i < n ==> r[i] == x
  {
    if n == 0 then [] else Repeat(x, n - 1) + [x]
  }

  /** Concatenation is associative. */
  lemma AppendAssoc<T>(a: seq<T>, b: seq<T>, c: seq<T>)
    ensures a + (b + c) == a + b + c
  {
  }

  lemma RepeatPrefix<T>(x: T, n: nat, k: nat)
    requires k <= n
    ensures Repeat(x, n)[..k] == Repeat(x, k)
  {
  }
}
