/** Failure-carrying result types shared by the encoder and the invoker. */
module Wrappers {

  /** A value that may be missing, as a Python `dict.get` may return `None`. */
  datatype Option<+T> = None | Some(value: T)

  /** Either a computed value or the error that stopped the computation. */
  datatype Result<+T, +E> = Success(value: T) | Failure(error: E)

  /** Looks `k` up in `m`, yielding `None` when `k` is not a key (Python's `dict.get`). */
  function Get<K, V>(m: map<K, V>, k: K): (r: Option<V>)
    ensures r.Some? <==> k in m
    ensures r.Some? ==> r.value == m[k]
  {
    if k in m then Some(m[k]) else None
  }
}
