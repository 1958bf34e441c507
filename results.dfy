/** Option and Result values used for the Rust `Option`/`Result` returns of every core. */
module Results {

  datatype Option<T> = None | Some(value: T)

  datatype Result<T, E> = Ok(value: T) | Err(error: E)

  /** The value stored under `k`, or `default` when `k` is absent
      (the `unwrap_or(..)` / `ValueQuery` read of a storage map). */
  function GetOr<K, V>(m: map<K, V>, k: K, default: V): (v: V)
    ensures k in m ==> v == m[k]
    ensures k !in m ==> v == default
  {
    if k in m then m[k] else default
  }
}
