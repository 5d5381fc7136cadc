/** Datatypes shared by every component model. */
module Common {

  /** A value that may be absent: a nil pointer, a missing map entry, an omitted field. */
  datatype Option<+T> = None | Some(value: T)

  /** The outcome of an operation that can fail. */
  datatype Result<+T, +E> = Ok(value: T) | Err(error: E)

  /** The value stored under `k`, if any: a comma-ok map lookup. */
  function Lookup<K, V>(m: map<K, V>, k: K): Option<V> {
    if k in m then Some(m[k]) else None
  }
}
