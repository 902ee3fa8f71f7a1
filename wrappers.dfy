/** Optional values, used wherever the source has `null` or a missing key. */
module Wrappers {

  datatype Option<+T> = None | Some(value: T)

  /** A map lookup that reports a missing key as None (the model of `localStorage.getItem`). */
  function Lookup<K, V>(m: map<K, V>, k: K): Option<V> {
    if k in m then Some(m[k]) else None
  }
}
