/** The optional value used wherever the Go code has a nil-able pointer, function or map entry. */
module Wrappers {

  datatype Option<+T> = None | Some(value: T)

  /** Map lookup with Go's "value, ok" reading. */
  function Lookup<K, V>(m: map<K, V>, k: K): Option<V> {
    if k in m then Some(m[k]) else None
  }
}
