/** The optional values of the source (`X | None`) and `dict.get` with a default. */
module Options {
  datatype Option<+T> = None | Some(value: T)

  /** `m.get(k, default)`. */
  function GetOr<K, V>(m: map<K, V>, k: K, default: V): V {
    if k in m then m[k] else default
  }

  /** `m.get(k)`. */
  function Get<K, V>(m: map<K, V>, k: K): Option<V> {
    if k in m then Some(m[k]) else None
  }
}
