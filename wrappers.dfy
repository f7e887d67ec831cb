/** The optional value used for PHP's `false`-or-value returns. */
module Wrappers {

  datatype Option<+T> = None | Some(value: T)

  /** Looks up `k`; an absent key reads as `None`. */
  function Lookup<K, V>(m: map<K, V>, k: K): Option<V>
  {
    if k in m then Some(m[k]) else None
  }
}
