/** Small shared vocabulary. */
module Prelude {

  /** A value that a lookup may not find. */
  datatype Option<+T> = None | Some(value: T)

  /** Opaque identifiers: UUIDs, hashes and database keys are only ever compared. */
  type Id = nat

  /** The lookup every `GET` performs. */
  function Find<K, V>(m: map<K, V>, k: K): Option<V> {
    if k in m then Some(m[k]) else None
  }
}
