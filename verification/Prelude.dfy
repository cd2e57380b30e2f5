/** The option type, the finite-map lookup and the maximum the other modules share. */
module Prelude {

  datatype Option<+T> = None | Some(value: T)

  function Lookup<K, V>(m: map<K, V>, k: K): Option<V> {
    if k in m then Some(m[k]) else None
  }

  function Max(a: int, b: int): int {
    if a > b then a else b
  }
}
