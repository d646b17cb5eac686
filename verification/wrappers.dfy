/** The absent-or-present value used wherever the source reads an optional
    JSON field, a nullable column or a lookup that may miss. */
module Wrappers {

  datatype Option<T> = None | Some(value: T) {

    /** The value, or `d` when absent (JavaScript's `x ?? d`). */
    function GetOr(d: T): T {
      if Some? then value else d
    }
  }

  /** Looking a key up in a map, as a JavaScript property read that may give `undefined`. */
  function Lookup<K, V>(m: map<K, V>, k: K): (r: Option<V>)
    ensures r.Some? <==> k in m
    ensures r.Some? ==> r.value == m[k]
  {
    if k in m then Some(m[k]) else None
  }
}
