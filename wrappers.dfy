/** Optional values: `null`/`undefined` in the application become `None`. */
module Wrappers {

  datatype Option<+T> = None | Some(value: T)

  /** The value stored under `key`, or `None` when the key is absent
      (what `localStorage.getItem` returns as `null`). */
  function Get<K, V>(m: map<K, V>, key: K): (r: Option<V>)
    ensures r.Some? <==> key in m
    ensures r.Some? ==> r.value == m[key]
  {
    if key in m then Some(m[key]) else None
  }

  /** JavaScript truthiness of an optional string: `null` and `""` are falsy. */
  predicate Truthy(s: Option<string>)
  {
    s.Some? && s.value != ""
  }
}
