/** Shared vocabulary: optional values, map reads that may miss, and units of time in nanoseconds. */
module Wrappers {

  datatype Option<+T> = None | Some(value: T)

  function Lookup<K, V>(m: map<K, V>, k: K): (r: Option<V>)
    ensures r.Some? <==> k in m
    ensures r.Some? ==> r.value == m[k]
  {
    if k in m then Some(m[k]) else None
  }

  /** A read that yields the empty string for a missing key. */
  function At(m: map<string, string>, k: string): string { if k in m then m[k] else "" }

  const MICROSECOND: int := 1_000
  const MILLISECOND: int := 1_000_000
  const SECOND: int := 1_000_000_000
}
