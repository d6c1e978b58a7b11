/** Option and Result values standing in for Python's `None` and raised exceptions. */
module Outcomes {

  datatype Option<+T> = None | Some(value: T) {
    /** The value, or `default` when absent (Python's `x or default`, `dict.get(k, default)`). */
    function GetOr(default: T): T {
      if Some? then value else default
    }
  }

  /** `Ok` is a normal return; `Err` is an exception that propagates to the caller. */
  datatype Result<+T, +E> = Ok(value: T) | Err(error: E)

  /** `m.get(k)` */
  function Lookup<K, V>(m: map<K, V>, k: K): (r: Option<V>)
    ensures r.Some? <==> k in m
    ensures r.Some? ==> r.value == m[k]
  {
    if k in m then Some(m[k]) else None
  }
}
