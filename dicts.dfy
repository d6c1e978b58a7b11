/**
 * Python dictionaries keyed by strings, kept as their insertion-ordered item
 * list: iteration order matters where the core loops over `dict.items()`.
 */
module Dicts {
  import opened Outcomes

  type Dict<V> = seq<(string, V)>

  /** A Python dict never holds the same key twice. */
  predicate UniqueKeys<V>(d: Dict<V>) {
    forall i, j :: 0 <= i < j < |d| ==> d[i].0 != d[j].0
  }

  /** `list(d)`: the keys in iteration order. */
  function Keys<V>(d: Dict<V>): (ks: seq<string>)
    ensures |ks| == |d| && forall i :: 0 <= i < |d| ==> ks[i] == d[i].0
  {
    seq(|d|, i requires 0 <= i < |d| => d[i].0)
  }

  /** `k in d` */
  predicate HasKey<V>(d: Dict<V>, k: string) {
    exists i :: 0 <= i < |d| && d[i].0 == k
  }

  /** `d.get(k)` */
  function Get<V>(d: Dict<V>, k: string): (r: Option<V>)
    ensures r.Some? <==> HasKey(d, k)
    ensures r.Some? ==> (k, r.value) in d
    ensures UniqueKeys(d) ==> forall i :: 0 <= i < |d| && d[i].0 == k ==> r == Some(d[i].1)
  {
    if |d| == 0 then None
    else if d[0].0 == k then Some(d[0].1)
    else
      var r := Get(d[1..], k);
      assert HasKey(d[1..], k) ==> HasKey(d, k) by {
        if HasKey(d[1..], k) {
          var i :| 0 <= i < |d[1..]| && d[1..][i].0 == k;
          assert d[i + 1].0 == k;
        }
      }
      assert HasKey(d, k) ==> HasKey(d[1..], k) by {
        if HasKey(d, k) {
          var i :| 0 <= i < |d| && d[i].0 == k;
          assert d[1..][i - 1].0 == k;
        }
      }
      r
  }

  /** The key/value pairs of `d` as a map (`dict(d)`). */
  function ToMap<V>(d: Dict<V>): (m: map<string, V>)
    ensures forall k :: k in m <==> HasKey(d, k)
    ensures forall k :: k in m ==> Get(d, k) == Some(m[k])
  {
    map k | k in (set i | 0 <= i < |d| :: d[i].0) :: Get(d, k).value
  }
}
