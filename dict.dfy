/** A Python dict literal, kept as its (key, value) pairs in insertion order:
    `list(d.keys())` is `Keys(d)`, `k in d` is `HasKey(d, k)` and `d[k]` is
    `Get(d, k).value`. */
module Dict {
  import opened Wrappers

  function Keys<K, V>(d: seq<(K, V)>): seq<K>
  {
    seq(|d|, i requires 0 <= i < |d| => d[i].0)
  }

  /** A dict never holds a key twice. */
  predicate DistinctKeys<K(==), V>(d: seq<(K, V)>)
  {
    forall i, j :: 0 <= i < j < |d| ==> d[i].0 != d[j].0
  }

  predicate HasKey<K(==), V>(d: seq<(K, V)>, k: K)
  {
    exists i :: 0 <= i < |d| && d[i].0 == k
  }

  /** Lookup: the value stored under `k`, or None when `k` is absent. */
  function Get<K(==), V>(d: seq<(K, V)>, k: K): (r: Option<V>)
    ensures r.Some? <==> HasKey(d, k)
  {
    if |d| == 0 then None
    else if d[0].0 == k then Some(d[0].1)
    else
      assert HasKey(d[1..], k) <==> HasKey(d, k) by {
        if HasKey(d[1..], k) {
          var i :| 0 <= i < |d[1..]| && d[1..][i].0 == k;
          assert d[i + 1].0 == k;
        }
        if HasKey(d, k) {
          var i :| 0 <= i < |d| && d[i].0 == k;
          assert d[1..][i - 1].0 == k;
        }
      }
      Get(d[1..], k)
  }

  /** A successful lookup returns a value stored under that key. */
  lemma {:induction false} GetFound<K, V>(d: seq<(K, V)>, k: K)
    requires HasKey(d, k)
    ensures exists i :: 0 <= i < |d| && d[i].0 == k && d[i].1 == Get(d, k).value
  {
    if d[0].0 != k {
      GetFound(d[1..], k);
      var i :| 0 <= i < |d[1..]| && d[1..][i].0 == k && d[1..][i].1 == Get(d[1..], k).value;
      assert d[i + 1].0 == k && d[i + 1].1 == Get(d, k).value;
    }
  }

  /** With distinct keys, looking up the key of the i-th pair gives its value. */
  lemma {:induction false} GetAt<K, V>(d: seq<(K, V)>, i: int)
    requires DistinctKeys(d)
    requires 0 <= i < |d|
    ensures Get(d, d[i].0) == Some(d[i].1)
  {
    GetFound(d, d[i].0);
  }
}
