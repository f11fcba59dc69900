/**
 * Listing the values of a Go map by ranging over it: the order is whatever
 * the runtime picks, so the listing is specified by what it holds, not by
 * its order.
 */
module MapView {
  predicate DistinctKeys(keys: seq<string>) {
    forall i, j :: 0 <= i < j < |keys| ==> keys[i] != keys[j]
  }

  /**
   * Range over `m` in an arbitrary order and keep the values that satisfy
   * `keep`; `keys[i]` is the key `values[i]` was found under.
   */
  method CollectWhere<V>(m: map<string, V>, keep: V -> bool) returns (keys: seq<string>, values: seq<V>)
    ensures |keys| == |values| && DistinctKeys(keys)
    ensures forall i :: 0 <= i < |keys| ==> keys[i] in m && values[i] == m[keys[i]] && keep(values[i])
    ensures forall k :: k in m && keep(m[k]) ==> k in keys
  {
    keys, values := [], [];
    var rest := m.Keys;
    while rest != {}
      invariant rest <= m.Keys
      invariant |keys| == |values| && DistinctKeys(keys)
      invariant forall i :: 0 <= i < |keys| ==> keys[i] in m && keys[i] !in rest && values[i] == m[keys[i]] && keep(values[i])
      invariant forall k :: k in m && k !in rest && keep(m[k]) ==> k in keys
      decreases rest
    {
      var k :| k in rest;
      if keep(m[k]) {
        keys, values := keys + [k], values + [m[k]];
      }
      rest := rest - {k};
    }
  }

  /** A listing of every value has as many elements as the map has keys. */
  lemma {:induction false} AllListed<V>(m: map<string, V>, keys: seq<string>)
    requires DistinctKeys(keys)
    requires forall i :: 0 <= i < |keys| ==> keys[i] in m
    requires forall k :: k in m ==> k in keys
    ensures |keys| == |m|
  {
    var s := set i | 0 <= i < |keys| :: keys[i];
    assert s == m.Keys;
    DistinctSize(keys);
  }

  lemma {:induction false} DistinctSize(keys: seq<string>)
    requires DistinctKeys(keys)
    ensures |set i | 0 <= i < |keys| :: keys[i]| == |keys|
  {
    if keys != [] {
      var n := |keys| - 1;
      DistinctSize(keys[..n]);
      var front := set i | 0 <= i < n :: keys[..n][i];
      assert (set i | 0 <= i < |keys| :: keys[i]) == front + {keys[n]};
      assert keys[n] !in front;
    }
  }
}
