/** Counting dictionaries: the loop
      for x in xs: d[key(x)] = d.get(key(x), 0) + 1
    that builds the biome and turn distributions. */
module Counting {

  /** The dictionary the loop holds after visiting `keys` left to right. Its
      keys are exactly the values that occur, and every count is positive
      (HistogramCount: it is the number of occurrences). */
  function Histogram<K(==,!new)>(keys: seq<K>): (h: map<K, nat>)
    ensures forall k :: k in h <==> k in keys
    ensures forall k :: k in h ==> h[k] >= 1
    decreases |keys|
  {
    if |keys| == 0 then map[]
    else
      var init := keys[..|keys| - 1];
      var k := keys[|keys| - 1];
      assert keys == init + [k];
      var h0 := Histogram(init);
      h0[k := (if k in h0 then h0[k] else 0) + 1]
  }

  /** Each count is the number of times the key occurs. */
  lemma {:induction false} HistogramCount<K(!new)>(keys: seq<K>, k: K)
    requires k in keys
    ensures Histogram(keys)[k] == multiset(keys)[k]
    decreases |keys|
  {
    var init := keys[..|keys| - 1];
    var last := keys[|keys| - 1];
    assert keys == init + [last];
    assert multiset(keys) == multiset(init) + multiset{last};
    if k in init {
      HistogramCount(init, k);
    } else {
      assert multiset(init)[k] == 0;
    }
  }

  ghost function Pick<K>(m: map<K, nat>): K
    requires |m| > 0
  {
    var k :| k in m; k
  }

  /** The sum of the values of a dictionary. */
  ghost function MapSum<K>(m: map<K, nat>): nat
    decreases |m|
  {
    if |m| == 0 then 0
    else
      var k := Pick(m);
      assert |(m - {k}).Keys| == |m.Keys - {k}| == |m.Keys| - 1;
      m[k] + MapSum(m - {k})
  }

  /** The sum does not depend on which key is taken out first. */
  lemma {:induction false} MapSumRemove<K>(m: map<K, nat>, k: K)
    requires k in m
    ensures MapSum(m) == m[k] + MapSum(m - {k})
    decreases |m|
  {
    var j := Pick(m);
    assert |(m - {j}).Keys| == |m.Keys| - 1;
    if j != k {
      assert |(m - {k}).Keys| == |m.Keys| - 1;
      MapSumRemove(m - {j}, k);
      MapSumRemove(m - {k}, j);
      assert m - {j} - {k} == m - {k} - {j};
    }
  }

  /** Changing one entry changes the sum by the difference. */
  lemma MapSumUpdate<K>(m: map<K, nat>, k: K, v: nat)
    ensures MapSum(m[k := v]) == MapSum(m) - (if k in m then m[k] else 0) + v
  {
    var m' := m[k := v];
    MapSumRemove(m', k);
    assert m'[k] == v;
    if k in m {
      MapSumRemove(m, k);
      assert m' - {k} == m - {k};
    } else {
      assert m' - {k} == m;
    }
  }

  /** The counts add up to the number of elements counted. */
  lemma {:induction false} HistogramTotal<K(!new)>(keys: seq<K>)
    ensures MapSum(Histogram(keys)) == |keys|
    decreases |keys|
  {
    if |keys| > 0 {
      var init := keys[..|keys| - 1];
      var k := keys[|keys| - 1];
      var h0 := Histogram(init);
      var old_k := if k in h0 then h0[k] else 0;
      assert Histogram(keys) == h0[k := old_k + 1];
      HistogramTotal(init);
      MapSumUpdate(h0, k, old_k + 1);
      assert MapSum(h0[k := old_k + 1]) == MapSum(h0) + 1;
    }
  }

  lemma HistogramEmpty<K(!new)>(keys: seq<K>)
    ensures Histogram(keys) == map[] <==> |keys| == 0
  {
    if |keys| > 0 {
      assert keys[0] in Histogram(keys);
    }
  }

  /** The counting loop itself. */
  method Tally<K(==,!new)>(keys: seq<K>) returns (h: map<K, nat>)
    ensures h == Histogram(keys)
  {
    h := map[];
    for i := 0 to |keys|
      invariant h == Histogram(keys[..i])
    {
      var k := keys[i];
      assert keys[..i + 1][..i] == keys[..i];
      h := h[k := (if k in h then h[k] else 0) + 1];
    }
    assert keys[..|keys|] == keys;
  }
}
