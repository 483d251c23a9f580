/**
 * The dictionaries the splitter returns are filled by loops that store one
 * value per iteration (`results[key] = path`): a later key equal to an
 * earlier one overwrites it. `Keyed` is the dictionary such a loop leaves.
 */
module Results {
  import opened Document

  /** The dictionary left by storing `values[i]` under `keys[i]` for i = 0, 1, ... in turn. */
  function Keyed<K(==), V>(keys: seq<K>, values: seq<V>): (r: map<K, V>)
    requires |keys| == |values|
    ensures r.Keys == set k | k in keys
  {
    if keys == [] then map[]
    else
      var n := |keys| - 1;
      assert keys == keys[..n] + [keys[n]];
      Keyed(keys[..n], values[..n])[keys[n] := values[n]]
  }

  /** The position of the last occurrence of `k` in `keys`. */
  function LastIndex<K(==)>(keys: seq<K>, k: K): (r: Option<nat>)
    ensures r.Some? ==> r.value < |keys| && keys[r.value] == k
    ensures forall j :: (if r.Some? then r.value + 1 else 0) <= j < |keys| ==> keys[j] != k
  {
    if keys == [] then None
    else if keys[|keys| - 1] == k then Some(|keys| - 1)
    else LastIndex(keys[..|keys| - 1], k)
  }

  /** Last write wins: a stored key holds the value of its last occurrence. */
  lemma {:induction false} KeyedLastWins<K, V>(keys: seq<K>, values: seq<V>, k: K)
    requires |keys| == |values|
    ensures k in Keyed(keys, values) <==> LastIndex(keys, k).Some?
    ensures k in Keyed(keys, values) ==> Keyed(keys, values)[k] == values[LastIndex(keys, k).value]
  {
    if keys != [] {
      var n := |keys| - 1;
      KeyedLastWins(keys[..n], values[..n], k);
      if keys[n] != k {
        assert LastIndex(keys, k) == LastIndex(keys[..n], k);
      }
    }
  }

  ghost predicate Distinct<K>(keys: seq<K>) {
    forall i, j :: 0 <= i < j < |keys| ==> keys[i] != keys[j]
  }

  /** With distinct keys nothing is overwritten: every key holds its own value. */
  lemma KeyedDistinctAt<K, V>(keys: seq<K>, values: seq<V>, i: int)
    requires |keys| == |values| && Distinct(keys) && 0 <= i < |keys|
    ensures Keyed(keys, values)[keys[i]] == values[i]
  {
    KeyedLastWins(keys, values, keys[i]);
    assert LastIndex(keys, keys[i]) == Some(i);
  }

  /** One more iteration of the save loop. */
  lemma KeyedStep<K, V>(keys: seq<K>, values: seq<V>, i: int)
    requires |keys| == |values| && 0 <= i < |keys|
    ensures Keyed(keys[..i + 1], values[..i + 1]) == Keyed(keys[..i], values[..i])[keys[i] := values[i]]
  {
    assert keys[..i + 1][..i] == keys[..i];
    assert values[..i + 1][..i] == values[..i];
  }

  /** Storing into the right operand of a union is storing into the union. */
  lemma UnionUpdate<K, V>(base: map<K, V>, m: map<K, V>, k: K, v: V)
    ensures (base + m)[k := v] == base + m[k := v]
  {
  }
}
