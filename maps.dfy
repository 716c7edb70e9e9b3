/** maps.go: the keys of a map, in iteration order and in ascending order. */
module Maps {
  import opened Sorting

  /**
   * allKeys: appends every key of `m` to a fresh slice while iterating the map.
   * Go iterates a map in an unspecified order, so the loop picks any key not yet
   * taken; the contract holds whatever order it picks.
   */
  method AllKeys<K(==), V>(m: map<K, V>) returns (result: seq<K>)
    ensures |result| == |m|
    ensures forall k :: k in result <==> k in m
    ensures Distinct(result)
  {
    result := [];
    var remaining := m.Keys;
    while remaining != {}
      invariant remaining <= m.Keys
      invariant forall k :: k in result <==> k in m && k !in remaining
      invariant Distinct(result)
      invariant |result| + |remaining| == |m|
      decreases remaining
    {
      var key :| key in remaining;
      result := result + [key];
      remaining := remaining - {key};
    }
  }

  /**
   * sortedKeys: allKeys followed by an in-place sort. The result is the one
   * ascending enumeration of the key set, whatever order the map was iterated in.
   */
  method SortedKeys<V>(m: map<string, V>) returns (result: seq<string>)
    ensures |result| == |m|
    ensures forall k :: k in result <==> k in m
    ensures StrictlySorted(result)
    ensures result == SortedOf(m.Keys)
  {
    var keys := AllKeys(m);
    var a := new string[|keys|](i requires 0 <= i < |keys| => keys[i]);
    assert a[..] == keys;
    Sort(a);
    result := a[..];
    SortedKeysUnique(keys, result, m.Keys);
  }

  /** A sorted permutation of the distinct keys of a set is that set in ascending order. */
  lemma SortedKeysUnique(keys: seq<string>, sorted: seq<string>, ks: set<string>)
    requires Distinct(keys) && forall k :: k in keys <==> k in ks
    requires multiset(sorted) == multiset(keys) && Sorted(sorted)
    ensures |sorted| == |keys|
    ensures forall k :: k in sorted <==> k in ks
    ensures StrictlySorted(sorted)
    ensures sorted == SortedOf(ks)
  {
    assert |sorted| == |multiset(sorted)| == |multiset(keys)| == |keys|;
    PermutationSameElements(keys, sorted);
    DistinctPermutation(keys, sorted);
    SortedDistinctIsStrict(sorted);
    StrictlySortedUnique(sorted, SortedOf(ks));
  }

  /** The keys of a map in ascending order are keys of the map. */
  lemma SortedKeysIn<V>(properties: seq<string>, m: map<string, V>)
    requires properties == SortedOf(m.Keys)
    ensures forall k :: k in properties ==> k in m
  {
  }
}
