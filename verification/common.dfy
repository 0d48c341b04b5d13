/** Shared vocabulary: an optional value, and Python dictionaries modelled as
    sequences of (key, value) pairs in insertion order. */
module Common {

  datatype Option<+T> = None | Some(value: T)

  /** The keys of a dictionary, in insertion order. */
  function Keys<K, V>(table: seq<(K, V)>): (ks: seq<K>)
    ensures |ks| == |table|
    ensures forall i :: 0 <= i < |table| ==> ks[i] == table[i].0
  {
    if table == [] then [] else [table[0].0] + Keys(table[1..])
  }

  /** `key in table` for a dictionary. */
  predicate HasKey<K(==), V>(table: seq<(K, V)>, key: K) {
    exists i :: 0 <= i < |table| && table[i].0 == key
  }

  /** No key occurs twice, as in every Python dictionary. */
  predicate DistinctKeys<K(==), V>(table: seq<(K, V)>) {
    forall i, j :: 0 <= i < j < |table| ==> table[i].0 != table[j].0
  }

  /** `table.get(key)`: the value stored under the first entry with that key. */
  function Lookup<K(==), V>(table: seq<(K, V)>, key: K): Option<V> {
    if table == [] then None
    else if table[0].0 == key then Some(table[0].1)
    else Lookup(table[1..], key)
  }

  /** A lookup finds something exactly when the key is present, and what it
      finds is stored under that key. */
  lemma {:induction false} LookupFound<K, V>(table: seq<(K, V)>, key: K)
    ensures Lookup(table, key).Some? <==> HasKey(table, key)
    ensures Lookup(table, key).Some? ==> (key, Lookup(table, key).value) in table
  {
    if table != [] && table[0].0 != key {
      LookupFound(table[1..], key);
      assert forall i :: 0 < i < |table| ==> table[i] == table[1..][i - 1];
      if HasKey(table, key) {
        var i :| 0 <= i < |table| && table[i].0 == key;
        assert table[1..][i - 1].0 == key;
      }
    }
  }

  /** In a dictionary with distinct keys, every entry is what a lookup of its key returns. */
  lemma {:induction false} LookupEntry<K, V>(table: seq<(K, V)>, i: nat)
    requires DistinctKeys(table) && i < |table|
    ensures Lookup(table, table[i].0) == Some(table[i].1)
  {
    if i > 0 {
      assert table[0].0 != table[i].0;
      assert table[1..][i - 1] == table[i];
      LookupEntry(table[1..], i - 1);
    }
  }

  /** The lookup returns the first entry with the key. */
  lemma {:induction false} LookupAt<K, V>(table: seq<(K, V)>, key: K, i: nat)
    requires i < |table| && table[i].0 == key
    requires forall j :: 0 <= j < i ==> table[j].0 != key
    ensures Lookup(table, key) == Some(table[i].1)
  {
    if i > 0 {
      assert table[1..][i - 1] == table[i];
      LookupAt(table[1..], key, i - 1);
    }
  }
}
