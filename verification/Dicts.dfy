/** Dicts that keep the order in which their keys were first inserted. */
module Dicts {
  import opened Wrappers

  type Dict<K, V> = seq<(K, V)>

  predicate HasKey<K(==), V>(d: Dict<K, V>, key: K) {
    exists i :: 0 <= i < |d| && d[i].0 == key
  }

  predicate DistinctKeys<K(==), V>(d: Dict<K, V>) {
    forall i, j | 0 <= i < j < |d| :: d[i].0 != d[j].0
  }

  function Find<K(==), V>(d: Dict<K, V>, key: K): Option<V> {
    if d == [] then None
    else if d[0].0 == key then Some(d[0].1)
    else Find(d[1..], key)
  }

  /** `d[key] = value`: an existing key keeps its place. */
  function Put<K(==), V>(d: Dict<K, V>, key: K, value: V): Dict<K, V> {
    if d == [] then [(key, value)]
    else if d[0].0 == key then [(key, value)] + d[1..]
    else [d[0]] + Put(d[1..], key, value)
  }

  /** `d.pop(key, None)`. */
  function Drop<K(==), V>(d: Dict<K, V>, key: K): Dict<K, V> {
    if d == [] then []
    else (if d[0].0 == key then [] else [d[0]]) + Drop(d[1..], key)
  }

  function Values<K, V>(d: Dict<K, V>): seq<V> {
    seq(|d|, i requires 0 <= i < |d| => d[i].1)
  }

  lemma HasKeyCons<K, V>(d: Dict<K, V>, key: K)
    requires d != []
    ensures HasKey(d, key) <==> d[0].0 == key || HasKey(d[1..], key)
  {
    if HasKey(d, key) && d[0].0 != key {
      var i :| 0 <= i < |d| && d[i].0 == key;
      assert d[1..][i - 1].0 == key;
    }
    if HasKey(d[1..], key) {
      var i :| 0 <= i < |d[1..]| && d[1..][i].0 == key;
      assert d[i + 1].0 == key;
    }
  }

  lemma {:induction false} FindMeans<K, V>(d: Dict<K, V>, key: K)
    ensures Find(d, key).Some? <==> HasKey(d, key)
    ensures Find(d, key).Some? ==> (key, Find(d, key).value) in d
  {
    if d != [] {
      HasKeyCons(d, key);
      FindMeans(d[1..], key);
    }
  }

  /** In a dict, an item is what its key finds. */
  lemma FindItem<K, V>(d: Dict<K, V>, item: (K, V))
    requires DistinctKeys(d) && item in d
    ensures Find(d, item.0) == Some(item.1)
  {
    var i :| 0 <= i < |d| && d[i] == item;
    FindMeans(d, item.0);
    var j :| 0 <= j < |d| && d[j] == (item.0, Find(d, item.0).value);
    assert i == j;
  }

  lemma {:induction false} FindPut<K, V>(d: Dict<K, V>, key: K, value: V, other: K)
    ensures Find(Put(d, key, value), other) == if other == key then Some(value) else Find(d, other)
  {
    if d != [] && d[0].0 != key {
      FindPut(d[1..], key, value, other);
      assert Put(d, key, value)[1..] == Put(d[1..], key, value);
    }
  }

  lemma {:induction false} FindDrop<K, V>(d: Dict<K, V>, key: K, other: K)
    ensures Find(Drop(d, key), other) == if other == key then None else Find(d, other)
  {
    if d != [] {
      FindDrop(d[1..], key, other);
      if d[0].0 == key {
        assert Drop(d, key) == Drop(d[1..], key);
      } else {
        assert Drop(d, key)[1..] == Drop(d[1..], key);
      }
    }
  }

  lemma {:induction false} PutEffect<K(!new), V>(d: Dict<K, V>, key: K, value: V)
    requires DistinctKeys(d)
    ensures DistinctKeys(Put(d, key, value))
    ensures forall k :: HasKey(Put(d, key, value), k) <==> HasKey(d, k) || k == key
    ensures forall item | item in Put(d, key, value) :: item == (key, value) || (item in d && item.0 != key)
  {
    var r := Put(d, key, value);
    if d == [] {
      assert r[0].0 == key;
    } else {
      var rest := r[1..];
      if d[0].0 == key {
        assert rest == d[1..];
        forall item | item in rest ensures item in d && item.0 != key {
          var i :| 0 <= i < |rest| && rest[i] == item;
          assert d[i + 1] == item;
        }
      } else {
        PutEffect(d[1..], key, value);
        assert rest == Put(d[1..], key, value);
        forall i | 0 <= i < |rest| ensures rest[i].0 != d[0].0 {
          assert rest[i] in rest;
        }
      }
      forall k ensures HasKey(r, k) <==> HasKey(d, k) || k == key {
        HasKeyCons(d, k);
        HasKeyCons(r, k);
      }
    }
  }

  lemma PutHasKey<K, V>(d: Dict<K, V>, key: K, value: V, k: K)
    ensures HasKey(Put(d, key, value), k) <==> HasKey(d, k) || k == key
  {
    FindMeans(d, k);
    FindMeans(Put(d, key, value), k);
    FindPut(d, key, value, k);
  }

  lemma {:induction false} PutNew<K, V>(d: Dict<K, V>, key: K, value: V)
    requires !HasKey(d, key)
    ensures Put(d, key, value) == d + [(key, value)]
  {
    if d == [] {
      assert Put(d, key, value) == [(key, value)];
    } else {
      HasKeyCons(d, key);
      PutNew(d[1..], key, value);
      assert Put(d, key, value) == [d[0]] + (d[1..] + [(key, value)]);
      assert d == [d[0]] + d[1..];
    }
  }

  lemma {:induction false} DropMember<K, V>(d: Dict<K, V>, key: K, item: (K, V))
    ensures item in Drop(d, key) <==> item in d && item.0 != key
  {
    if d != [] {
      DropMember(d[1..], key, item);
      assert item in d <==> item == d[0] || item in d[1..];
    }
  }

  lemma DropHasKey<K, V>(d: Dict<K, V>, key: K, k: K)
    ensures HasKey(Drop(d, key), k) <==> HasKey(d, k) && k != key
  {
    FindMeans(d, k);
    FindMeans(Drop(d, key), k);
    FindDrop(d, key, k);
  }

  lemma {:induction false} DropDistinct<K, V>(d: Dict<K, V>, key: K)
    requires DistinctKeys(d)
    ensures DistinctKeys(Drop(d, key))
  {
    if d != [] {
      var rest := Drop(d[1..], key);
      DropDistinct(d[1..], key);
      forall i | 0 <= i < |rest| ensures rest[i].0 != d[0].0 {
        DropMember(d[1..], key, rest[i]);
      }
    }
  }

  lemma DropEffect<K(!new), V>(d: Dict<K, V>, key: K)
    requires DistinctKeys(d)
    ensures DistinctKeys(Drop(d, key))
    ensures forall k :: HasKey(Drop(d, key), k) <==> HasKey(d, k) && k != key
    ensures forall item | item in Drop(d, key) :: item in d && item.0 != key
  {
    DropDistinct(d, key);
    forall k ensures HasKey(Drop(d, key), k) <==> HasKey(d, k) && k != key {
      DropHasKey(d, key, k);
    }
    forall item | item in Drop(d, key) ensures item in d && item.0 != key {
      DropMember(d, key, item);
    }
  }

  lemma {:induction false} DropAbsent<K, V>(d: Dict<K, V>, key: K)
    requires !HasKey(d, key)
    ensures Drop(d, key) == d
  {
    if d != [] {
      HasKeyCons(d, key);
      DropAbsent(d[1..], key);
    }
  }

  lemma {:induction false} DropLast<K, V>(d: Dict<K, V>, key: K, value: V)
    requires !HasKey(d, key)
    ensures Drop(d + [(key, value)], key) == d
  {
    if d == [] {
      assert Drop([(key, value)][1..], key) == [];
    } else {
      HasKeyCons(d, key);
      assert (d + [(key, value)])[1..] == d[1..] + [(key, value)];
      DropLast(d[1..], key, value);
    }
  }
}
