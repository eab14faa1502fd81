// A map that remembers insertion order, as JavaScript's Map does.

module InsertionMap {

  ghost predicate Distinct<K(!new)>(keys: seq<K>) {
    forall i, j :: 0 <= i < j < |keys| ==> keys[i] != keys[j]
  }

  datatype InsertionMap<K(==,!new), V> = InsertionMap(order: seq<K>, table: map<K, V>) {

    ghost predicate Valid() {
      && Distinct(order)
      && (forall k :: k in order <==> k in table)
    }

    // A key already present keeps its place.
    function Set(k: K, v: V): (r: InsertionMap<K, V>)
      ensures r.table == table[k := v]
      ensures Valid() ==> r.Valid()
      ensures |r.order| <= |order| + 1
    {
      if k in table then this.(table := table[k := v])
      else InsertionMap(order + [k], table[k := v])
    }

    function Delete(k: K): (r: InsertionMap<K, V>)
      ensures r.table == table - {k}
      ensures Valid() ==> r.Valid()
      ensures |r.order| <= |order|
      ensures Valid() && k in table ==> |r.order| < |order|
    {
      DropKeeps(order, k);
      InsertionMap(Drop(order, k), table - {k})
    }
  }

  function Drop<K(==)>(keys: seq<K>, gone: K): (r: seq<K>)
  {
    if keys == [] then []
    else (if keys[0] == gone then [] else [keys[0]]) + Drop(keys[1..], gone)
  }

  lemma {:induction false} DropKeeps<K(!new)>(keys: seq<K>, gone: K)
    ensures var r := Drop(keys, gone);
            && |r| <= |keys|
            && (gone in keys ==> |r| < |keys|)
            && (forall k :: k in r <==> k in keys && k != gone)
            && (Distinct(keys) ==> Distinct(r))
  {
    if keys != [] {
      DropKeeps(keys[1..], gone);
      var r, rest := Drop(keys, gone), Drop(keys[1..], gone);
      assert keys == [keys[0]] + keys[1..];
      if Distinct(keys) && keys[0] != gone {
        assert r == [keys[0]] + rest;
        forall j | 0 <= j < |rest| ensures rest[j] != keys[0] {
          assert rest[j] in rest;
        }
      }
    }
  }
}
