/**
 * The dictionary behind a JavaScript `Map`: a finite map that remembers the
 * order in which its keys were first inserted. `set` on a present key
 * replaces the value and keeps the key where it stands, `set` on a new key
 * appends it, `delete` drops the one key, and iteration visits the keys in
 * insertion order.
 */
module OrderedMap {
  import opened Wrappers

  /** The elements of a sequence, as a set. */
  ghost function Elements<K>(s: seq<K>): set<K>
  {
    if s == [] then {} else {s[0]} + Elements(s[1..])
  }

  /** No element occurs twice. */
  ghost predicate Distinct<K>(s: seq<K>)
  {
    s == [] || (s[0] !in Elements(s[1..]) && Distinct(s[1..]))
  }

  /** `s` without `k`, the other elements in their order. */
  function Remove<K(==)>(s: seq<K>, k: K): (r: seq<K>)
    ensures |r| <= |s|
  {
    if s == [] then []
    else if s[0] == k then Remove(s[1..], k)
    else [s[0]] + Remove(s[1..], k)
  }

  /** Removing `k` keeps every other element and drops `k`. */
  lemma {:induction false} RemoveElements<K>(s: seq<K>, k: K)
    ensures Elements(Remove(s, k)) == Elements(s) - {k}
  {
    if s != [] {
      RemoveElements(s[1..], k);
      if s[0] != k {
        assert ([s[0]] + Remove(s[1..], k))[1..] == Remove(s[1..], k);
      }
    }
  }

  /** Removing an element that is not there changes nothing. */
  lemma {:induction false} RemoveAbsent<K>(s: seq<K>, k: K)
    requires k !in Elements(s)
    ensures Remove(s, k) == s
  {
    if s != [] {
      RemoveAbsent(s[1..], k);
      assert [s[0]] + s[1..] == s;
    }
  }

  /** Removing from a sequence without repetitions leaves one without repetitions. */
  lemma {:induction false} RemoveKeepsDistinct<K>(s: seq<K>, k: K)
    requires Distinct(s)
    ensures Distinct(Remove(s, k))
  {
    if s != [] {
      RemoveKeepsDistinct(s[1..], k);
      if s[0] != k {
        var rest := Remove(s[1..], k);
        RemoveElements(s[1..], k);
        assert ([s[0]] + rest)[1..] == rest;
      }
    }
  }

  /** In a sequence without repetitions, removing the first element leaves the rest. */
  lemma RemoveFirst<K>(s: seq<K>)
    requires Distinct(s) && s != []
    ensures Remove(s, s[0]) == s[1..]
  {
    RemoveAbsent(s[1..], s[0]);
  }

  /** Appending a new element keeps the elements distinct and adds it to them. */
  lemma {:induction false} AppendFresh<K>(s: seq<K>, k: K)
    requires Distinct(s) && k !in Elements(s)
    ensures Elements(s + [k]) == Elements(s) + {k}
    ensures Distinct(s + [k])
  {
    if s != [] {
      AppendFresh(s[1..], k);
      assert (s + [k])[1..] == s[1..] + [k];
    } else {
      assert ([] + [k])[1..] == [];
    }
  }

  /** The values of `table` under the keys of `order`, in that order; keys without a value are skipped. */
  function ValuesOf<K(==), V>(order: seq<K>, table: map<K, V>): seq<V>
  {
    if order == [] then []
    else (if order[0] in table then [table[order[0]]] else []) + ValuesOf(order[1..], table)
  }

  /** The values under keys other than `k` do not depend on `k`'s entry. */
  lemma {:induction false} ValuesOfIgnores<K, V>(order: seq<K>, table: map<K, V>, k: K)
    requires k !in Elements(order)
    ensures ValuesOf(order, table - {k}) == ValuesOf(order, table)
  {
    if order != [] {
      ValuesOfIgnores(order[1..], table, k);
    }
  }

  /** Each key of `order` that has a value contributes one value, so every such value is listed. */
  lemma {:induction false} ValuesOfCover<K, V>(order: seq<K>, table: map<K, V>)
    ensures Elements(order) <= table.Keys ==> |ValuesOf(order, table)| == |order|
    ensures forall k :: k in Elements(order) && k in table ==> table[k] in ValuesOf(order, table)
    ensures forall v :: v in ValuesOf(order, table) ==> exists k :: k in Elements(order) && k in table && table[k] == v
  {
    if order != [] {
      ValuesOfCover(order[1..], table);
      var head := if order[0] in table then [table[order[0]]] else [];
      assert ValuesOf(order, table) == head + ValuesOf(order[1..], table);
    }
  }

  /** A `Map`: its keys in insertion order and the value of each key. */
  datatype Dict<K(==,!new), V> = Dict(order: seq<K>, table: map<K, V>)
  {
    /** The order lists each key of the table exactly once. */
    ghost predicate Valid()
    {
      Distinct(order) && Elements(order) == table.Keys
    }

    /** `Map.prototype.get`, with `undefined` as `None`. */
    function Get(k: K): Option<V>
    {
      if k in table then Some(table[k]) else None
    }

    /** `Map.prototype.set`: the value under `k` is now `v`, nothing else changes. */
    function Set(k: K, v: V): (r: Dict<K, V>)
      ensures r.Get(k) == Some(v)
      ensures forall q :: q != k ==> r.Get(q) == Get(q)
      ensures Valid() ==> r.Valid()
      ensures r.order == if k in table then order else order + [k]
    {
      if k in table then Dict(order, table[k := v])
      else
        var r := Dict(order + [k], table[k := v]);
        assert Valid() ==> r.Valid() by {
          if Valid() {
            AppendFresh(order, k);
          }
        }
        r
    }

    /** `Map.prototype.delete`: `k` is gone, nothing else changes; deleting an absent key is a no-op. */
    function Delete(k: K): (r: Dict<K, V>)
      ensures r.Get(k) == None
      ensures forall q :: q != k ==> r.Get(q) == Get(q)
      ensures Valid() ==> r.Valid()
      ensures Valid() && k !in table ==> r == this
      ensures r.order == Remove(order, k)
    {
      var r := Dict(Remove(order, k), table - {k});
      assert Valid() ==> r.Valid() by {
        if Valid() {
          RemoveKeepsDistinct(order, k);
          RemoveElements(order, k);
        }
      }
      assert Valid() && k !in table ==> r == this by {
        if Valid() && k !in table {
          RemoveAbsent(order, k);
          assert table - {k} == table;
        }
      }
      r
    }

    /** The values in iteration order, as `Map.prototype.values` yields them. */
    function Values(): seq<V>
    {
      ValuesOf(order, table)
    }
  }

  /**
   * Deleting the first key in iteration order leaves the other keys in
   * order and drops exactly the first value: one step of a loop over
   * `m.entries()` that deletes each key it visits.
   */
  lemma ValuesDeleteFirst<K(!new), V>(d: Dict<K, V>)
    requires d.Valid() && d.order != []
    ensures d.Delete(d.order[0]).Valid()
    ensures d.Delete(d.order[0]).order == d.order[1..]
    ensures d.Values() == [d.table[d.order[0]]] + d.Delete(d.order[0]).Values()
  {
    RemoveFirst(d.order);
    ValuesOfIgnores(d.order[1..], d.table, d.order[0]);
  }

  /**
   * The values visited by iterating a map are exactly the values it holds:
   * one per key, each key's value among them, and nothing else.
   */
  lemma ValuesCover<K(!new), V>(d: Dict<K, V>)
    requires d.Valid()
    ensures |d.Values()| == |d.order|
    ensures forall k :: k in d.table ==> d.table[k] in d.Values()
    ensures forall v :: v in d.Values() ==> exists k :: k in d.table && d.table[k] == v
  {
    ValuesOfCover(d.order, d.table);
  }

  /** A well-formed map with no keys in its order is the empty map. */
  lemma NoKeysIsEmpty<K(!new), V>(d: Dict<K, V>)
    requires d.Valid() && d.order == []
    ensures d == Empty()
  {
    assert d.table.Keys == {};
  }

  /** `new Map()`. */
  function Empty<K(==,!new), V>(): (d: Dict<K, V>)
    ensures d.Valid() && d.order == [] && forall k :: d.Get(k) == None
  {
    Dict([], map[])
  }
}
