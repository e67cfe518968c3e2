/** A JavaScript `Map`: a finite map that also remembers the order in which
    keys were first inserted, because `Array.from(m.values())` enumerates the
    values in that order. Every map of the program is keyed by an id string. */
module OrderedMap {
  import opened Prelude

  type Key = string

  datatype OMap<V> = OMap(order: seq<Key>, table: map<Key, V>)

  /** Every `Map` the program builds satisfies this: the order lists each key
      of the table exactly once. */
  predicate Valid<V>(m: OMap<V>)
  {
    && (forall i, j :: 0 <= i < j < |m.order| ==> m.order[i] != m.order[j])
    && (forall k :: k in m.table ==> k in m.order)
    && (forall k :: k in m.order ==> k in m.table)
  }

  /** The maps the program can build: valid ones. */
  type JsMap<V> = m: OMap<V> | Valid(m) witness OMap([], map[])

  function Empty<V>(): (m: OMap<V>)
    ensures Valid(m) && m.table == map[]
  {
    OMap([], map[])
  }

  /** `m.has(k)` */
  predicate Has<V>(m: OMap<V>, k: Key)
  {
    k in m.table
  }

  /** `m.get(k)`, `undefined` becoming `None` */
  function Get<V>(m: OMap<V>, k: Key): (r: Option<V>)
    ensures r.Some? <==> k in m.table
    ensures r.Some? ==> r.value == m.table[k]
  {
    if k in m.table then Some(m.table[k]) else None
  }

  /** `m.set(k, v)`: an existing key keeps its position, a new key goes last. */
  function Set<V>(m: OMap<V>, k: Key, v: V): (r: OMap<V>)
    ensures r.table == m.table[k := v]
    ensures k in m.table ==> r.order == m.order
    ensures k !in m.table ==> r.order == m.order + [k]
    ensures Valid(m) ==> Valid(r)
  {
    OMap(if k in m.table then m.order else m.order + [k], m.table[k := v])
  }

  /** The order with every occurrence of `k` removed. */
  function RemoveKey(order: seq<Key>, k: Key): (r: seq<Key>)
    ensures forall x :: x in r <==> x in order && x != k
    ensures |r| <= |order|
    ensures k !in order ==> r == order
    ensures (forall i, j :: 0 <= i < j < |order| ==> order[i] != order[j]) ==>
              (forall i, j :: 0 <= i < j < |r| ==> r[i] != r[j])
  {
    if order == [] then []
    else if order[0] == k then RemoveKey(order[1..], k)
    else
      var tail := RemoveKey(order[1..], k);
      assert forall x :: x in tail ==> x in order[1..];
      var r := [order[0]] + tail;
      assert (forall i, j :: 0 <= i < j < |order| ==> order[i] != order[j]) ==>
               (forall i, j :: 0 <= i < j < |r| ==> r[i] != r[j]) by {
        if forall i, j :: 0 <= i < j < |order| ==> order[i] != order[j] {
          assert order[0] !in order[1..];
          forall i, j | 0 <= i < j < |r| ensures r[i] != r[j] {
            assert r[j] in tail;
          }
        }
      }
      r
  }

  /** Removing a key works piece by piece: the parts of an order keep their
      relative placement. */
  lemma {:induction false} RemoveKeyConcat(a: seq<Key>, b: seq<Key>, k: Key)
    ensures RemoveKey(a + b, k) == RemoveKey(a, k) + RemoveKey(b, k)
  {
    if a == [] {
      assert a + b == b;
    } else {
      var ab := a + b;
      assert ab[0] == a[0] && ab[1..] == a[1..] + b;
      RemoveKeyConcat(a[1..], b, k);
    }
  }

  /** In an order without repeats, the key at position `i` occurs neither
      before nor after it. */
  lemma OnlyAt(order: seq<Key>, i: nat)
    requires i < |order|
    requires forall x, y :: 0 <= x < y < |order| ==> order[x] != order[y]
    ensures order[i] !in order[..i] && order[i] !in order[i + 1..]
  {
  }

  /** Removing a key that occurs once closes the gap it leaves. */
  lemma {:induction false} RemoveKeySplit(pre: seq<Key>, k: Key, post: seq<Key>)
    requires k !in pre && k !in post
    ensures RemoveKey(pre + [k] + post, k) == pre + post
  {
    var s := pre + [k] + post;
    if pre == [] {
      assert s == [k] + post && s[1..] == post;
    } else {
      assert s[0] == pre[0] && s[1..] == pre[1..] + [k] + post;
      RemoveKeySplit(pre[1..], k, post);
      assert pre + post == [pre[0]] + (pre[1..] + post);
    }
  }

  /** In an order without repeats, removing the key at position `i` leaves
      the keys before and after it where they were. */
  lemma RemoveKeyAt(order: seq<Key>, i: nat)
    requires i < |order|
    requires forall x, y :: 0 <= x < y < |order| ==> order[x] != order[y]
    ensures RemoveKey(order, order[i]) == order[..i] + order[i + 1..]
  {
    OnlyAt(order, i);
    assert order == order[..i] + [order[i]] + order[i + 1..];
    RemoveKeySplit(order[..i], order[i], order[i + 1..]);
  }

  /** `m.delete(k)`; deleting a missing key changes nothing. */
  function Delete<V>(m: OMap<V>, k: Key): (r: OMap<V>)
    ensures r.table == m.table - {k}
    ensures forall x :: x in r.order <==> x in m.order && x != k
    ensures k !in m.order ==> r.order == m.order
    ensures Valid(m) ==> Valid(r)
  {
    OMap(RemoveKey(m.order, k), m.table - {k})
  }

  /** `delete` keeps the insertion order of the keys that remain. */
  lemma DeleteKeepsOrder<V>(m: OMap<V>, i: nat)
    requires Valid(m) && i < |m.order|
    ensures Delete(m, m.order[i]).order == m.order[..i] + m.order[i + 1..]
    ensures Delete(m, m.order[i]).table == m.table - {m.order[i]}
  {
    RemoveKeyAt(m.order, i);
  }

  /** `Array.from(m.values())` */
  function Values<V(!new)>(m: OMap<V>): (r: seq<V>)
    ensures |r| <= |m.order|
    ensures forall v :: v in r <==> exists k :: k in m.order && k in m.table && m.table[k] == v
  {
    ValuesOf(m.order, m.table)
  }

  /** The values of the keys of `order` that are in `table`, in that order. */
  function ValuesOf<V(!new)>(order: seq<Key>, table: map<Key, V>): (r: seq<V>)
    ensures |r| <= |order|
    ensures forall v :: v in r <==> exists k :: k in order && k in table && table[k] == v
  {
    if order == [] then []
    else
      var tail := ValuesOf(order[1..], table);
      assert forall k :: k in order <==> k == order[0] || k in order[1..];
      if order[0] in table then [table[order[0]]] + tail else tail
  }

  /** When every key of the order is stored, the values follow the order one
      for one. */
  lemma {:induction false} ValuesOfInOrder<V(!new)>(order: seq<Key>, table: map<Key, V>)
    requires forall k :: k in order ==> k in table
    ensures |ValuesOf(order, table)| == |order|
    ensures forall i :: 0 <= i < |order| ==> ValuesOf(order, table)[i] == table[order[i]]
  {
    if order != [] {
      ValuesOfInOrder(order[1..], table);
      var tail := ValuesOf(order[1..], table);
      assert ValuesOf(order, table) == [table[order[0]]] + tail;
      forall i | 1 <= i < |order| ensures ValuesOf(order, table)[i] == table[order[i]] {
        assert order[1..][i - 1] == order[i];
      }
    }
  }

  /** `Array.from(m.values())` of a valid map lists one value per key, in
      insertion order. */
  lemma ValuesInOrder<V(!new)>(m: OMap<V>)
    requires Valid(m)
    ensures |Values(m)| == |m.order|
    ensures forall i :: 0 <= i < |m.order| ==> Values(m)[i] == m.table[m.order[i]]
  {
    ValuesOfInOrder(m.order, m.table);
  }

  /** Enumerating along two orders one after the other lists the values of
      the first, then those of the second. */
  lemma {:induction false} ValuesOfConcat<V(!new)>(a: seq<Key>, b: seq<Key>, table: map<Key, V>)
    ensures ValuesOf(a + b, table) == ValuesOf(a, table) + ValuesOf(b, table)
  {
    if a == [] {
      assert a + b == b;
    } else {
      var ab := a + b;
      assert ab[0] == a[0] && ab[1..] == a[1..] + b;
      ValuesOfConcat(a[1..], b, table);
    }
  }

  /** In a valid map every key's value is enumerated, and nothing else is. */
  lemma ValuesOfValid<V(!new)>(m: OMap<V>)
    requires Valid(m)
    ensures forall v :: v in Values(m) <==> exists k :: k in m.table && m.table[k] == v
  {
  }
}
