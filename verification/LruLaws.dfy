/** What each cache operation does to the cache read as a finite map, and that it keeps names distinct. */
module LruLaws {
  import opened Sequences
  import opened Lru

  lemma LookedAt<V>(items: seq<Entry<V>>, i: nat)
    requires NoDup(Names(items)) && i < |items|
    ensures IndexOf(items, Sprint(items[i].key)) == i
    ensures Looked(items, items[i].key) == Some(items[i].value)
  {
    hide Names, IndexOf;
    var k := IndexOf(items, Sprint(items[i].key));
    assert Names(items)[i] == Names(items)[k];
  }

  /** Only the printed form of a key counts. */
  lemma LookedByName<V>(items: seq<Entry<V>>, a: Key, b: Key)
    requires Sprint(a) == Sprint(b)
    ensures Looked(items, a) == Looked(items, b)
  {
  }

  lemma RemoveAtLaw<V>(items: seq<Entry<V>>, k: nat, other: Key)
    requires NoDup(Names(items)) && k < |items|
    ensures NoDup(Names(RemoveAt(items, k)))
    ensures Looked(RemoveAt(items, k), other)
         == if Sprint(other) == Sprint(items[k].key) then None else Looked(items, other)
  {
    hide Names, IndexOf, RemoveAt;
    var r := RemoveAt(items, k);
    NamesRemoveAt(items, k);
    NoDupRemoveAt(Names(items), k);
    var name := Sprint(other);
    if name in Names(items) && name != Sprint(items[k].key) {
      var i := IndexOf(items, name);
      var j := if i < k then i else i - 1;
      assert r[j] == items[i];
      LookedAt(r, j);
      LookedAt(items, i);
      LookedByName(r, other, r[j].key);
      LookedByName(items, other, r[j].key);
    }
  }

  lemma PushLaw<V>(items: seq<Entry<V>>, e: Entry<V>, other: Key)
    requires NoDup(Names(items)) && Sprint(e.key) !in Names(items)
    ensures NoDup(Names([e] + items))
    ensures Looked([e] + items, other) == if Sprint(other) == Sprint(e.key) then Some(e.value) else Looked(items, other)
  {
    hide Names;
    NamesPush(items, e);
    var r := [e] + items;
    assert r[1..] == items;
    assert IndexOf(r, Sprint(other)) == if Sprint(other) == Sprint(e.key) then 0 else 1 + IndexOf(items, Sprint(other));
  }

  lemma ToFrontLaw<V>(items: seq<Entry<V>>, k: nat, other: Key)
    requires NoDup(Names(items)) && k < |items|
    ensures NoDup(Names(ToFront(items, k)))
    ensures Looked(ToFront(items, k), other) == Looked(items, other)
  {
    RemoveAtLaw(items, k, other);
    RemoveAtLaw(items, k, items[k].key);
    LookedAt(items, k);
    PushLaw(RemoveAt(items, k), items[k], other);
  }

  lemma RefreshedLaw<V>(items: seq<Entry<V>>, capacity: nat, key: Key, other: Key)
    requires Filed(items, capacity)
    ensures Filed(Refreshed(items, key), capacity)
    ensures Looked(Refreshed(items, key), other) == Looked(items, other)
  {
    var k := IndexOf(items, Sprint(key));
    if k < |items| {
      ToFrontLaw(items, k, other);
    }
  }

  /** A miss on a full cache forgets exactly the last entry; every other lookup is as before. */
  lemma AddedLaw<V>(items: seq<Entry<V>>, capacity: nat, key: Key, value: V, other: Key)
    requires capacity >= 1 && Filed(items, capacity) && Sprint(key) !in Names(items)
    ensures Filed(Added(items, capacity, key, value), capacity)
    ensures Looked(Added(items, capacity, key, value), other) ==
      if Sprint(other) == Sprint(key) then Some(value)
      else if |items| == capacity && Sprint(other) == Sprint(items[|items| - 1].key) then None
      else Looked(items, other)
  {
    var kept := Take(items, capacity - 1);
    if |items| == capacity {
      assert kept == RemoveAt(items, |items| - 1);
      RemoveAtLaw(items, |items| - 1, other);
      NamesRemoveAt(items, |items| - 1);
    } else {
      assert kept == items;
    }
    assert Sprint(key) !in Names(kept);
    PushLaw(kept, Entry(key, value), other);
  }

  /** A hit rewrites one value and changes no other lookup. */
  lemma AddedHitLaw<V>(items: seq<Entry<V>>, capacity: nat, key: Key, value: V, other: Key)
    requires capacity >= 1 && Filed(items, capacity) && Sprint(key) in Names(items)
    ensures Filed(Added(items, capacity, key, value), capacity)
    ensures Looked(Added(items, capacity, key, value), other)
         == if Sprint(other) == Sprint(key) then Some(value) else Looked(items, other)
  {
    var k := IndexOf(items, Sprint(key));
    RemoveAtLaw(items, k, other);
    RemoveAtLaw(items, k, key);
    PushLaw(RemoveAt(items, k), Entry(StringKey(Sprint(key)), value), other);
  }

  /** Rewriting the value of the head entry in place. */
  lemma HeadLaw<V>(items: seq<Entry<V>>, value: V, other: Key)
    requires NoDup(Names(items)) && items != []
    ensures Names(items[0 := Entry(items[0].key, value)]) == Names(items)
    ensures Looked(items[0 := Entry(items[0].key, value)], other)
         == if Sprint(other) == Sprint(items[0].key) then Some(value) else Looked(items, other)
  {
    var r := items[0 := Entry(items[0].key, value)];
    assert r[1..] == items[1..];
  }
}
