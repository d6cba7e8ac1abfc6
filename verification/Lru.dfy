/** The LRU cache: a map from printed keys to list elements, and a list kept most recent first. */
module Lru {
  import opened Sequences
  import opened LinkedLists

  /** A key is any dynamic value; only whether it is a string and how it prints can be observed. */
  datatype Key = StringKey(text: string) | OtherKey(kind: nat, text: string)

  function Sprint(key: Key): string {
    key.text
  }

  datatype Entry<+V> = Entry(key: Key, value: V)

  function Names<V>(items: seq<Entry<V>>): (r: seq<string>)
    ensures |r| == |items|
    ensures forall i :: 0 <= i < |items| ==> r[i] == Sprint(items[i].key)
  {
    seq(|items|, i requires 0 <= i < |items| => Sprint(items[i].key))
  }

  function Values<V>(items: seq<Entry<V>>): (r: seq<V>)
    ensures |r| == |items|
    ensures forall i :: 0 <= i < |items| ==> r[i] == items[i].value
  {
    seq(|items|, i requires 0 <= i < |items| => items[i].value)
  }

  /** Where the entry printed as `name` is, or the length if there is none. */
  function IndexOf<V>(items: seq<Entry<V>>, name: string): (k: nat)
    ensures k <= |items|
    ensures k < |items| ==> Sprint(items[k].key) == name
    ensures forall j :: 0 <= j < k ==> Sprint(items[j].key) != name
    ensures k < |items| <==> name in Names(items)
  {
    if items == [] || Sprint(items[0].key) == name then 0
    else
      assert Names(items)[1..] == Names(items[1..]);
      assert Names(items) == [Sprint(items[0].key)] + Names(items[1..]);
      1 + IndexOf(items[1..], name)
  }

  ghost predicate Filed<V>(items: seq<Entry<V>>, capacity: nat) {
    NoDup(Names(items)) && |items| <= capacity
  }

  /** A hit rewrites the entry under the printed key; a miss drops the last entry of a full cache. */
  function Added<V>(items: seq<Entry<V>>, capacity: nat, key: Key, value: V): (r: seq<Entry<V>>)
    requires capacity >= 1
    ensures Sprint(key) in Names(r)
    ensures r[0].value == value && Sprint(r[0].key) == Sprint(key)
  {
    var k := IndexOf(items, Sprint(key));
    var r := if k < |items| then [Entry(StringKey(Sprint(key)), value)] + RemoveAt(items, k)
             else [Entry(key, value)] + Take(items, capacity - 1);
    assert Names(r)[0] == Sprint(key);
    r
  }

  /** The value an Add pushes out. */
  function Evicted<V>(items: seq<Entry<V>>, capacity: nat, key: Key): Option<V>
    requires capacity >= 1
  {
    if Sprint(key) !in Names(items) && |items| == capacity then Some(items[|items| - 1].value) else None
  }

  function Refreshed<V>(items: seq<Entry<V>>, key: Key): (r: seq<Entry<V>>)
    ensures |r| == |items|
    ensures Sprint(key) in Names(items) ==> r != [] && Sprint(r[0].key) == Sprint(key)
  {
    var k := IndexOf(items, Sprint(key));
    if k < |items| then ToFront(items, k) else items
  }

  function Looked<V>(items: seq<Entry<V>>, key: Key): (value: Option<V>)
    ensures value.Some? <==> Sprint(key) in Names(items)
  {
    var k := IndexOf(items, Sprint(key));
    if k < |items| then Some(items[k].value) else None
  }

  function Removed<V>(items: seq<Entry<V>>, key: Key): seq<Entry<V>> {
    var k := IndexOf(items, Sprint(key));
    if k < |items| then RemoveAt(items, k) else items
  }

  /** The entries a filter keeps, most recent first. */
  function Kept<V>(items: seq<Entry<V>>, p: (string, V) -> bool): seq<Entry<V>> {
    if items == [] then []
    else if p(items[0].key.text, items[0].value) then [items[0]] + Kept(items[1..], p)
    else Kept(items[1..], p)
  }

  lemma {:induction false} KeptSnoc<V>(items: seq<Entry<V>>, e: Entry<V>, p: (string, V) -> bool)
    ensures Kept(items + [e], p) == Kept(items, p) + if p(e.key.text, e.value) then [e] else []
  {
    if items == [] {
      assert items + [e] == [e];
    } else {
      assert (items + [e])[1..] == items[1..] + [e];
      KeptSnoc(items[1..], e, p);
    }
  }

  predicate AllStrings<V>(items: seq<Entry<V>>) {
    forall i :: 0 <= i < |items| ==> items[i].key.StringKey?
  }

  /** Places and names agree: entry `i` is filed under `names[i]`, and nothing else is filed. */
  ghost predicate FiledUnder<E>(m: map<string, E>, names: seq<string>, places: seq<E>) {
    && |names| == |places|
    && NoDup(names)
    && (forall i :: 0 <= i < |names| ==> names[i] in m && m[names[i]] == places[i])
    && (forall name :: name in m ==> name in names)
  }

  lemma FiledToFront<E>(m: map<string, E>, names: seq<string>, places: seq<E>, k: nat)
    requires FiledUnder(m, names, places) && k < |names|
    ensures FiledUnder(m, ToFront(names, k), ToFront(places, k))
  {
    hide FiledUnder;
    AtPlace(m, names, places, k);
    FiledRemove(m, names, places, k);
    NoDupRemoveAt(names, k);
    FiledPush(m - {names[k]}, RemoveAt(names, k), RemoveAt(places, k), names[k], places[k]);
    assert (m - {names[k]})[names[k] := places[k]] == m;
  }

  lemma AtPlace<E>(m: map<string, E>, names: seq<string>, places: seq<E>, k: nat)
    requires FiledUnder(m, names, places) && k < |names|
    ensures |places| == |names| && NoDup(names) && names[k] in m && m[names[k]] == places[k]
  {
  }

  lemma FiledRemove<E>(m: map<string, E>, names: seq<string>, places: seq<E>, k: nat)
    requires FiledUnder(m, names, places) && k < |names|
    ensures FiledUnder(m - {names[k]}, RemoveAt(names, k), RemoveAt(places, k))
  {
    var after := RemoveAt(names, k);
    forall name | name in m && name != names[k]
      ensures name in after
    {
      var i :| 0 <= i < |names| && names[i] == name;
      assert after[if i < k then i else i - 1] == name;
    }
  }

  lemma FiledPush<E>(m: map<string, E>, names: seq<string>, places: seq<E>, name: string, e: E)
    requires FiledUnder(m, names, places) && name !in names
    ensures FiledUnder(m[name := e], [name] + names, [e] + places)
  {
  }

  lemma NamesRemoveAt<V>(items: seq<Entry<V>>, k: nat)
    requires k < |items|
    ensures Names(RemoveAt(items, k)) == RemoveAt(Names(items), k)
  {
  }

  lemma NamesToFront<V>(items: seq<Entry<V>>, k: nat)
    requires k < |items|
    ensures Names(ToFront(items, k)) == ToFront(Names(items), k)
  {
    NamesRemoveAt(items, k);
    assert Names(ToFront(items, k)) == [Names(items)[k]] + Names(RemoveAt(items, k));
  }

  lemma NamesPush<V>(items: seq<Entry<V>>, e: Entry<V>)
    ensures Names([e] + items) == [Sprint(e.key)] + Names(items)
  {
  }

  /** The map finds the place of a name. */
  lemma FiledAt<V, E>(m: map<string, E>, items: seq<Entry<V>>, places: seq<E>, name: string)
    requires FiledUnder(m, Names(items), places)
    ensures name in m <==> IndexOf(items, name) < |items|
    ensures name in m ==> m[name] == places[IndexOf(items, name)]
  {
    if name in m {
      assert name in Names(items);
      assert Names(items)[IndexOf(items, name)] == name;
    }
  }

  class Cache<V> {
    var m: map<string, Element<Entry<V>>>
    var l: LinkedList<Entry<V>>
    const capacity: nat
    ghost var items: seq<Entry<V>>
    ghost var Repr: set<object>

    ghost predicate Valid()
      reads this, Repr
      ensures Valid() ==> this in Repr && Filed(items, capacity) && capacity >= 1
    {
      && this in Repr && l in Repr && l.root in Repr && (forall e :: e in l.elems ==> e in Repr)
      && l.Valid()
      && items == l.items
      && 1 <= capacity && |items| <= capacity
      && FiledUnder(m, Names(items), l.elems)
    }

    constructor Init(capacity: nat)
      requires 1 <= capacity
      ensures Valid() && fresh(Repr) && items == [] && this.capacity == capacity
    {
      this.capacity := capacity;
      m := map[];
      var list := new LinkedList<Entry<V>>();
      l := list;
      items := [];
      Repr := {this, list, list.root};
    }

    /** None is the panic on a capacity below one. */
    static method NewLRU(capacity: int) returns (c: Option<Cache<V>>)
      ensures c.Some? <==> capacity >= 1
      ensures c.Some? ==> c.value.Valid() && fresh(c.value.Repr) && c.value.items == []
                          && c.value.capacity == capacity
    {
      if capacity < 1 {
        return None;
      }
      var cache := new Cache<V>.Init(capacity);
      c := Some(cache);
    }

    /** Map and list are in bijection: an element is filed under the printed form of the key that it carries now. */
    lemma Bijection()
      requires Valid()
      ensures forall i :: 0 <= i < |l.elems| ==>
                var e := l.elems[i];
                e.value == Some(items[i]) && Sprint(items[i].key) in m && m[Sprint(items[i].key)] == e
      ensures forall name :: name in m ==>
                m[name] in l.elems && m[name].value.Some? && Sprint(m[name].value.value.key) == name
    {
      forall name | name in m
        ensures m[name] in l.elems && m[name].value.Some? && Sprint(m[name].value.value.key) == name
      {
        var i :| 0 <= i < |items| && Names(items)[i] == name;
        assert m[Names(items)[i]] == l.elems[i];
      }
      forall i | 0 <= i < |l.elems|
        ensures m[Sprint(items[i].key)] == l.elems[i]
      {
        assert Names(items)[i] == Sprint(items[i].key);
      }
    }

    /** Moves a filed element to the front: the list half of every recency refresh. */
    method Refresh(item: Element<Entry<V>>, ghost k: nat)
      requires Valid() && k < |l.elems| && item == l.elems[k]
      modifies Repr
      ensures Valid() && Repr == old(Repr) && items == ToFront(old(items), k)
      ensures m == old(m) && l == old(l)
    {
      hide LinkedList.Valid, FiledUnder, ToFront, Names;
      FiledToFront(m, Names(items), l.elems, k);
      NamesToFront(items, k);
      l.MoveToFront(item, k);
      items := l.items;
    }

    /** Unlinks a filed element and forgets its name. */
    method Drop(item: Element<Entry<V>>, name: string, ghost k: nat)
      requires Valid() && k < |l.elems| && item == l.elems[k] && name == Sprint(items[k].key)
      modifies Repr
      ensures Valid() && Repr == old(Repr) && items == RemoveAt(old(items), k)
      ensures l == old(l)
    {
      hide LinkedList.Valid, FiledUnder, RemoveAt;
      FiledRemove(m, Names(items), l.elems, k);
      NamesRemoveAt(items, k);
      l.Remove(item, k);
      m := m - {name};
      items := l.items;
    }

    /** Rewrites the node of a filed element under the same name. */
    method Rewrite(item: Element<Entry<V>>, entry: Entry<V>, ghost k: nat)
      requires Valid() && k < |l.elems| && item == l.elems[k] && Sprint(entry.key) == Sprint(items[k].key)
      modifies Repr
      ensures Valid() && Repr == old(Repr) && items == old(items)[k := entry]
      ensures m == old(m) && l == old(l) && l.elems == old(l.elems)
    {
      l.SetValue(item, entry, k);
      items := l.items;
      assert Names(items) == old(Names(items));
    }

    /** Files a new entry at the front. */
    method Push(entry: Entry<V>)
      requires Valid() && |items| < capacity && Sprint(entry.key) !in m
      modifies Repr
      ensures Valid() && fresh(Repr - old(Repr)) && items == [entry] + old(items)
    {
      hide LinkedList.Valid, FiledUnder, Names, IndexOf;
      var name := Sprint(entry.key);
      FiledAt(m, items, l.elems, name);
      NamesPush(items, entry);
      var e := l.PushFront(entry);
      FiledPush(m, Names(items), old(l.elems), name, e);
      m := m[name := e];
      items := l.items;
      Repr := Repr + {e};
    }

    /**
     * `gone` is the value every eviction function is applied to, once each, before the new entry is filed.
     */
    method Add(key: Key, value: V) returns (evicted: bool, gone: Option<V>)
      requires Valid()
      modifies Repr
      ensures Valid() && fresh(Repr - old(Repr))
      ensures items == Added(old(items), capacity, key, value)
      ensures gone == Evicted(old(items), capacity, key) && evicted == gone.Some?
    {
      hide LinkedList.Valid, FiledUnder, Names, IndexOf;
      gone, evicted := None, false;
      var name := Sprint(key);
      ghost var k := IndexOf(items, name);
      FiledAt(m, items, l.elems, name);
      if name in m {
        var item := m[name];
        Rewrite(item, Entry(StringKey(name), value), k);
        Refresh(item, k);
      } else {
        if l.len == capacity {
          var last := l.Back();
          var v := l.Value(last, |items| - 1);
          gone, evicted := Some(v.value), true;
          Drop(last, Sprint(v.key), |items| - 1);
          FiledAt(m, items, l.elems, name);
        }
        Push(Entry(key, value));
      }
    }

    method CommonGet(key: Key, peek: bool) returns (value: Option<V>)
      requires Valid()
      modifies if peek then {} else Repr
      ensures Valid() && Repr == old(Repr)
      ensures value == Looked(old(items), key)
      ensures items == if peek then old(items) else Refreshed(old(items), key)
    {
      hide LinkedList.Valid, FiledUnder, Names, IndexOf, ToFront;
      if l.len == 0 {
        return None;
      }
      var name := Sprint(key);
      ghost var k := IndexOf(items, name);
      FiledAt(m, items, l.elems, name);
      if name in m {
        var v := m[name];
        var node := l.Value(v, k);
        value := Some(node.value);
        if !peek && l.len > 1 {
          var front := l.Front();
          FiledToFront(m, Names(items), l.elems, k);
          NamesToFront(items, k);
          l.MoveBeforeFront(v, front, k);
          items := l.items;
        }
      } else {
        value := None;
      }
    }

    method Get(key: Key) returns (value: Option<V>)
      requires Valid()
      modifies Repr
      ensures Valid() && Repr == old(Repr)
      ensures value == Looked(old(items), key) && items == Refreshed(old(items), key)
    {
      value := CommonGet(key, false);
    }

    /** Refreshes recency like Get, although the interface comment says otherwise. */
    method Contains(key: Key) returns (ok: bool)
      requires Valid()
      modifies Repr
      ensures Valid() && Repr == old(Repr)
      ensures ok <==> Sprint(key) in old(Names(items))
      ensures items == Refreshed(old(items), key)
    {
      var value := Get(key);
      ok := value.Some?;
    }

    method Peek(key: Key) returns (value: Option<V>)
      requires Valid()
      ensures value == Looked(items, key)
    {
      value := CommonGet(key, true);
    }

    method Remove(key: Key) returns (ok: bool)
      requires Valid()
      modifies Repr
      ensures Valid() && Repr == old(Repr)
      ensures ok <==> Sprint(key) in old(Names(items))
      ensures items == Removed(old(items), key)
    {
      if l.len == 0 {
        return false;
      }
      var name := Sprint(key);
      FiledAt(m, items, l.elems, name);
      if name in m {
        Drop(m[name], name, IndexOf(items, name));
        return true;
      }
      return false;
    }

    method RemoveOldest() returns (oldest: Option<Entry<V>>)
      requires Valid()
      modifies Repr
      ensures Valid() && Repr == old(Repr)
      ensures if old(items) == [] then oldest == None && items == []
              else oldest.Some? && old(items) == items + [oldest.value]
    {
      hide LinkedList.Valid, FiledUnder, Names;
      if l.len == 0 {
        return None;
      }
      var tail := l.Back();
      var tailNode := l.Value(tail, |items| - 1);
      Drop(tail, Sprint(tailNode.key), |items| - 1);
      oldest := Some(tailNode);
    }

    method GetOldest() returns (oldest: Option<Entry<V>>)
      requires Valid()
      ensures oldest == if items == [] then None else Some(items[|items| - 1])
    {
      if l.len == 0 {
        return None;
      }
      var tail := l.Back();
      var tailNode := l.Value(tail, |items| - 1);
      oldest := Some(tailNode);
    }

    /** None is the failed type assertion on a key that is not a string. */
    method Filter(p: (string, V) -> bool) returns (kept: Option<(seq<string>, seq<V>)>)
      requires Valid()
      ensures kept.Some? <==> AllStrings(items)
      ensures kept.Some? ==> kept.value.0 == Names(Kept(items, p)) && kept.value.1 == Values(Kept(items, p))
    {
      hide LinkedList.Valid, FiledUnder;
      var kList: seq<string>, vList: seq<V> := [], [];
      var tmp := l.Front();
      ghost var k := 0;
      while tmp != null
        invariant k <= |l.elems|
        invariant tmp == if k < |l.elems| then l.elems[k] else null
        invariant AllStrings(items[..k])
        invariant kList == Names(Kept(items[..k], p)) && vList == Values(Kept(items[..k], p))
        decreases |l.elems| - k
      {
        var node := l.Value(tmp, k);
        assert node == items[k] && items[..k + 1] == items[..k] + [node];
        KeptSnoc(items[..k], node, p);
        if !node.key.StringKey? {
          return None;
        }
        if p(node.key.text, node.value) {
          kList, vList := kList + [node.key.text], vList + [node.value];
        }
        tmp := l.Next(tmp, k);
        k := k + 1;
      }
      assert items[..k] == items;
      kept := Some((kList, vList));
    }

    /** As coded: `Len` empty slots, then the newest key once per entry; not the keys from oldest to newest. */
    method Keys() returns (keys: seq<Option<Key>>)
      requires Valid()
      ensures |keys| == 2 * |items|
      ensures forall i :: 0 <= i < |items| ==> keys[i] == None
      ensures forall i :: |items| <= i < 2 * |items| ==> keys[i] == Some(items[0].key)
    {
      keys := seq(l.len, _ => None);
      var head := l.Front();
      for i := 0 to l.len
        invariant |keys| == |items| + i
        invariant forall j :: 0 <= j < |items| ==> keys[j] == None
        invariant forall j :: |items| <= j < |items| + i ==> keys[j] == Some(items[0].key)
      {
        keys := keys + [Some(head.value.value.key)];
      }
    }

    method Len() returns (n: nat)
      requires Valid()
      ensures n == |items|
    {
      n := l.len;
    }

    method Purge()
      requires Valid()
      modifies this
      ensures Valid() && fresh(Repr - old(Repr)) && items == []
    {
      var list := new LinkedList<Entry<V>>();
      l := list;
      m := map[];
      items := [];
      Repr := Repr + {list, list.root};
    }
  }
}
