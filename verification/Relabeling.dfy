/** Cache operations act on keys alone, so they commute with replacing every value by what it stands for. */
module Relabeling {
  import opened Sequences
  import opened Lru

  function Relabel<V, W>(items: seq<Entry<V>>, m: map<V, W>): (r: seq<Entry<W>>)
    requires forall e :: e in items ==> e.value in m
    ensures |r| == |items| && Names(r) == Names(items)
    ensures forall i :: 0 <= i < |items| ==> r[i] == Entry(items[i].key, m[items[i].value])
  {
    var r := seq(|items|, i requires 0 <= i < |items| => Entry(items[i].key, m[items[i].value]));
    assert Names(r) == Names(items);
    r
  }

  lemma SameIndex<V, W>(a: seq<Entry<V>>, b: seq<Entry<W>>, name: string)
    requires Names(a) == Names(b)
    ensures IndexOf(a, name) == IndexOf(b, name)
  {
  }

  lemma RelabelAdded<V, W>(items: seq<Entry<V>>, capacity: nat, key: Key, value: V, m: map<V, W>)
    requires capacity >= 1 && value in m && forall e :: e in items ==> e.value in m
    requires Sprint(key) !in Names(items)
    ensures forall e :: e in Added(items, capacity, key, value) ==> e.value in m
    ensures Relabel(Added(items, capacity, key, value), m) == Added(Relabel(items, m), capacity, key, m[value])
  {
    hide Names, IndexOf;
    var kept, shown := Take(items, capacity - 1), Take(Relabel(items, m), capacity - 1);
    assert Added(items, capacity, key, value) == [Entry(key, value)] + kept;
    assert Added(Relabel(items, m), capacity, key, m[value]) == [Entry(key, m[value])] + shown;
    assert Relabel([Entry(key, value)] + kept, m) == [Entry(key, m[value])] + shown;
  }

  lemma RelabelRemoveAt<V, W>(items: seq<Entry<V>>, k: nat, m: map<V, W>)
    requires k < |items| && forall e :: e in items ==> e.value in m
    ensures Relabel(RemoveAt(items, k), m) == RemoveAt(Relabel(items, m), k)
  {
  }

  lemma RelabelToFront<V, W>(items: seq<Entry<V>>, k: nat, m: map<V, W>)
    requires k < |items| && forall e :: e in items ==> e.value in m
    ensures Relabel(ToFront(items, k), m) == ToFront(Relabel(items, m), k)
  {
    hide Names, RemoveAt;
    RelabelRemoveAt(items, k, m);
    var rest := RemoveAt(items, k);
    assert Relabel([items[k]] + rest, m) == [Relabel(items, m)[k]] + Relabel(rest, m);
  }

  lemma RelabelRefreshed<V, W>(items: seq<Entry<V>>, key: Key, m: map<V, W>)
    requires forall e :: e in items ==> e.value in m
    ensures forall e :: e in Refreshed(items, key) ==> e in items
    ensures Relabel(Refreshed(items, key), m) == Refreshed(Relabel(items, m), key)
  {
    hide Names, IndexOf, ToFront, Relabel;
    SameIndex(items, Relabel(items, m), Sprint(key));
    var k := IndexOf(items, Sprint(key));
    if k < |items| {
      RelabelToFront(items, k, m);
    }
  }

  /** Changing what one value stands for changes its entry only. */
  lemma RelabelOne<V, W>(items: seq<Entry<V>>, k: nat, m: map<V, W>, w: W)
    requires k < |items| && NoDup(Values(items)) && forall e :: e in items ==> e.value in m
    ensures Relabel(items, m[items[k].value := w]) == Relabel(items, m)[k := Entry(items[k].key, w)]
  {
    forall i | 0 <= i < |items| && i != k
      ensures items[i].value != items[k].value
    {
      assert Values(items)[i] != Values(items)[k];
    }
  }

  lemma RelabelOther<V, W>(items: seq<Entry<V>>, v: V, m: map<V, W>, w: W)
    requires v !in Values(items) && forall e :: e in items ==> e.value in m
    ensures Relabel(items, m[v := w]) == Relabel(items, m)
  {
    forall i | 0 <= i < |items|
      ensures items[i].value != v
    {
      assert Values(items)[i] != v;
    }
  }

  lemma ValuesToFront<V>(items: seq<Entry<V>>, k: nat)
    requires k < |items|
    ensures Values(ToFront(items, k)) == ToFront(Values(items), k)
  {
  }

  /** Moving to the front keeps the values, and keeps them distinct. */
  lemma ValuesRefreshed<V>(items: seq<Entry<V>>, key: Key)
    requires NoDup(Values(items))
    ensures NoDup(Values(Refreshed(items, key)))
    ensures multiset(Values(Refreshed(items, key))) == multiset(Values(items))
  {
    hide IndexOf, Values, ToFront;
    var k := IndexOf(items, Sprint(key));
    if k < |items| {
      ValuesToFront(items, k);
      ToFrontPermutes(Values(items), k);
    }
  }

  // ----- Live and retired values side by side -----

  /** Live and retired values together are the keys of `m`, each of them exactly once. */
  ghost predicate Roster<V, W>(live: seq<Entry<V>>, retired: seq<Entry<V>>, m: map<V, W>) {
    multiset(Values(live)) + multiset(Values(retired)) == multiset(m.Keys)
  }

  lemma RosterKnows<V, W>(live: seq<Entry<V>>, retired: seq<Entry<V>>, m: map<V, W>)
    requires Roster(live, retired, m)
    ensures forall e :: e in live ==> e.value in m
    ensures forall e :: e in retired ==> e.value in m
  {
    forall e | e in live || e in retired
      ensures e.value in m
    {
      if e in live {
        ValuesIn(live, e);
      } else {
        ValuesIn(retired, e);
      }
      assert e.value in multiset(m.Keys);
    }
  }

  lemma ValuesIn<V>(items: seq<Entry<V>>, e: Entry<V>)
    requires e in items
    ensures e.value in Values(items)
  {
    var i :| 0 <= i < |items| && items[i] == e;
    assert Values(items)[i] == e.value;
  }

  lemma CountedTwice<T>(s: seq<T>, i: nat, j: nat)
    requires i < j < |s| && s[i] == s[j]
    ensures multiset(s)[s[i]] >= 2
  {
    assert s == s[..i] + [s[i]] + s[i + 1..j] + [s[j]] + s[j + 1..];
  }

  /** One value is not live twice. */
  lemma RosterDistinct<V, W>(live: seq<Entry<V>>, retired: seq<Entry<V>>, m: map<V, W>)
    requires Roster(live, retired, m)
    ensures NoDup(Values(live))
    ensures forall v :: v in Values(live) ==> v !in Values(retired)
  {
    var on := Values(live);
    forall i, j | 0 <= i < j < |on|
      ensures on[i] != on[j]
    {
      assert multiset(on)[on[i]] <= multiset(m.Keys)[on[i]];
      if on[i] == on[j] {
        CountedTwice(on, i, j);
      }
    }
    forall v | v in on
      ensures v !in Values(retired)
    {
      assert multiset(on)[v] >= 1 && multiset(m.Keys)[v] <= 1;
    }
  }

  /** What is retired when a key is added: the last entry, if the cache is full. */
  function PushedOut<V>(items: seq<Entry<V>>, capacity: nat): seq<Entry<V>> {
    if |items| == capacity && items != [] then [items[|items| - 1]] else []
  }

  lemma EvictedIsPushedOut<V>(items: seq<Entry<V>>, capacity: nat, key: Key)
    requires capacity >= 1 && Sprint(key) !in Names(items)
    ensures var out := PushedOut(items, capacity);
            |out| <= 1 && Evicted(items, capacity, key) == if out == [] then None else Some(out[0].value)
  {
  }

  lemma ValuesConcat<V>(a: seq<Entry<V>>, b: seq<Entry<V>>)
    ensures Values(a + b) == Values(a) + Values(b)
  {
  }

  /** Admitting a new value retires the pushed-out one and loses nobody. */
  lemma RosterAdmit<V, W>(live: seq<Entry<V>>, retired: seq<Entry<V>>, m: map<V, W>,
                          capacity: nat, key: Key, v: V, w: W)
    requires capacity >= 1 && |live| <= capacity && Roster(live, retired, m) && v !in m && Sprint(key) !in Names(live)
    ensures Roster(Added(live, capacity, key, v), retired + PushedOut(live, capacity), m[v := w])
  {
    hide Names, IndexOf, Values;
    var kept, out := Take(live, capacity - 1), PushedOut(live, capacity);
    assert Added(live, capacity, key, v) == [Entry(key, v)] + kept;
    assert live == kept + out;
    ValuesConcat([Entry(key, v)], kept);
    ValuesConcat(kept, out);
    ValuesConcat(retired, out);
    assert Values([Entry(key, v)]) == [v];
    assert m[v := w].Keys == m.Keys + {v};
    assert multiset(m.Keys + {v}) == multiset(m.Keys) + multiset{v};
  }

  /** Retiring a live value loses nobody. */
  lemma RosterRetire<V, W>(live: seq<Entry<V>>, retired: seq<Entry<V>>, m: map<V, W>, k: nat)
    requires Roster(live, retired, m) && k < |live|
    ensures Roster(RemoveAt(live, k), retired + [live[k]], m)
  {
    hide Names, Values;
    assert live == live[..k] + [live[k]] + live[k + 1..];
    ValuesConcat(live[..k] + [live[k]], live[k + 1..]);
    ValuesConcat(live[..k], [live[k]]);
    ValuesConcat(live[..k], live[k + 1..]);
    ValuesConcat(retired, [live[k]]);
  }

  lemma RosterRefresh<V, W>(live: seq<Entry<V>>, retired: seq<Entry<V>>, m: map<V, W>, key: Key)
    requires Roster(live, retired, m)
    ensures Roster(Refreshed(live, key), retired, m)
  {
    RosterDistinct(live, retired, m);
    ValuesRefreshed(live, key);
  }

  /** Whoever stays live after an admission, or was retired before it, is not the one pushed out. */
  lemma RosterApart<V, W>(live: seq<Entry<V>>, retired: seq<Entry<V>>, m: map<V, W>,
                          capacity: nat, key: Key, v: V)
    requires capacity >= 1 && |live| <= capacity && Roster(live, retired, m) && Sprint(key) !in Names(live)
    ensures forall e :: e in Added(live, capacity, key, v) ==> e == Entry(key, v) || e in live
    ensures forall o :: o in PushedOut(live, capacity) ==> o in live
    ensures forall o, e :: (o in PushedOut(live, capacity) && e in Added(live, capacity, key, v)
                            && e != Entry(key, v)) ==>
              e.value != o.value
    ensures forall o, e :: o in PushedOut(live, capacity) && e in retired ==> e.value != o.value
  {
    hide Names, IndexOf;
    RosterDistinct(live, retired, m);
    var kept := Take(live, capacity - 1);
    assert Added(live, capacity, key, v) == [Entry(key, v)] + kept;
    forall o, e | o in PushedOut(live, capacity) && e in kept
      ensures e.value != o.value
    {
      var i :| 0 <= i < |kept| && kept[i] == e;
      assert Values(live)[i] != Values(live)[|live| - 1];
    }
    forall o, e | o in PushedOut(live, capacity) && e in retired
      ensures e.value != o.value
    {
      ValuesIn(live, o);
      ValuesIn(retired, e);
    }
  }

  lemma MembersRefreshed<V>(items: seq<Entry<V>>, key: Key)
    ensures forall e :: e in Refreshed(items, key) ==> e in items
  {
  }

  /** A lookup that moves an entry to the front returns the value that is now in front. */
  lemma LookedHead<V>(items: seq<Entry<V>>, key: Key)
    requires Sprint(key) in Names(items)
    ensures Refreshed(items, key) != [] && Looked(items, key) == Some(Refreshed(items, key)[0].value)
  {
  }

  lemma RosterUpdate<V, W>(live: seq<Entry<V>>, retired: seq<Entry<V>>, m: map<V, W>, v: V, w: W)
    requires Roster(live, retired, m) && v in m
    ensures Roster(live, retired, m[v := w])
  {
    assert m[v := w].Keys == m.Keys;
  }

  /** Whoever stays live when entry `k` goes, or was retired before, is not the one that goes. */
  lemma RosterLeft<V, W>(live: seq<Entry<V>>, retired: seq<Entry<V>>, m: map<V, W>, k: nat)
    requires Roster(live, retired, m) && k < |live|
    ensures forall e :: e in RemoveAt(live, k) ==> e in live && e.value != live[k].value
    ensures forall e :: e in retired ==> e.value != live[k].value
  {
    RosterDistinct(live, retired, m);
    var rest := RemoveAt(live, k);
    forall e | e in rest
      ensures e in live && e.value != live[k].value
    {
      var i :| 0 <= i < |rest| && rest[i] == e;
      assert Values(live)[if i < k then i else i + 1] != Values(live)[k];
    }
    forall e | e in retired
      ensures e.value != live[k].value
    {
      ValuesIn(live, live[k]);
      ValuesIn(retired, e);
    }
  }

  function Times<V(==)>(items: seq<Entry<V>>, v: V): nat {
    multiset(Values(items))[v]
  }

  lemma RosterOnce<V, W>(live: seq<Entry<V>>, retired: seq<Entry<V>>, m: map<V, W>, v: V)
    requires Roster(live, retired, m) && v in m
    ensures Times(live, v) + Times(retired, v) == 1
    ensures Times(live, v) == 1 <==> v in Values(live)
  {
    assert multiset(m.Keys)[v] == 1;
  }

  /** Every value on the books has its entry, live or retired. */
  lemma RosterFinds<V, W>(live: seq<Entry<V>>, retired: seq<Entry<V>>, m: map<V, W>, v: V) returns (e: Entry<V>, k: nat)
    requires Roster(live, retired, m) && v in m
    ensures e.value == v
    ensures v in Values(live) ==> k < |live| && live[k] == e
    ensures v !in Values(live) ==> v in Values(retired) && k < |retired| && retired[k] == e
  {
    assert v in multiset(m.Keys);
    if v in Values(live) {
      k :| 0 <= k < |live| && Values(live)[k] == v;
      e := live[k];
    } else {
      k :| 0 <= k < |retired| && Values(retired)[k] == v;
      e := retired[k];
    }
  }
}
