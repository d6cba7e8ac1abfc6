/** A recorder: an LRU cache of commands, each stored with the suffix index of its own text. */
module Recorders {
  import opened Sequences
  import opened Histories
  import opened Lru

  /** `suffixarray.Index`, by the text it was built from. */
  datatype Index = Index(data: string)

  /** `Lookup(q, 1)`: at most one offset, and one exactly when the query is non-empty and occurs. */
  function Lookup(ix: Index, q: string): (r: seq<nat>)
    ensures |r| <= 1 && forall i :: i in r ==> OccursAt(ix.data, q, i)
    ensures |r| > 0 <==> Matches(ix.data, q)
  {
    if q == "" then [] else Search(ix.data, q, 0)
  }

  function Search(s: string, q: string, from: nat): (r: seq<nat>)
    ensures |r| <= 1 && forall i :: i in r ==> OccursAt(s, q, i)
    ensures |r| > 0 <==> exists i :: from <= i <= |s| && OccursAt(s, q, i)
    decreases |s| + 1 - from
  {
    if from > |s| then []
    else if OccursAt(s, q, from) then [from]
    else Search(s, q, from + 1)
  }

  function Hit(q: string): (string, Index) -> bool {
    (key, value) => |Lookup(value, q)| > 0
  }

  /** Every entry is filed under a string key and carries the index of that very string. */
  predicate Indexed(items: seq<Entry<Index>>) {
    forall i :: 0 <= i < |items| ==> items[i].key.StringKey? && items[i].value == Index(items[i].key.text)
  }

  lemma {:induction false} KeptIsAnswer(items: seq<Entry<Index>>, q: string)
    requires Indexed(items)
    ensures Names(Kept(items, Hit(q))) == Answer(Names(items), q)
  {
    if items != [] {
      KeptIsAnswer(items[1..], q);
      assert Names(items)[1..] == Names(items[1..]);
    }
  }

  lemma {:induction false} KeptAll(items: seq<Entry<Index>>)
    ensures Kept(items, (key, value) => true) == items
  {
    if items != [] {
      KeptAll(items[1..]);
    }
  }

  /** Refreshing a resident command is recording it again. */
  lemma RefreshedIsRecord(items: seq<Entry<Index>>, capacity: nat, s: string)
    requires capacity >= 1 && Filed(items, capacity) && s in Names(items) && s != "" && Indexed(items)
    ensures Indexed(Refreshed(items, StringKey(s)))
    ensures Names(Refreshed(items, StringKey(s))) == Record(Names(items), capacity, s)
  {
    var k := IndexOf(items, s);
    NamesToFront(items, k);
    WithoutAt(Names(items), k);
  }

  /** Adding an absent command, with eviction when full, is recording it. */
  lemma AddedIsRecord(items: seq<Entry<Index>>, capacity: nat, s: string)
    requires capacity >= 1 && Filed(items, capacity) && s !in Names(items) && s != "" && Indexed(items)
    ensures Indexed(Added(items, capacity, StringKey(s), Index(s)))
    ensures Names(Added(items, capacity, StringKey(s), Index(s))) == Record(Names(items), capacity, s)
  {
    var kept := Take(items, capacity - 1);
    WithoutAbsent(Names(items), s);
    assert Added(items, capacity, StringKey(s), Index(s)) == [Entry(StringKey(s), Index(s))] + kept;
    NamesPush(kept, Entry(StringKey(s), Index(s)));
    assert Names(kept) == Take(Names(items), capacity - 1);
  }

  class Recorder {
    const l: Cache<Index>
    ghost var Repr: set<object>

    ghost predicate Valid()
      reads this, Repr
      ensures Valid() ==> this in Repr && l in Repr && History(Lines(), l.capacity) && l.capacity >= 1
    {
      && this in Repr && l in Repr && l.Repr <= Repr && this !in l.Repr
      && l.Valid()
      && Indexed(l.items)
      && "" !in Names(l.items)
    }

    ghost function Lines(): seq<string>
      reads this, l
    {
      Names(l.items)
    }

    constructor (capacity: nat)
      requires capacity >= 1
      ensures Valid() && fresh(Repr) && Lines() == [] && l.capacity == capacity
    {
      var c := new Cache<Index>.Init(capacity);
      l := c;
      Repr := {this} + c.Repr;
    }

    method Add(s: string) returns (refused: bool)
      requires Valid()
      modifies Repr
      ensures Valid() && fresh(Repr - old(Repr))
      ensures refused <==> s == ""
      ensures Lines() == Record(old(Lines()), l.capacity, s)
    {
      hide Cache.Valid, Record, Names, Indexed, Refreshed, Added, Looked, History;
      if s == "" {
        return true;
      }
      refused := false;
      RecordKeepsHistory(Lines(), l.capacity, s);
      var found := l.Peek(StringKey(s));
      if found.Some? {
        RefreshedIsRecord(l.items, l.capacity, s);
        var _ := l.Contains(StringKey(s));
      } else {
        AddedIsRecord(l.items, l.capacity, s);
        var _, _ := l.Add(StringKey(s), Index(s));
      }
      Repr := Repr + l.Repr;
    }

    method Find(q: string) returns (found: seq<string>)
      requires Valid()
      ensures found == Answer(Lines(), q)
    {
      var kept := l.Filter(Hit(q));
      KeptIsAnswer(l.items, q);
      found := kept.value.0;
    }

    method List() returns (all: seq<string>)
      requires Valid()
      ensures all == Lines()
    {
      var kept := l.Filter((key, value) => true);
      KeptAll(l.items);
      all := kept.value.0;
    }
  }
}
