/** The doubly linked list that the cache is built on: a ring of elements closed by a sentinel. */
module LinkedLists {
  import opened Sequences

  class Element<T> {
    var prev: Element?<T>
    var next: Element?<T>
    /** None only in the sentinel. */
    var value: Option<T>

    constructor (value: Option<T>)
      ensures this.value == value && prev == null && next == null
    {
      this.value := value;
      prev, next := null, null;
    }
  }

  /** The ring by position: the sentinel stands before the first element and after the last one. */
  function At<E>(elems: seq<E>, root: E, i: int): E {
    if 0 <= i < |elems| then elems[i] else root
  }

  /** Positions after one element is taken out; the rest keep their neighbours but for the two beside it. */
  lemma Shifted<E>(elems: seq<E>, root: E, k: nat, i: int)
    requires k < |elems| && -1 <= i < |elems|
    ensures At(RemoveAt(elems, k), root, i) == At(elems, root, if i < k then i else i + 1)
  {
  }

  lemma Pushed<E>(elems: seq<E>, root: E, e: E, i: int)
    requires -1 <= i <= |elems| + 1
    ensures At([e] + elems, root, i) == if i == -1 then root else if i == 0 then e else At(elems, root, i - 1)
  {
  }

  class LinkedList<T> {
    const root: Element<T>
    var len: nat
    /** The elements from front to back, and what they carry. */
    ghost var elems: seq<Element<T>>
    ghost var items: seq<T>

    ghost predicate Valid()
      reads this, root, elems
      ensures Valid() ==> |elems| == |items| == len
    {
      && len == |elems| == |items|
      && root !in elems
      && NoDup(elems)
      && (forall i {:trigger At(elems, root, i).next} :: -1 <= i < |elems| ==>
            At(elems, root, i).next == At(elems, root, i + 1))
      && (forall i {:trigger At(elems, root, i).prev} :: 0 <= i <= |elems| ==>
            At(elems, root, i).prev == At(elems, root, i - 1))
      && (forall i {:trigger elems[i].value} :: 0 <= i < |elems| ==> elems[i].value == Some(items[i]))
    }

    constructor ()
      ensures Valid() && elems == [] && items == []
      ensures fresh(root)
    {
      var r := new Element<T>(None);
      root := r;
      len := 0;
      elems, items := [], [];
      new;
      root.prev, root.next := root, root;
    }

    method Front() returns (e: Element?<T>)
      requires Valid()
      ensures e == if elems == [] then null else elems[0]
    {
      assert At(elems, root, -1) == root;
      e := if len == 0 then null else root.next;
    }

    method Back() returns (e: Element?<T>)
      requires Valid()
      ensures e == if elems == [] then null else elems[|elems| - 1]
    {
      assert At(elems, root, |elems|) == root;
      e := if len == 0 then null else root.prev;
    }

    /** The successor of an element, null past the last one. */
    method Next(e: Element<T>, ghost k: nat) returns (n: Element?<T>)
      requires Valid() && k < |elems| && e == elems[k]
      ensures n == if k + 1 < |elems| then elems[k + 1] else null
    {
      assert At(elems, root, k) == e;
      n := if e.next == root then null else e.next;
    }

    /** What an element of the list carries; never the sentinel's empty value. */
    method Value(e: Element<T>, ghost k: nat) returns (x: T)
      requires Valid() && k < |elems| && e == elems[k]
      ensures x == items[k]
    {
      x := e.value.value;
    }

    /** Makes two elements neighbours. */
    static method Join(a: Element<T>, b: Element<T>)
      modifies a`next, b`prev
      ensures a.next == b && b.prev == a
    {
      a.next, b.prev := b, a;
    }

    /** Links `e` in directly behind the sentinel. */
    method InsertFirst(e: Element<T>, ghost x: T)
      requires Valid() && e !in elems && e != root && e.value == Some(x)
      modifies this, root, elems, e`prev, e`next
      ensures Valid() && elems == [e] + old(elems) && items == [x] + old(items)
    {
      ghost var before := elems;
      assert At(before, root, -1) == root;
      Join(e, root.next);
      Join(root, e);
      len := len + 1;
      elems, items := [e] + elems, [x] + items;
      forall i | -1 <= i < |elems|
        ensures At(elems, root, i).next == At(elems, root, i + 1)
        ensures At(elems, root, i + 1).prev == At(elems, root, i)
      {
        Pushed(before, root, e, i);
        Pushed(before, root, e, i + 1);
      }
    }

    method PushFront(x: T) returns (e: Element<T>)
      requires Valid()
      modifies this, root, elems
      ensures Valid() && fresh(e) && elems == [e] + old(elems) && items == [x] + old(items)
    {
      e := new Element<T>(Some(x));
      InsertFirst(e, x);
    }

    method Remove(e: Element<T>, ghost k: nat)
      requires Valid() && k < |elems| && e == elems[k]
      modifies this, root, elems
      ensures Valid() && elems == RemoveAt(old(elems), k) && items == RemoveAt(old(items), k)
      ensures e.value == old(e.value)
    {
      ghost var before := elems;
      assert At(before, root, k) == e;
      Join(e.prev, e.next);
      e.next, e.prev := null, null;
      len := len - 1;
      elems, items := RemoveAt(elems, k), RemoveAt(items, k);
      forall i | -1 <= i < |elems|
        ensures At(elems, root, i).next == At(elems, root, i + 1)
        ensures At(elems, root, i + 1).prev == At(elems, root, i)
      {
        Shifted(before, root, k, i);
        Shifted(before, root, k, i + 1);
      }
    }

    method MoveToFront(e: Element<T>, ghost k: nat)
      requires Valid() && k < |elems| && e == elems[k]
      modifies this, root, elems
      ensures Valid() && elems == ToFront(old(elems), k) && items == ToFront(old(items), k)
    {
      assert At(elems, root, -1) == root;
      if root.next == e {
        assert k == 0;
        return;
      }
      ghost var x := items[k];
      Remove(e, k);
      InsertFirst(e, x);
    }

    /** `MoveBefore` with the front element as its mark, the only mark the cache uses. */
    method MoveBeforeFront(e: Element<T>, mark: Element<T>, ghost k: nat)
      requires Valid() && k < |elems| && e == elems[k] && mark == elems[0]
      modifies this, root, elems
      ensures Valid() && elems == ToFront(old(elems), k) && items == ToFront(old(items), k)
    {
      if e == mark {
        assert k == 0;
        return;
      }
      ghost var x := items[k];
      Remove(e, k);
      InsertFirst(e, x);
    }

    method SetValue(e: Element<T>, x: T, ghost k: nat)
      requires Valid() && k < |elems| && e == elems[k]
      modifies this`items, e`value
      ensures Valid() && items == old(items)[k := x]
    {
      e.value := Some(x);
      items := items[k := x];
    }
  }
}
