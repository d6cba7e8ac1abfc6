/** A recorder that loads its history when started and saves it on every tick and when stopped. */
module PersistentRecorders {
  import opened Sequences
  import opened Histories
  import opened Fates
  import opened Storage
  import opened Recorders

  class PersistentRecorder {
    const r: Recorder
    const f: string
    const store: EtcdStore
    var inited: bool
    /** The one-slot stop channel. */
    var stopCh: seq<string>
    /** The goroutine that `Run` starts is still in its loop. */
    var ticking: bool
    /** How often `Stop` was called. */
    ghost var stops: nat
    ghost var Repr: set<object>

    ghost predicate Valid()
      reads this, Repr
      ensures Valid() ==> this in Repr && r in Repr && r.l in Repr && store !in Repr && History(Lines(), r.l.capacity)
    {
      && this in Repr && r in Repr && r.Repr <= Repr && this !in r.Repr && store !in Repr
      && r.l in r.Repr
      && r.Valid()
      && |stopCh| <= 1
    }

    ghost function Lines(): seq<string>
      reads this, r, r.l
    {
      r.Lines()
    }

    constructor (capacity: nat, f: string, store: EtcdStore)
      requires capacity >= 1
      ensures Valid() && fresh(Repr) && Lines() == [] && r.l.capacity == capacity
      ensures this.f == f && this.store == store && !inited && stopCh == [] && !ticking && stops == 0
    {
      var inner := new Recorder(capacity);
      r := inner;
      this.f := f;
      this.store := store;
      inited, stopCh, ticking, stops := false, [], false, 0;
      Repr := {this} + inner.Repr;
    }

    /** Starts the goroutine after the load. */
    method Run(reached: bool)
      requires Valid() && Lines() == []
      modifies Repr
      ensures Valid() && fresh(Repr - old(Repr)) && inited && ticking && stopCh == old(stopCh) && stops == old(stops)
      ensures Lines() == if reached then Decoded(store.data, f, r.l.capacity) else []
    {
      var _ := InitOrLoad(reached);
      ticking := true;
    }

    /** Reads the stored list from its oldest command on; an empty command ends the load early. */
    method InitOrLoad(reached: bool) returns (failed: bool)
      requires Valid() && Lines() == []
      modifies Repr
      ensures Valid() && fresh(Repr - old(Repr)) && inited
      ensures ticking == old(ticking) && stopCh == old(stopCh) && stops == old(stops)
      ensures failed <==> !reached || f !in store.data || store.data[f].GarbledBlob?
                          || (store.data[f].ListBlob? && "" in store.data[f].records)
      ensures Lines() == if reached then Decoded(store.data, f, r.l.capacity) else []
    {
      inited := true;
      var reply := store.GetKV(f, reached);
      if !reply.Value? {
        return true;
      }
      if reply.blob.EmptyBlob? {
        return false;
      }
      if reply.blob.GarbledBlob? {
        return true;
      }
      failed := Replay(reply.blob.records);
    }

    method Replay(records: seq<string>) returns (failed: bool)
      requires Valid() && Lines() == []
      modifies Repr
      ensures Valid() && fresh(Repr - old(Repr))
      ensures inited == old(inited) && ticking == old(ticking) && stopCh == old(stopCh) && stops == old(stops)
      ensures Lines() == Loaded(records, r.l.capacity)
      ensures failed <==> "" in records
    {
      hide Recorder.Valid, Record, Loaded, Loadable, Reverse;
      failed := false;
      var i := |records|;
      EmptyReverse(records);
      while i > 0
        invariant 0 <= i <= |records|
        invariant Valid() && fresh(Repr - old(Repr))
        invariant inited == old(inited) && ticking == old(ticking) && stopCh == old(stopCh) && stops == old(stops)
        invariant "" !in records[i..]
        invariant Lines() == RecordAll([], r.l.capacity, Reverse(records[i..]))
      {
        var s := records[i - 1];
        ReplayStep(records, i, r.l.capacity);
        var refused := r.Add(s);
        Repr := Repr + r.Repr;
        if refused {
          LoadableStops(records, i - 1);
          ReloadIsLoaded(records, r.l.capacity);
          return true;
        }
        i := i - 1;
      }
      LoadableAll(records);
      assert records[0..] == records;
      ReloadIsLoaded(records, r.l.capacity);
    }

    /** Saves the list; `inited` is what stands between this call and an abort. */
    method Sync(fate: Fate) returns (failed: bool)
      requires Valid() && inited
      modifies store
      ensures failed <==> !fate.Done?
      ensures store.data == if fate.Landed() then old(store.data)[f := ListBlob(Lines())] else old(store.data)
    {
      var records := r.List();
      failed := store.PutKV(f, ListBlob(records), fate);
    }

    /** The send on the stop channel cannot block when the channel is empty. */
    method Stop(fate: Fate)
      requires Valid() && inited && stopCh == []
      modifies store, this`stopCh, this`stops
      ensures Valid() && stopCh == ["Done"] && stops == old(stops) + 1
      ensures store.data == if fate.Landed() then old(store.data)[f := ListBlob(Lines())] else old(store.data)
    {
      var _ := Sync(fate);
      stopCh := stopCh + ["Done"];
      stops := stops + 1;
    }

    /** One round of the goroutine's loop that takes the ticker; it may win over a pending stop. */
    method Tick(fate: Fate)
      requires Valid() && inited && ticking
      modifies store
      ensures store.data == if fate.Landed() then old(store.data)[f := ListBlob(Lines())] else old(store.data)
    {
      var _ := Sync(fate);
    }

    /** The round that takes the stop message: the last one. */
    method TakeStop()
      requires Valid() && ticking && stopCh != []
      modifies this`stopCh, this`ticking
      ensures Valid() && stopCh == [] && !ticking
    {
      stopCh, ticking := stopCh[1..], false;
    }

    method Add(s: string) returns (refused: bool)
      requires Valid() && inited
      modifies Repr
      ensures Valid() && fresh(Repr - old(Repr))
      ensures inited == old(inited) && ticking == old(ticking) && stopCh == old(stopCh) && stops == old(stops)
      ensures refused <==> s == ""
      ensures Lines() == Record(old(Lines()), r.l.capacity, s)
    {
      hide Recorder.Valid, Record;
      refused := r.Add(s);
      Repr := Repr + r.Repr;
    }

    method Find(q: string) returns (found: seq<string>)
      requires Valid() && inited
      ensures found == Answer(Lines(), q)
    {
      found := r.Find(q);
    }

    method List() returns (all: seq<string>)
      requires Valid() && inited
      ensures all == Lines()
    {
      all := r.List();
    }
  }

  lemma EmptyReverse(records: seq<string>)
    ensures records[|records|..] == [] && Reverse<string>([]) == []
  {
  }

  lemma ReplayStep(records: seq<string>, i: nat, capacity: nat)
    requires 0 < i <= |records| && capacity >= 1
    ensures RecordAll([], capacity, Reverse(records[i - 1..]))
         == Record(RecordAll([], capacity, Reverse(records[i..])), capacity, records[i - 1])
    ensures records[i - 1..] == [records[i - 1]] + records[i..]
  {
    hide Record;
    var part, rest := records[i - 1..], Reverse(records[i..]);
    assert part[1..] == records[i..];
    assert Reverse(part) == rest + [records[i - 1]];
    RecordAllSnoc([], capacity, rest, records[i - 1]);
  }

  lemma RecordAllSnoc(h: seq<string>, capacity: nat, cmds: seq<string>, cmd: string)
    requires capacity >= 1
    ensures RecordAll(h, capacity, cmds + [cmd]) == Record(RecordAll(h, capacity, cmds), capacity, cmd)
  {
    hide Record;
    assert (cmds + [cmd])[..|cmds|] == cmds;
  }

  /** An empty command at `i` hides everything stored before it. */
  lemma {:induction false} LoadableStops(stored: seq<string>, i: nat)
    requires i < |stored| && stored[i] == "" && "" !in stored[i + 1..]
    ensures Loadable(stored) == stored[i + 1..]
  {
    if i < |stored| - 1 {
      var init := stored[..|stored| - 1];
      assert init[i + 1..] == stored[i + 1..][..|stored| - i - 2];
      assert stored[|stored| - 1] == stored[i + 1..][|stored| - i - 2];
      LoadableStops(init, i);
    }
  }

  lemma LoadableAll(stored: seq<string>)
    ensures "" !in stored ==> Loadable(stored) == stored
  {
  }
}
