/** The recorder manager: an LRU cache of running recorders that are flushed when they are pushed out. */
module RecorderManagers {
  import opened Sequences
  import opened Histories
  import opened Fates
  import opened Storage
  import opened Lru
  import opened LruLaws
  import opened Relabeling
  import opened PersistentRecorders
  import opened Managers

  type Handles = seq<Entry<PersistentRecorder>>

  /** The store once the recorders of `out` are flushed; there is at most one. */
  ghost function DataAfter(c: Config, data: Store, out: Handles, shown: map<PersistentRecorder, seq<string>>,
                           saved: bool): Store
  {
    if out == [] || !saved || out[0].value !in shown then data
    else data[c.key(Sprint(out[0].key)) := ListBlob(shown[out[0].value])]
  }

  /** The manager's view after an admission is what `tryRun` makes of the view before. */
  lemma AdmitView(c: Config, items: Handles, retired: Handles, shown: map<PersistentRecorder, seq<string>>,
                  id: string, p: PersistentRecorder, lines: seq<string>, data: Store, net: Net)
    requires Sound(c) && Roster(items, retired, shown) && p !in shown && |items| <= c.slots && id !in Names(items)
    requires lines == if net.loaded then Stored(c, data, id) else []
    ensures var shown' := shown[p := lines];
            var items', retired' := Added(items, c.slots, StringKey(id), p), retired + PushedOut(items, c.slots);
            && (forall e :: e in items ==> e.value in shown) && (forall e :: e in retired ==> e.value in shown)
            && (forall e :: e in items' ==> e.value in shown') && (forall e :: e in retired' ==> e.value in shown')
            && State(Relabel(items', shown'), Relabel(retired', shown'),
                     DataAfter(c, data, PushedOut(items, c.slots), shown, net.save.Landed()))
               == EnsureLive(c, State(Relabel(items, shown), Relabel(retired, shown), data), id, net)
  {
    hide Names, Added, Roster, Stored;
    var shown' := shown[p := lines];
    RosterKnows(items, retired, shown);
    RosterAdmit(items, retired, shown, c.slots, StringKey(id), p, lines);
    RosterKnows(Added(items, c.slots, StringKey(id), p), retired + PushedOut(items, c.slots), shown');
    RelabelAdded(items, c.slots, StringKey(id), p, shown');
    assert Relabel(items, shown') == Relabel(items, shown);
    assert Relabel(retired + PushedOut(items, c.slots), shown')
        == Relabel(retired, shown) + Relabel(PushedOut(items, c.slots), shown);
  }

  /** The manager's view after its recorder of `id` is retired. */
  lemma RetireView(c: Config, items: Handles, retired: Handles, shown: map<PersistentRecorder, seq<string>>,
                   id: string, data: Store, saved: bool)
    requires Roster(items, retired, shown) && id in Names(items)
    ensures var k := IndexOf(items, id);
            && (forall e :: e in items ==> e.value in shown) && (forall e :: e in retired ==> e.value in shown)
            && (forall e :: e in RemoveAt(items, k) ==> e.value in shown)
            && State(Relabel(RemoveAt(items, k), shown), Relabel(retired + [items[k]], shown),
                     if saved then data[c.key(id) := ListBlob(shown[items[k].value])] else data)
               == Managers.Stop(c, State(Relabel(items, shown), Relabel(retired, shown), data), id, saved)
  {
    hide Names, Roster, IndexOf;
    var k := IndexOf(items, id);
    RosterKnows(items, retired, shown);
    RelabelRemoveAt(items, k, shown);
    SameIndex(items, Relabel(items, shown), id);
    assert items[k] in items;
    assert Relabel(retired + [items[k]], shown) == Relabel(retired, shown) + [Relabel(items, shown)[k]];
  }

  /** The tick of a live recorder, or the late tick of a retired one, on the manager's view. */
  lemma TickView(c: Config, items: Handles, retired: Handles, shown: map<PersistentRecorder, seq<string>>,
                 entry: Entry<PersistentRecorder>, k: nat, data: Store, saved: bool)
    requires Sound(c) && Roster(items, retired, shown) && NoDup(Names(items)) && entry.value in shown
    requires if entry.value in Values(items) then k < |items| && items[k] == entry
             else k < |retired| && retired[k] == entry
    ensures (forall e :: e in items ==> e.value in shown) && (forall e :: e in retired ==> e.value in shown)
    ensures var before := State(Relabel(items, shown), Relabel(retired, shown), data);
            var e := if entry.value in Values(items) then Event.Tick(Sprint(entry.key), saved) else LateTick(k, saved);
            Step(c, before, e).0
              == before.(data := if saved then data[c.key(Sprint(entry.key)) := ListBlob(shown[entry.value])] else data)
  {
    hide Names, Roster, IndexOf, Values, Relabel;
    RosterKnows(items, retired, shown);
    if entry.value in Values(items) {
      LookedAt(items, k);
      SameIndex(items, Relabel(items, shown), Sprint(entry.key));
    }
  }

  class RecorderManager {
    const c: Config
    const recorderSet: Cache<PersistentRecorder>
    const store: EtcdStore
    /** Every recorder ever started with its present history, and those taken out of service, in order. */
    ghost var shown: map<PersistentRecorder, seq<string>>
    ghost var retired: Handles
    ghost var Repr: set<object>

    /** A started recorder is initialised, works on this store, and shares no memory with the rest. */
    ghost predicate Sane(p: PersistentRecorder)
      requires p in shown
      reads this, recorderSet, p, p.Repr
    {
      && p.Valid() && p.inited && p.store == store && p.r.l.capacity == c.capacity
      && this !in p.Repr && recorderSet.Repr !! p.Repr && shown[p] == p.Lines()
    }

    /** A live recorder was never stopped: its goroutine runs and its stop channel is empty. */
    ghost predicate Running(e: Entry<PersistentRecorder>)
      reads e.value
    {
      e.value.f == c.key(Sprint(e.key)) && e.value.stops == 0 && e.value.stopCh == [] && e.value.ticking
    }

    /** A recorder out of service was stopped exactly once. */
    ghost predicate Stopped(e: Entry<PersistentRecorder>)
      reads e.value
    {
      e.value.f == c.key(Sprint(e.key)) && e.value.stops == 1
    }

    /** The memory side: the cache and every started recorder are sound, and none shares memory with another. */
    ghost predicate Grounds()
      reads this, Repr
      ensures Grounds() ==>
                && this in Repr && recorderSet in Repr && recorderSet.Repr <= Repr && this !in recorderSet.Repr
                && store !in Repr && Sound(c) && recorderSet.capacity == c.slots && Filed(recorderSet.items, c.slots)
                && forall p :: p in shown ==> p in Repr
    {
      && this in Repr && store !in Repr
      && recorderSet in Repr && recorderSet.Repr <= Repr && this !in recorderSet.Repr
      && recorderSet.Valid() && recorderSet.capacity == c.slots && Sound(c)
      && (forall p :: p in shown ==> p in Repr && p.Repr <= Repr)
      && (forall p :: p in shown ==> Sane(p))
      && (forall p, q :: p in shown && q in shown && p != q ==> p.Repr !! q.Repr)
    }

    ghost predicate Valid()
      reads this, Repr
    {
      && Grounds()
      && Roster(recorderSet.items, retired, shown)
      && (forall e :: e in recorderSet.items ==> e.value in Repr && Running(e))
      && (forall e :: e in retired ==> e.value in Repr && Stopped(e))
    }

    /** What the manager and its store stand for. */
    ghost function View(): (st: State)
      requires Roster(recorderSet.items, retired, shown)
      reads this, recorderSet, store
      ensures st.data == store.data
    {
      RosterKnows(recorderSet.items, retired, shown);
      State(Relabel(recorderSet.items, shown), Relabel(retired, shown), store.data)
    }

    /**
     * Every recorder ever started is initialised, and is either live once and never stopped, so that
     * stopping it cannot block, or retired once and stopped once.
     */
    lemma LifeCycle(p: PersistentRecorder)
      requires Valid() && p in shown
      ensures p.inited
      ensures var on, off := Times(recorderSet.items, p), Times(retired, p);
              || (on == 1 && off == 0 && p.stops == 0 && p.stopCh == [] && p.ticking)
              || (on == 0 && off == 1 && p.stops == 1)
    {
      hide Cache.Valid, PersistentRecorder.Valid, Names, Times;
      var e, k := RosterFinds(recorderSet.items, retired, shown, p);
      RosterOnce(recorderSet.items, retired, shown, p);
      assert if p in Values(recorderSet.items) then e in recorderSet.items else e in retired;
    }

    constructor (c: Config, store: EtcdStore)
      requires Sound(c)
      ensures Valid() && fresh(Repr) && this.c == c && this.store == store
      ensures View() == State([], [], store.data)
    {
      this.c := c;
      this.store := store;
      var set0 := new Cache<PersistentRecorder>.Init(c.slots);
      recorderSet := set0;
      shown, retired := map[], [];
      Repr := {this} + set0.Repr;
    }

    /** A new recorder for `id`, loaded and running. */
    method Started(id: string, loaded: bool) returns (p: PersistentRecorder)
      requires Sound(c)
      ensures fresh(p.Repr) && p.Valid() && p.inited && p.store == store && p.r.l.capacity == c.capacity
      ensures p.f == c.key(id) && p.stops == 0 && p.stopCh == [] && p.ticking
      ensures p.Lines() == if loaded then Decoded(store.data, p.f, c.capacity) else []
    {
      hide PersistentRecorder.Valid;
      p := new PersistentRecorder(c.capacity, c.key(id), store);
      p.Run(loaded);
    }

    /** Makes the recorder of `id` live. */
    method TryRun(id: string, net: Net)
      requires Valid()
      modifies Repr, store
      ensures Valid() && fresh(Repr - old(Repr))
      ensures View() == EnsureLive(c, old(View()), id, net)
    {
      hide Cache.Valid, PersistentRecorder.Valid, Names, Added, Evicted, Roster, Relabel,
           Running, Stopped, Sane, EnsureLive;
      ghost var before, items, live := View(), recorderSet.items, shown;
      RosterKnows(recorderSet.items, retired, shown);
      var found := recorderSet.Peek(StringKey(id));
      if found.None? {
        var p := Started(id, net.loaded);
        ghost var lines := p.Lines();
        Admit(id, p, net.save);
        AdmitView(c, items, old(retired), live, id, p, lines, before.data, net);
      } else {
        LiveIsKept(c, before, id, net);
      }
    }

    /** Files a started recorder, and stops whoever is pushed out. */
    method Admit(id: string, p: PersistentRecorder, fate: Fate)
      requires Valid() && id !in Names(recorderSet.items)
      requires p.Valid() && p.Repr !! Repr && p.inited && p.store == store && p.r.l.capacity == c.capacity
      requires p.f == c.key(id) && p.stops == 0 && p.stopCh == [] && p.ticking
      modifies Repr, store
      ensures Valid() && fresh(Repr - old(Repr) - p.Repr)
      ensures recorderSet.items == Added(old(recorderSet.items), c.slots, StringKey(id), p)
      ensures retired == old(retired) + PushedOut(old(recorderSet.items), c.slots)
      ensures shown == old(shown)[p := old(p.Lines())]
      ensures store.data
           == DataAfter(c, old(store.data), PushedOut(old(recorderSet.items), c.slots), old(shown), fate.Landed())
    {
      hide Cache.Valid, PersistentRecorder.Valid, Grounds, Names, Added, Evicted, PushedOut, Roster, Relabel;
      ghost var items := recorderSet.items;
      EvictedIsPushedOut(items, c.slots, StringKey(id));
      RosterKnows(items, retired, shown);
      RosterApart(items, retired, shown, c.slots, StringKey(id), p);
      Enlist(p, PushedOut(items, c.slots));
      RosterAdmit(items, old(retired), old(shown), c.slots, StringKey(id), p, p.Lines());
      RosterKnows(Added(items, c.slots, StringKey(id), p), retired, shown);
      var gone := File(id, p);
      if gone.Some? {
        assert PushedOut(items, c.slots)[0] in items;
        Flush(gone.value, fate);
      }
      forall e | e in recorderSet.items
        ensures e.value in Repr && Running(e)
      {
        assert e == Entry(StringKey(id), p) || (e in items && old(Running(e)));
      }
      forall e | e in retired
        ensures e.value in Repr && Stopped(e)
      {
        assert e in PushedOut(items, c.slots) || e in old(retired);
      }
    }

    /** Writes a recorder from outside into the manager's books, and `out` as leaving service. */
    ghost method Enlist(p: PersistentRecorder, out: Handles)
      requires Grounds() && p.Valid() && p.Repr !! Repr && p.inited && p.store == store && p.r.l.capacity == c.capacity
      modifies this`shown, this`Repr, this`retired
      ensures retired == old(retired) + out
      ensures Grounds() && p !in old(shown) && shown == old(shown)[p := p.Lines()] && Repr == old(Repr) + p.Repr
    {
      hide Cache.Valid, PersistentRecorder.Valid;
      assert p in p.Repr;
      retired := retired + out;
      Book(p);
    }

    /** The cache half of `Admit`: no recorder is affected by it. */
    method File(id: string, p: PersistentRecorder) returns (gone: Option<PersistentRecorder>)
      requires Grounds() && p in shown
      modifies recorderSet.Repr, this`Repr
      ensures Grounds() && fresh(Repr - old(Repr)) && old(Repr) <= Repr
      ensures recorderSet.items == Added(old(recorderSet.items), c.slots, StringKey(id), p)
      ensures gone == Evicted(old(recorderSet.items), c.slots, StringKey(id))
      ensures forall q :: q in shown ==>
                q in Repr && q.stops == old(q.stops) && q.stopCh == old(q.stopCh) && q.ticking == old(q.ticking)
    {
      hide Cache.Valid, PersistentRecorder.Valid, Names, Added, Evicted;
      var _, g := recorderSet.Add(StringKey(id), p);
      Repr := Repr + recorderSet.Repr;
      gone := g;
    }

    /** Stops one started recorder. */
    method Flush(p: PersistentRecorder, fate: Fate)
      requires Grounds() && p in shown && p.stopCh == []
      modifies store, p`stopCh, p`stops
      ensures Grounds()
      ensures p.stops == old(p.stops) + 1
      ensures store.data == if fate.Landed() then old(store.data)[p.f := ListBlob(shown[p])] else old(store.data)
    {
      hide Cache.Valid, PersistentRecorder.Valid;
      p.Stop(fate);
    }

    /** `recorderSet.Get` right after `TryRun`: the recorder is there, so the type assertion holds. */
    method Promote(id: string) returns (p: PersistentRecorder)
      requires Valid() && id in Names(recorderSet.items)
      modifies recorderSet.Repr
      ensures Valid() && recorderSet.items == Refreshed(old(recorderSet.items), StringKey(id))
      ensures recorderSet.items != [] && p == recorderSet.items[0].value
      ensures retired == old(retired) && shown == old(shown) && recorderSet.Repr == old(recorderSet.Repr)
    {
      hide Cache.Valid, PersistentRecorder.Valid, Names, Roster, Refreshed, Running, Stopped;
      ghost var items := recorderSet.items;
      RosterRefresh(items, retired, shown, StringKey(id));
      RosterKnows(items, retired, shown);
      MembersRefreshed(items, StringKey(id));
      var obj := Lookup(id);
      p := obj;
    }

    /** The cache half of `Promote`. */
    method Lookup(id: string) returns (p: PersistentRecorder)
      requires Grounds() && id in Names(recorderSet.items)
      modifies recorderSet.Repr
      ensures Grounds() && recorderSet.Repr == old(recorderSet.Repr)
      ensures recorderSet.items == Refreshed(old(recorderSet.items), StringKey(id))
      ensures recorderSet.items != [] && p == recorderSet.items[0].value
      ensures forall q :: q in shown ==>
                q in Repr && q.stops == old(q.stops) && q.stopCh == old(q.stopCh) && q.ticking == old(q.ticking)
    {
      hide Cache.Valid, PersistentRecorder.Valid, Names, Refreshed, Looked;
      LookedHead(recorderSet.items, StringKey(id));
      var obj := recorderSet.Get(StringKey(id));
      p := obj.value;
    }

    /** The recorder of `id`, made live and most recent. */
    method Reach(id: string, net: Net) returns (p: PersistentRecorder)
      requires Valid()
      modifies Repr, store
      ensures Valid() && fresh(Repr - old(Repr))
      ensures View() == Access(c, old(View()), id, net)
      ensures recorderSet.items != [] && p == recorderSet.items[0].value
    {
      hide Grounds, Names, Roster, EnsureLive, Refreshed, Relabel, Running, Stopped;
      TryRun(id, net);
      RosterKnows(recorderSet.items, retired, shown);
      RelabelRefreshed(recorderSet.items, StringKey(id), shown);
      p := Promote(id);
    }

    method Add(id: string, s: string, net: Net) returns (refused: bool)
      requires Valid()
      modifies Repr, store
      ensures Valid() && fresh(Repr - old(Repr))
      ensures View() == AddLine(c, old(View()), id, s, net)
      ensures refused <==> s == ""
    {
      hide Grounds, Names, Access, Relabel, Roster;
      var p := Reach(id, net);
      refused := Extend(p, s);
    }

    /** Records a command in the most recent recorder. */
    method Extend(p: PersistentRecorder, s: string) returns (refused: bool)
      requires Valid() && recorderSet.items != [] && p == recorderSet.items[0].value
      modifies Repr
      ensures Valid() && fresh(Repr - old(Repr))
      ensures View() == old(View()).(live := Put(old(View()).live, Record(old(View()).live[0].value, c.capacity, s)))
      ensures refused <==> s == ""
    {
      hide Grounds, Names, Record, Roster, Relabel;
      ghost var items: Handles := recorderSet.items;
      ghost var m: map<PersistentRecorder, seq<string>> := shown;
      RosterKnows(items, retired, m);
      RosterDistinct(items, retired, m);
      assert items[0] in items;
      ghost var w := Record(m[p], c.capacity, s);
      RelabelOne(items, 0, m, w);
      assert p in Values(items) by {
        ValuesIn(items, items[0]);
      }
      RelabelOther(retired, p, m, w);
      RosterUpdate(items, retired, m, p, w);
      refused := Write(p, s);
    }

    /** The recorder half of `Extend`: only `p` changes. */
    method Write(p: PersistentRecorder, s: string) returns (refused: bool)
      requires Grounds() && p in shown
      modifies Repr
      ensures Grounds() && fresh(Repr - old(Repr)) && old(Repr) <= Repr && retired == old(retired)
      ensures shown == old(shown)[p := Record(old(shown)[p], c.capacity, s)]
      ensures refused <==> s == ""
      ensures recorderSet.items == old(recorderSet.items)
      ensures forall q :: q in shown ==>
                q in Repr && q.stops == old(q.stops) && q.stopCh == old(q.stopCh) && q.ticking == old(q.ticking)
    {
      hide Cache.Valid, PersistentRecorder.Valid, Record, Filed, History;
      refused := Append(p, s);
      Book(p);
    }

    /** Enters the present history of `p`, when everybody else is as the books say. */
    ghost method Book(p: PersistentRecorder)
      requires p.Valid() && p.inited && p.store == store && p.r.l.capacity == c.capacity && Sound(c)
      requires this in Repr && store !in Repr && recorderSet in Repr && recorderSet.Repr <= Repr
      requires recorderSet.Valid() && recorderSet.capacity == c.slots && this !in recorderSet.Repr
      requires this !in p.Repr && recorderSet.Repr !! p.Repr
      requires forall q :: q in shown && q != p ==> q in Repr && q.Repr <= Repr && Sane(q) && p.Repr !! q.Repr
      requires forall q, r :: q in shown && r in shown && q != r && q != p && r != p ==> q.Repr !! r.Repr
      modifies this`shown, this`Repr
      ensures Grounds() && shown == old(shown)[p := p.Lines()] && Repr == old(Repr) + p.Repr
    {
      hide Cache.Valid, PersistentRecorder.Valid, Filed, History;
      shown := shown[p := p.Lines()];
      Repr := Repr + p.Repr;
    }

    /** The command itself: nobody but `p` changes, and `p` takes no memory of anybody else. */
    method Append(p: PersistentRecorder, s: string) returns (refused: bool)
      requires Grounds() && p in shown
      modifies p.Repr
      ensures p.Valid() && p.inited && fresh(p.Repr - old(p.Repr))
      ensures p.Lines() == Record(shown[p], c.capacity, s) && (refused <==> s == "")
      ensures recorderSet.Valid() && this !in p.Repr && store !in p.Repr && recorderSet.Repr !! p.Repr
      ensures forall q :: q in shown && q != p ==> Sane(q) && p.Repr !! q.Repr
      ensures recorderSet.items == old(recorderSet.items)
      ensures forall q :: q in shown ==>
                q in Repr && q.stops == old(q.stops) && q.stopCh == old(q.stopCh) && q.ticking == old(q.ticking)
    {
      hide Cache.Valid, PersistentRecorder.Valid, Record, Filed, History;
      refused := p.Add(s);
    }

    method Find(id: string, q: string, net: Net) returns (found: seq<string>)
      requires Valid()
      modifies Repr, store
      ensures Valid() && fresh(Repr - old(Repr))
      ensures (View(), Answered(found)) == Step(c, old(View()), Event.Find(id, q, net))
    {
      hide Grounds, Names, Access, Relabel, Roster, Answer;
      if id == "" && q == "" {
        return [];
      }
      var p := Reach(id, net);
      assert recorderSet.items[0] in recorderSet.items;
      RosterKnows(recorderSet.items, retired, shown);
      found := Ask(p, q);
    }

    method Ask(p: PersistentRecorder, q: string) returns (found: seq<string>)
      requires Grounds() && p in shown
      ensures found == Answer(shown[p], q)
    {
      hide Cache.Valid, PersistentRecorder.Valid, Answer;
      found := p.Find(q);
    }

    /** Flushes the recorder of `id`, if it is live, and takes it out of service. */
    method Stop(id: string, fate: Fate)
      requires Valid()
      modifies Repr, store
      ensures Valid() && fresh(Repr - old(Repr))
      ensures View() == Managers.Stop(c, old(View()), id, fate.Landed())
    {
      hide Grounds, Names, Roster, Relabel, Running, Stopped;
      ghost var items: Handles := recorderSet.items;
      RosterKnows(items, retired, shown);
      SameIndex(items, View().live, id);
      var recorder := Peer(id);
      if recorder.Some? {
        RetireView(c, items, retired, shown, id, store.data, fate.Landed());
        Retire(id, recorder.value, fate, IndexOf(items, id));
      }
    }

    method Peer(id: string) returns (recorder: Option<PersistentRecorder>)
      requires Grounds()
      ensures recorder == Looked(recorderSet.items, StringKey(id))
    {
      hide Cache.Valid, PersistentRecorder.Valid, Looked;
      recorder := recorderSet.Peek(StringKey(id));
    }

    method Retire(id: string, p: PersistentRecorder, fate: Fate, ghost k: nat)
      requires p in shown && k < |recorderSet.items| && recorderSet.items[k].value == p
      requires Valid() && k == IndexOf(recorderSet.items, id)
      modifies Repr, store
      ensures Valid() && fresh(Repr - old(Repr)) && shown == old(shown)
      ensures recorderSet.items == RemoveAt(old(recorderSet.items), k)
      ensures retired == old(retired) + [old(recorderSet.items)[k]]
      ensures store.data
           == if fate.Landed() then old(store.data)[c.key(id) := ListBlob(old(shown)[p])] else old(store.data)
    {
      hide Cache.Valid, PersistentRecorder.Valid, Grounds, Names, Roster, RemoveAt;
      ghost var items: Handles := recorderSet.items;
      RosterKnows(items, retired, shown);
      RosterLeft(items, retired, shown, k);
      RosterRetire(items, retired, shown, k);
      assert items[k] in items;
      Leave(items[k]);
      Flush(p, fate);
      Unfile(id);
    }

    ghost method Leave(e: Entry<PersistentRecorder>)
      requires Grounds()
      modifies this`retired
      ensures Grounds() && retired == old(retired) + [e]
    {
      hide Cache.Valid, PersistentRecorder.Valid;
      retired := retired + [e];
    }

    /** The cache half of `Retire`. */
    method Unfile(id: string)
      requires Grounds()
      modifies recorderSet.Repr
      ensures Grounds() && recorderSet.items == Removed(old(recorderSet.items), StringKey(id))
      ensures forall q :: q in shown ==>
                q in Repr && q.stops == old(q.stops) && q.stopCh == old(q.stopCh) && q.ticking == old(q.ticking)
    {
      hide Cache.Valid, PersistentRecorder.Valid, Names, Removed;
      var _ := recorderSet.Remove(StringKey(id));
    }

    /**
     * One round of a recorder's goroutine that takes the ticker, also after the recorder was stopped.
     * `e` names it as an event of the manager.
     */
    method Tick(p: PersistentRecorder, fate: Fate) returns (ghost e: Event)
      requires Valid() && p in shown && p.ticking
      modifies store
      ensures Valid() && View() == Step(c, old(View()), e).0
      ensures p in Values(recorderSet.items) ==> e.Tick?
      ensures p in Values(retired) ==> e.LateTick?
    {
      hide Cache.Valid, PersistentRecorder.Valid, Names, Roster, Grounds, Relabel;
      ghost var items: Handles := recorderSet.items;
      RosterDistinct(items, retired, shown);
      ghost var entry, k := RosterFinds(items, retired, shown, p);
      e := if p in Values(items) then Event.Tick(Sprint(entry.key), fate.Landed()) else LateTick(k, fate.Landed());
      TickView(c, items, retired, shown, entry, k, store.data, fate.Landed());
      Save(p, fate);
    }

    method Save(p: PersistentRecorder, fate: Fate)
      requires Grounds() && p in shown && p.ticking
      modifies store
      ensures Grounds()
      ensures store.data == if fate.Landed() then old(store.data)[p.f := ListBlob(shown[p])] else old(store.data)
    {
      hide Cache.Valid, PersistentRecorder.Valid;
      p.Tick(fate);
    }

    /** The last round of a goroutine: it takes the stop message, which only a retired recorder has. */
    method TakeStop(p: PersistentRecorder)
      requires Valid() && p in shown && p.ticking && p.stopCh != []
      modifies p`stopCh, p`ticking
      ensures Valid() && View() == old(View()) && !p.ticking && p in Values(retired)
    {
      hide Cache.Valid, PersistentRecorder.Valid, Names, Roster, Grounds, Relabel;
      ghost var entry, k := RosterFinds(recorderSet.items, retired, shown, p);
      assert entry in recorderSet.items || entry in retired;
      Finish(p);
    }

    method Finish(p: PersistentRecorder)
      requires Grounds() && p in shown && p.ticking && p.stopCh != []
      modifies p`stopCh, p`ticking
      ensures Grounds() && !p.ticking
    {
      hide Cache.Valid, PersistentRecorder.Valid;
      p.TakeStop();
    }
  }
}
