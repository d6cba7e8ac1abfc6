/** The evicting, reloading manager cannot be told apart from a plain map of histories. */
module Transparency {
  import opened Sequences
  import opened Histories
  import opened Fates
  import opened Lru
  import opened LruLaws
  import opened Managers
  import opened Storage

  // ----- Which steps lose nothing -----

  /** Reads only what is at hand when `tryRun` starts. */
  predicate AccessSafe(c: Config, st: State, id: string, net: Net) {
    id in Names(st.live) ||
    (&& (net.loaded || Stored(c, st.data, id) == [])
     && (|st.live| == c.slots && st.live != [] ==> SaveSafe(c, st.data, st.live[|st.live| - 1], net.save.Landed())))
  }

  /** The save goes through, or the store already has the same history. */
  predicate SaveSafe(c: Config, data: Store, r: Entry<seq<string>>, saved: bool) {
    saved || Stored(c, data, Sprint(r.key)) == r.value
  }

  predicate StopSafe(c: Config, st: State, id: string, saved: bool) {
    var k := IndexOf(st.live, id);
    k < |st.live| ==> SaveSafe(c, st.data, st.live[k], saved)
  }

  /** A late tick is harmless while the id is live again, or when the store has that history anyway. */
  predicate LateTickSafe(c: Config, st: State, j: nat, saved: bool) {
    j < |st.stopped| && saved ==>
      var r := st.stopped[j];
      Sprint(r.key) in Names(st.live) || Stored(c, st.data, Sprint(r.key)) == r.value
  }

  predicate Safe(c: Config, st: State, e: Event) {
    match e
    case Add(id, _, net) => AccessSafe(c, st, id, net)
    case Find(id, q, net) => (id == "" && q == "") || AccessSafe(c, st, id, net)
    case StopOne(id, saved) => StopSafe(c, st, id, saved)
    case Tick(_, _) => true
    case LateTick(j, saved) => LateTickSafe(c, st, j, saved)
  }

  // ----- One step -----

  lemma StoredSaved(c: Config, data: Store, r: Entry<seq<string>>, saved: bool, id: string)
    requires DistinctKeys(c) && Sprint(r.key) in c.users && id in c.users && History(r.value, c.capacity)
    ensures Stored(c, Saved(c, data, r, saved), id)
         == if saved && id == Sprint(r.key) then r.value else Stored(c, data, id)
  {
    RoundTrip(r.value, c.capacity);
  }

  /** A live history stays within bounds, whatever was loaded. */
  lemma EnsureLiveInv(c: Config, st: State, id: string, net: Net)
    requires Sound(c) && Inv(c, st) && id in c.users
    ensures Inv(c, EnsureLive(c, st, id, net))
  {
    if id !in Names(st.live) {
      var lines := if net.loaded then Stored(c, st.data, id) else [];
      AddedLaw(st.live, c.slots, StringKey(id), lines, StringKey(id));
    }
  }

  lemma EnsureLiveLogical(c: Config, st: State, id: string, net: Net, x: string)
    requires Sound(c) && DistinctKeys(c) && Inv(c, st) && id in c.users && x in c.users
    requires id !in Names(st.live)
    ensures var lines := if net.loaded then Stored(c, st.data, id) else [];
            Logical(c, EnsureLive(c, st, id, net), x) ==
              if x == id then lines
              else if |st.live| == c.slots && Sprint(st.live[|st.live| - 1].key) == x && !net.save.Landed()
                then Stored(c, st.data, x)
              else Logical(c, st, x)
  {
    hide Names, IndexOf, Added, Looked, Stored;
    var lines := if net.loaded then Stored(c, st.data, id) else [];
    AddedLaw(st.live, c.slots, StringKey(id), lines, StringKey(x));
    if |st.live| == c.slots {
      var victim := st.live[|st.live| - 1];
      StoredSaved(c, st.data, victim, net.save.Landed(), x);
      LookedAt(st.live, |st.live| - 1);
      LookedByName(st.live, victim.key, StringKey(Sprint(victim.key)));
    }
  }

  /** `tryRun` changes no history exactly when the load and the eviction's save lose nothing. */
  lemma EnsureLiveExact(c: Config, st: State, id: string, net: Net)
    requires Sound(c) && DistinctKeys(c) && Inv(c, st) && id in c.users
    ensures Meaning(c, EnsureLive(c, st, id, net)) == Meaning(c, st) <==> AccessSafe(c, st, id, net)
  {
    hide Names, IndexOf, Added, Looked, Stored, Logical;
    if id !in Names(st.live) {
      var r := EnsureLive(c, st, id, net);
      forall x | x in c.users
        ensures Logical(c, r, x) ==
          if x == id then (if net.loaded then Stored(c, st.data, id) else [])
          else if |st.live| == c.slots && Sprint(st.live[|st.live| - 1].key) == x && !net.save.Landed()
            then Stored(c, st.data, x)
          else Logical(c, st, x)
      {
        EnsureLiveLogical(c, st, id, net, x);
      }
      LogicalAbsent(c, st, id);
      assert Meaning(c, r)[id] == Logical(c, r, id) && Meaning(c, st)[id] == Stored(c, st.data, id);
      if |st.live| == c.slots {
        var victim := st.live[|st.live| - 1];
        LogicalLive(c, st, |st.live| - 1);
        assert Meaning(c, st)[Sprint(victim.key)] == victim.value;
        assert Meaning(c, r)[Sprint(victim.key)] == Logical(c, r, Sprint(victim.key));
      }
    }
  }

  lemma LogicalAbsent(c: Config, st: State, id: string)
    requires id !in Names(st.live)
    ensures Logical(c, st, id) == Stored(c, st.data, id)
  {
  }

  lemma LogicalLive(c: Config, st: State, i: nat)
    requires NoDup(Names(st.live)) && i < |st.live|
    ensures Logical(c, st, Sprint(st.live[i].key)) == st.live[i].value
    ensures Sprint(st.live[i].key) in Names(st.live)
  {
    LookedAt(st.live, i);
    LookedByName(st.live, st.live[i].key, StringKey(Sprint(st.live[i].key)));
    assert Names(st.live)[i] == Sprint(st.live[i].key);
  }

  lemma AccessInv(c: Config, st: State, id: string, net: Net)
    requires Sound(c) && Inv(c, st) && id in c.users
    ensures Inv(c, Access(c, st, id, net))
  {
    var made := EnsureLive(c, st, id, net);
    EnsureLiveInv(c, st, id, net);
    RefreshedLaw(made.live, c.slots, StringKey(id), StringKey(id));
    var live := Refreshed(made.live, StringKey(id));
    forall i | 0 <= i < |live|
      ensures live[i] in made.live
    {
    }
  }

  /** Moving to the front is invisible, so an access loses exactly what `tryRun` loses. */
  lemma AccessMeaning(c: Config, st: State, id: string, net: Net)
    requires Sound(c) && DistinctKeys(c) && Inv(c, st) && id in c.users
    ensures Meaning(c, Access(c, st, id, net)) == Meaning(c, EnsureLive(c, st, id, net))
    ensures Access(c, st, id, net).live[0].value == Logical(c, EnsureLive(c, st, id, net), id)
  {
    hide Names, IndexOf, Refreshed, Looked, Stored, EnsureLive;
    var made := EnsureLive(c, st, id, net);
    EnsureLiveInv(c, st, id, net);
    var r := Access(c, st, id, net);
    AccessInv(c, st, id, net);
    forall x | x in c.users
      ensures Logical(c, r, x) == Logical(c, made, x)
    {
      RefreshedLaw(made.live, c.slots, StringKey(id), StringKey(x));
    }
    LogicalLive(c, r, 0);
  }

  lemma AddLineMeaning(c: Config, st: State, id: string, s: string, net: Net)
    requires Sound(c) && DistinctKeys(c) && Inv(c, st) && id in c.users && AccessSafe(c, st, id, net)
    ensures Inv(c, AddLine(c, st, id, s, net))
    ensures Meaning(c, AddLine(c, st, id, s, net))
         == Meaning(c, st)[id := Record(Meaning(c, st)[id], c.capacity, s)]
  {
    hide Names, IndexOf, Looked, Stored, EnsureLive, Access, Record, AccessSafe;
    var a := Access(c, st, id, net);
    AccessInv(c, st, id, net);
    AccessMeaning(c, st, id, net);
    EnsureLiveExact(c, st, id, net);
    var lines := Record(a.live[0].value, c.capacity, s);
    RecordKeepsHistory(a.live[0].value, c.capacity, s);
    var r := AddLine(c, st, id, s, net);
    forall x | x in c.users
      ensures Logical(c, r, x) == if x == id then lines else Logical(c, a, x)
    {
      HeadLaw(a.live, lines, StringKey(x));
    }
    HeadLaw(a.live, lines, StringKey(id));
    assert Meaning(c, a)[id] == Logical(c, a, id);
    LogicalLive(c, a, 0);
  }

  lemma StopInv(c: Config, st: State, id: string, saved: bool)
    requires Sound(c) && Inv(c, st)
    ensures Inv(c, Stop(c, st, id, saved))
  {
    var k := IndexOf(st.live, id);
    if k < |st.live| {
      RemoveAtLaw(st.live, k, StringKey(id));
    }
  }

  /** Stopping changes no history exactly when its save loses nothing. */
  lemma StopExact(c: Config, st: State, id: string, saved: bool)
    requires Sound(c) && DistinctKeys(c) && Inv(c, st)
    ensures Meaning(c, Stop(c, st, id, saved)) == Meaning(c, st) <==> StopSafe(c, st, id, saved)
  {
    hide Names, Looked, Stored, RemoveAt;
    var k := IndexOf(st.live, id);
    if k < |st.live| {
      var r := Stop(c, st, id, saved);
      forall x | x in c.users
        ensures Logical(c, r, x) == if x != id then Logical(c, st, x)
                                    else if saved then st.live[k].value else Stored(c, st.data, id)
      {
        RemoveAtLaw(st.live, k, StringKey(x));
        StoredSaved(c, st.data, st.live[k], saved, x);
      }
      LogicalLive(c, st, k);
      assert Meaning(c, st)[id] == st.live[k].value && Meaning(c, r)[id] == Logical(c, r, id);
    }
  }

  /** A tick of a live recorder never shows: the live list takes precedence over the store. */
  lemma TickMeaning(c: Config, st: State, id: string, saved: bool)
    requires Sound(c) && DistinctKeys(c) && Inv(c, st)
    ensures Inv(c, Step(c, st, Tick(id, saved)).0)
    ensures Meaning(c, Step(c, st, Tick(id, saved)).0) == Meaning(c, st)
  {
    hide Names, Looked, Stored;
    var k := IndexOf(st.live, id);
    if k < |st.live| {
      var r := Step(c, st, Tick(id, saved)).0;
      forall x | x in c.users
        ensures Logical(c, r, x) == Logical(c, st, x)
      {
        StoredSaved(c, st.data, st.live[k], saved, x);
        LookedAt(st.live, k);
        LookedByName(st.live, st.live[k].key, StringKey(id));
      }
    }
  }

  /** It does bring the store up to date with that one history. */
  lemma TickSaves(c: Config, st: State, id: string, saved: bool, x: string)
    requires Sound(c) && DistinctKeys(c) && Inv(c, st) && x in c.users
    ensures Stored(c, Step(c, st, Tick(id, saved)).0.data, x) ==
      if saved && x == id && id in Names(st.live) then Logical(c, st, id) else Stored(c, st.data, x)
  {
    hide Names, Looked, Stored;
    var k := IndexOf(st.live, id);
    if k < |st.live| {
      StoredSaved(c, st.data, st.live[k], saved, x);
      LogicalLive(c, st, k);
    }
  }

  lemma LateTickLogical(c: Config, st: State, j: nat, saved: bool, x: string)
    requires Sound(c) && DistinctKeys(c) && Inv(c, st) && j < |st.stopped| && x in c.users
    ensures var z := st.stopped[j];
            Logical(c, Step(c, st, LateTick(j, saved)).0, x)
            == if x == Sprint(z.key) && saved && x !in Names(st.live) then z.value else Logical(c, st, x)
    ensures x !in Names(st.live) ==> Logical(c, st, x) == Stored(c, st.data, x)
  {
    hide Names, IndexOf, Stored;
    StoredSaved(c, st.data, st.stopped[j], saved, x);
  }

  /** A tick that fires after its recorder was stopped is invisible exactly under `LateTickSafe`. */
  lemma LateTickExact(c: Config, st: State, j: nat, saved: bool)
    requires Sound(c) && DistinctKeys(c) && Inv(c, st)
    ensures Inv(c, Step(c, st, LateTick(j, saved)).0)
    ensures Meaning(c, Step(c, st, LateTick(j, saved)).0) == Meaning(c, st) <==> LateTickSafe(c, st, j, saved)
  {
    hide Names, IndexOf, Stored, Logical, Looked, Filed, History, Saved;
    if j < |st.stopped| {
      var z, r := st.stopped[j], Step(c, st, LateTick(j, saved)).0;
      var id := Sprint(z.key);
      forall x | x in c.users
        ensures Logical(c, r, x) == if x == id && saved && x !in Names(st.live) then z.value else Logical(c, st, x)
      {
        LateTickLogical(c, st, j, saved, x);
      }
      LateTickLogical(c, st, j, saved, id);
      assert Meaning(c, r)[id] == Logical(c, r, id) && Meaning(c, st)[id] == Logical(c, st, id);
    }
  }

  // ----- Whole runs -----

  /** One step of the manager is one step of the plain map, and its answer is the same. */
  lemma StepSimulates(c: Config, st: State, e: Event)
    requires Sound(c) && DistinctKeys(c) && Inv(c, st) && UsersOnly(c, e) && Safe(c, st, e)
    ensures var (r, out) := Step(c, st, e);
            Inv(c, r) && (Meaning(c, r), out) == IdealStep(c, Meaning(c, st), e)
  {
    hide Names, IndexOf, Looked, Stored, Logical, Access, AddLine, Stop, Record, Inv, AccessSafe;
    match e {
      case Add(id, s, net) =>
        AddLineMeaning(c, st, id, s, net);
      case Find(id, q, net) =>
        if !(id == "" && q == "") {
          AccessInv(c, st, id, net);
          AccessMeaning(c, st, id, net);
          EnsureLiveExact(c, st, id, net);
          assert Meaning(c, EnsureLive(c, st, id, net))[id] == Logical(c, EnsureLive(c, st, id, net), id);
        }
      case StopOne(id, saved) =>
        StopInv(c, st, id, saved);
        StopExact(c, st, id, saved);
      case Tick(id, saved) =>
        TickMeaning(c, st, id, saved);
      case LateTick(j, saved) =>
        LateTickExact(c, st, j, saved);
    }
  }

  predicate SafeRun(c: Config, st: State, es: seq<Event>)
    requires Sound(c)
    decreases es
  {
    es == [] || (UsersOnly(c, es[0]) && Safe(c, st, es[0]) && SafeRun(c, Step(c, st, es[0]).0, es[1..]))
  }

  function IdealRun(c: Config, m: Ideal, es: seq<Event>): (r: Ideal)
    requires Sound(c) && m.Keys == c.users && forall e :: e in es ==> UsersOnly(c, e)
    ensures r.Keys == c.users
    decreases es
  {
    if es == [] then m else IdealRun(c, IdealStep(c, m, es[0]).0, es[1..])
  }

  function IdealOutputs(c: Config, m: Ideal, es: seq<Event>): seq<Output>
    requires Sound(c) && m.Keys == c.users && forall e :: e in es ==> UsersOnly(c, e)
    decreases es
  {
    if es == [] then []
    else [IdealStep(c, m, es[0]).1] + IdealOutputs(c, IdealStep(c, m, es[0]).0, es[1..])
  }

  lemma {:induction false} SafeRunUsers(c: Config, st: State, es: seq<Event>)
    requires Sound(c) && SafeRun(c, st, es)
    ensures forall e :: e in es ==> UsersOnly(c, e)
    decreases es
  {
    if es != [] {
      SafeRunUsers(c, Step(c, st, es[0]).0, es[1..]);
    }
  }

  /** Over any safe run the manager gives the plain map's answers and ends in the plain map's state. */
  lemma {:induction false} RunSimulates(c: Config, st: State, es: seq<Event>)
    requires Sound(c) && DistinctKeys(c) && Inv(c, st) && SafeRun(c, st, es)
    requires forall e :: e in es ==> UsersOnly(c, e)
    ensures Inv(c, Run(c, st, es))
    ensures Meaning(c, Run(c, st, es)) == IdealRun(c, Meaning(c, st), es)
    ensures Outputs(c, st, es) == IdealOutputs(c, Meaning(c, st), es)
    decreases es
  {
    hide Inv, Step, IdealStep, Safe, UsersOnly, Meaning;
    if es != [] {
      StepSimulates(c, st, es[0]);
      RunSimulates(c, Step(c, st, es[0]).0, es[1..]);
    }
  }

  function Fresh(data: Store): State {
    State([], [], data)
  }

  /** From an empty manager over any store, no safe run gives an answer the plain map would not. */
  ghost predicate Transparent(c: Config)
    requires Sound(c)
  {
    forall data, es :: SafeRun(c, Fresh(data), es) && (forall e :: e in es ==> UsersOnly(c, e)) ==>
      Outputs(c, Fresh(data), es) == IdealOutputs(c, Meaning(c, Fresh(data)), es)
  }

  lemma LeakAdd(c: Config, a: string)
    requires Sound(c)
    ensures var e := Add(a, "x", Net(true, Done));
            && Safe(c, Fresh(map[]), e)
            && Step(c, Fresh(map[]), e).0 == State([Entry(StringKey(a), ["x"])], [], map[])
  {
    hide Access, Stored;
    NothingStored(c, a);
    FirstAccess(c, [], map[], a, Net(true, Done));
    assert Record([], c.capacity, "x") == ["x"];
  }

  lemma LeakStop(c: Config, a: string)
    requires Sound(c)
    ensures var s1 := State([Entry(StringKey(a), ["x"])], [], map[]);
            && Safe(c, s1, StopOne(a, true))
            && Step(c, s1, StopOne(a, true)).0
               == State([], [Entry(StringKey(a), ["x"])], map[c.key(a) := ListBlob(["x"])])
  {
    hide Stored;
  }

  lemma LeakFind(c: Config, a: string, b: string, stopped: Live)
    requires Sound(c) && c.key(a) == c.key(b)
    ensures var s2, e := State([], stopped, map[c.key(a) := ListBlob(["x"])]), Find(b, "x", Net(true, Done));
            Safe(c, s2, e) && Step(c, s2, e).1 == Answered(["x"])
  {
    hide Access, Stored;
    SavedLine(c, a, b, "x");
    FirstAccess(c, stopped, map[c.key(a) := ListBlob(["x"])], b, Net(true, Done));
    assert OccursAt("x", "x", 0);
  }

  /** Add, stop and a search for another user's key: the search finds what was added. */
  lemma LeakSteps(c: Config, a: string, b: string)
    requires Sound(c) && c.key(a) == c.key(b)
    ensures var ok := Net(true, Done);
            var s1 := Step(c, Fresh(map[]), Add(a, "x", ok)).0;
            var s2 := Step(c, s1, StopOne(a, true)).0;
            && Safe(c, Fresh(map[]), Add(a, "x", ok)) && Safe(c, s1, StopOne(a, true)) && Safe(c, s2, Find(b, "x", ok))
            && Step(c, s2, Find(b, "x", ok)).1 == Answered(["x"])
  {
    hide Step, Safe;
    LeakAdd(c, a);
    LeakStop(c, a);
    LeakFind(c, a, b, [Entry(StringKey(a), ["x"])]);
  }

  lemma SavedLine(c: Config, a: string, b: string, s: string)
    requires Sound(c) && c.key(a) == c.key(b) && s != ""
    ensures Stored(c, map[c.key(a) := ListBlob([s])], b) == [s]
  {
    RoundTrip([s], c.capacity);
  }

  /** The first access of an empty manager leaves one live recorder, just loaded. */
  lemma FirstAccess(c: Config, stopped: Live, data: Store, id: string, net: Net)
    requires Sound(c)
    ensures Access(c, State([], stopped, data), id, net)
         == State([Entry(StringKey(id), if net.loaded then Stored(c, data, id) else [])], stopped, data)
  {
    var st := State([], stopped, data);
    var made := EnsureLive(c, st, id, net);
    assert made.live == [Entry(StringKey(id), if net.loaded then Stored(c, data, id) else [])];
    assert IndexOf(made.live, id) == 0;
  }

  lemma ThreeOutputs(c: Config, st: State, e0: Event, e1: Event, e2: Event)
    requires Sound(c)
    ensures var s2 := Step(c, Step(c, st, e0).0, e1).0;
            Outputs(c, st, [e0, e1, e2]) == [Step(c, st, e0).1, Step(c, Step(c, st, e0).0, e1).1, Step(c, s2, e2).1]
  {
    hide Step;
    var s1 := Step(c, st, e0).0;
    var s2 := Step(c, s1, e1).0;
    assert [e0, e1, e2][1..] == [e1, e2] && [e1, e2][1..] == [e2] && [e2][1..] == [];
    assert Outputs(c, s2, [e2]) == [Step(c, s2, e2).1];
    assert Outputs(c, s1, [e1, e2]) == [Step(c, s1, e1).1, Step(c, s2, e2).1];
  }

  /** Two users whose histories share a key see each other's commands. */
  lemma SharedKeyLeaks(c: Config, a: string, b: string)
    requires Sound(c) && a in c.users && b in c.users && a != b && c.key(a) == c.key(b)
    ensures !Transparent(c)
  {
    hide Step, Safe, Stored;
    var ok := Net(true, Done);
    var e0, e1, e2 := Add(a, "x", ok), StopOne(a, true), Find(b, "x", ok);
    var s0, es := Fresh(map[]), [e0, e1, e2];
    LeakSteps(c, a, b);
    var s2 := Step(c, Step(c, s0, e0).0, e1).0;
    assert es[1..] == [e1, e2] && es[1..][1..] == [e2] && es[1..][1..][1..] == [];
    assert SafeRun(c, s2, [e2]);
    ThreeOutputs(c, s0, e0, e1, e2);
    var m0 := Meaning(c, s0);
    NothingStored(c, b);
    var m1 := IdealStep(c, m0, e0).0;
    assert IdealOutputs(c, m1, [e2]) == [Answered([])];
    assert IdealOutputs(c, m1, [e1, e2])[1] == Answered([]);
    assert IdealOutputs(c, m0, es)[2] != Outputs(c, s0, es)[2];
    assert SafeRun(c, Step(c, s0, e0).0, [e1, e2]);
    assert SafeRun(c, s0, es);
  }

  lemma NothingStored(c: Config, id: string)
    ensures Stored(c, map[], id) == []
  {
  }

  /** Transparency holds exactly when different users are stored under different keys. */
  lemma TransparentIffDistinctKeys(c: Config)
    requires Sound(c)
    ensures Transparent(c) <==> DistinctKeys(c)
  {
    if DistinctKeys(c) {
      forall data, es | SafeRun(c, Fresh(data), es) && (forall e :: e in es ==> UsersOnly(c, e))
        ensures Outputs(c, Fresh(data), es) == IdealOutputs(c, Meaning(c, Fresh(data)), es)
      {
        RunSimulates(c, Fresh(data), es);
      }
    } else {
      var a, b :| a in c.users && b in c.users && c.key(a) == c.key(b) && a != b;
      SharedKeyLeaks(c, a, b);
    }
  }

  // ----- What a history is, in terms of the run alone -----

  /** The commands a run adds for one user, oldest first. */
  function LinesFor(es: seq<Event>, id: string): seq<string> {
    if es == [] then []
    else (if es[0].Add? && es[0].id == id then [es[0].s] else []) + LinesFor(es[1..], id)
  }

  lemma {:induction false} IdealRunIsRecordAll(c: Config, m: Ideal, es: seq<Event>, id: string)
    requires Sound(c) && m.Keys == c.users && id in c.users && forall e :: e in es ==> UsersOnly(c, e)
    ensures IdealRun(c, m, es)[id] == RecordAll(m[id], c.capacity, LinesFor(es, id))
    decreases es
  {
    hide Record;
    if es != [] {
      var m1 := IdealStep(c, m, es[0]).0;
      IdealRunIsRecordAll(c, m1, es[1..], id);
      if es[0].Add? && es[0].id == id {
        RecordAllConcat(m[id], c.capacity, [es[0].s], LinesFor(es[1..], id));
        assert [es[0].s][..0] == [];
        assert RecordAll(m[id], c.capacity, [es[0].s]) == m1[id];
      } else {
        assert LinesFor(es, id) == LinesFor(es[1..], id);
      }
    }
  }

  /**
   * After any safe run a user's history is the newest distinct commands of that user, then what
   * was stored at the start, cut to the recorder's capacity, however often it was evicted between.
   */
  lemma HistoryOfRun(c: Config, data: Store, es: seq<Event>, id: string)
    requires Sound(c) && DistinctKeys(c) && id in c.users && SafeRun(c, Fresh(data), es)
    ensures Logical(c, Run(c, Fresh(data), es), id)
         == Take(NewestFirst(Stored(c, data, id), LinesFor(es, id)), c.capacity)
  {
    hide Stored, SafeRun, NewestFirst, Run;
    SafeRunUsers(c, Fresh(data), es);
    RunSimulates(c, Fresh(data), es);
    var m := Meaning(c, Fresh(data));
    assert Meaning(c, Run(c, Fresh(data), es))[id] == Logical(c, Run(c, Fresh(data), es), id);
    assert m[id] == Stored(c, data, id);
    IdealRunIsRecordAll(c, m, es, id);
    StackTheorem(m[id], c.capacity, LinesFor(es, id));
  }
}
