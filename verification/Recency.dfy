/** Which recorders stay live: recency of access decides, whatever is stopped in between. */
module Recency {
  import opened Sequences
  import opened Lru
  import opened LruLaws
  import opened Managers
  import opened Storage
  import opened Transparency

  /** The user whose recorder an event reaches. */
  function Touches(e: Event): Option<string> {
    match e
    case Add(id, _, _) => Some(id)
    case Find(id, q, _) => if id == "" && q == "" then None else Some(id)
    case _ => None
  }

  function TouchedOthers(es: seq<Event>, id: string): set<string> {
    if es == [] then {}
    else TouchedOthers(es[1..], id)
         + (if Touches(es[0]).Some? && Touches(es[0]).value != id then {Touches(es[0]).value} else {})
  }

  predicate NeverStopped(es: seq<Event>, id: string) {
    forall i :: 0 <= i < |es| && es[i].StopOne? ==> es[i].id != id
  }

  /** The names of the live recorders after a touch: the name, then the others, cut at the slots. */
  function TouchNames(names: seq<string>, slots: nat, id: string): seq<string>
    requires slots >= 1
  {
    Take([id] + Without(names, id), slots)
  }

  lemma MadeLive(c: Config, st: State, id: string, net: Net)
    requires Sound(c) && Filed(st.live, c.slots) && id !in Names(st.live)
    ensures var lines := if net.loaded then Stored(c, st.data, id) else [];
            EnsureLive(c, st, id, net).live == [Entry(StringKey(id), lines)] + Take(st.live, c.slots - 1)
  {
    hide Stored;
  }

  lemma NamesTake(live: Live, n: nat)
    ensures Names(Take(live, n)) == Take(Names(live), n)
  {
  }

  lemma FrontIndex(live: Live, id: string)
    requires live != [] && live[0].key == StringKey(id)
    ensures IndexOf(live, id) == 0
  {
  }

  lemma MissNames(c: Config, st: State, id: string, net: Net)
    requires Sound(c) && Filed(st.live, c.slots) && id !in Names(st.live)
    ensures var made := EnsureLive(c, st, id, net);
            Names(made.live) == TouchNames(Names(st.live), c.slots, id) && IndexOf(made.live, id) == 0
  {
    hide IndexOf, Stored, EnsureLive, Filed;
    WithoutAbsent(Names(st.live), id);
    var lines := if net.loaded then Stored(c, st.data, id) else [];
    MadeLive(c, st, id, net);
    NamesPush(Take(st.live, c.slots - 1), Entry(StringKey(id), lines));
    NamesTake(st.live, c.slots - 1);
    FrontIndex(EnsureLive(c, st, id, net).live, id);
  }

  lemma AccessNames(c: Config, st: State, id: string, net: Net)
    requires Sound(c) && Filed(st.live, c.slots)
    ensures Names(Access(c, st, id, net).live) == TouchNames(Names(st.live), c.slots, id)
  {
    hide IndexOf, Names, EnsureLive;
    var k := IndexOf(st.live, id);
    if id in Names(st.live) {
      LiveIsKept(c, st, id, net);
      NamesToFront(st.live, k);
      WithoutAt(Names(st.live), k);
      assert Names(st.live)[k] == id;
    } else {
      MissNames(c, st, id, net);
      assert ToFront(EnsureLive(c, st, id, net).live, 0) == EnsureLive(c, st, id, net).live;
    }
  }

  /** What any event does to the names of the live recorders. */
  lemma StepNames(c: Config, st: State, e: Event)
    requires Sound(c) && Filed(st.live, c.slots)
    ensures Filed(Step(c, st, e).0.live, c.slots)
    ensures Names(Step(c, st, e).0.live) ==
      if Touches(e).Some? then TouchNames(Names(st.live), c.slots, Touches(e).value)
      else if e.StopOne? then Without(Names(st.live), e.id)
      else Names(st.live)
  {
    hide IndexOf, TouchNames, Access;
    var names := Names(st.live);
    if Touches(e).Some? {
      var id := Touches(e).value;
      AccessNames(c, st, id, e.net);
      TouchNamesBounded(names, c.slots, id);
      var live := Access(c, st, id, e.net).live;
      if e.Add? {
        HeadLaw(live, Histories.Record(live[0].value, c.capacity, e.s), StringKey(id));
      }
    } else if e.StopOne? {
      var k := IndexOf(st.live, e.id);
      if k < |st.live| {
        NamesRemoveAt(st.live, k);
        WithoutAt(names, k);
        NoDupRemoveAt(names, k);
      } else {
        WithoutAbsent(names, e.id);
      }
    }
  }

  lemma TouchNamesBounded(names: seq<string>, slots: nat, id: string)
    requires slots >= 1 && NoDup(names)
    ensures NoDup(TouchNames(names, slots, id)) && |TouchNames(names, slots, id)| <= slots
  {
    WithoutNoDup(names, id);
  }

  // ----- A touched recorder stays while fewer than `slots` others are touched -----

  /** Everything listed before `id` is in `others`. */
  ghost predicate Ahead(names: seq<string>, id: string, others: set<string>) {
    exists p :: 0 <= p < |names| && names[p] == id && forall i :: 0 <= i < p ==> names[i] in others
  }

  lemma TouchOther(names: seq<string>, slots: nat, id: string, y: string, others: set<string>)
    requires slots >= 1 && NoDup(names) && Ahead(names, id, others) && y != id && |others + {y}| < slots
    ensures Ahead(TouchNames(names, slots, y), id, others + {y})
  {
    var p :| 0 <= p < |names| && names[p] == id && forall i :: 0 <= i < p ==> names[i] in others;
    var r := [y] + Without(names, y);
    WithoutNoDup(names, y);
    var q := WithoutPosition(names, y, p);
    assert r[q + 1] == id && forall i :: 0 <= i < q + 1 ==> r[i] in others + {y};
    assert NoDup(r[..q + 1]);
    NoDupSize(r[..q + 1], others + {y});
  }

  /** Where an element lands when another one is dropped: what stands before it stood before it already. */
  lemma {:induction false} WithoutPosition(s: seq<string>, y: string, p: nat) returns (q: nat)
    requires p < |s| && s[p] != y
    ensures q < |Without(s, y)| && Without(s, y)[q] == s[p]
    ensures forall i :: 0 <= i < q ==> Without(s, y)[i] in s[..p]
  {
    if p == 0 {
      q := 0;
    } else {
      var q' := WithoutPosition(s[1..], y, p - 1);
      q := if s[0] == y then q' else q' + 1;
      assert s[..p] == [s[0]] + s[1..][..p - 1];
    }
  }

  lemma RemoveOther(names: seq<string>, id: string, y: string, others: set<string>)
    requires Ahead(names, id, others) && y != id
    ensures Ahead(Without(names, y), id, others)
  {
    var p :| 0 <= p < |names| && names[p] == id && forall i :: 0 <= i < p ==> names[i] in others;
    var q := WithoutPosition(names, y, p);
    var r := Without(names, y);
    forall i | 0 <= i < q
      ensures r[i] in others
    {
      assert r[i] in names[..p];
    }
  }

  lemma {:induction false} StaysLiveFrom(c: Config, st: State, es: seq<Event>, id: string, others: set<string>)
    requires Sound(c) && Filed(st.live, c.slots) && Ahead(Names(st.live), id, others)
    requires NeverStopped(es, id) && |others + TouchedOthers(es, id)| < c.slots
    ensures id in Names(Run(c, st, es).live)
    decreases es
  {
    hide Step, Filed, Names, TouchNames, Ahead;
    var names := Names(st.live);
    if es == [] {
      AheadIsLive(names, id, others);
    } else {
      var e, r := es[0], Step(c, st, es[0]).0;
      var rest := es[1..];
      StepNames(c, st, e);
      FiledNoDup(st.live, c.slots);
      var more := if Touches(e).Some? && Touches(e).value != id then {Touches(e).value} else {};
      assert (others + more) + TouchedOthers(rest, id) == others + TouchedOthers(es, id);
      SubsetSize(others + more, others + TouchedOthers(es, id));
      if Touches(e).Some? {
        if Touches(e).value == id {
          TouchSelf(names, c.slots, id, others);
        } else {
          TouchOther(names, c.slots, id, Touches(e).value, others);
        }
      } else if e.StopOne? {
        RemoveOther(names, id, e.id, others);
      }
      assert others + {} == others;
      StaysLiveFrom(c, r, rest, id, others + more);
    }
  }

  lemma AheadIsLive(names: seq<string>, id: string, others: set<string>)
    requires Ahead(names, id, others)
    ensures id in names
  {
  }

  lemma FiledNoDup(live: Live, slots: nat)
    requires Filed(live, slots)
    ensures NoDup(Names(live))
  {
  }

  lemma TouchSelf(names: seq<string>, slots: nat, id: string, others: set<string>)
    requires slots >= 1
    ensures Ahead(TouchNames(names, slots, id), id, others)
  {
    assert TouchNames(names, slots, id)[0] == id;
  }

  lemma {:induction false} SubsetSize(a: set<string>, b: set<string>)
    requires a <= b
    ensures |a| <= |b|
  {
    if a != {} {
      var x :| x in a;
      SubsetSize(a - {x}, b - {x});
    }
  }

  /**
   * A recorder touched by an add or a search, and not stopped since, is still live as long as
   * fewer than `slots` other recorders were touched.
   */
  lemma StaysLive(c: Config, st: State, touch: Event, es: seq<Event>, id: string)
    requires Sound(c) && Filed(st.live, c.slots) && Touches(touch) == Some(id)
    requires NeverStopped(es, id) && |TouchedOthers(es, id)| < c.slots
    ensures id in Names(Run(c, Step(c, st, touch).0, es).live)
  {
    hide Step, Run;
    StepNames(c, st, touch);
    TouchSelf(Names(st.live), c.slots, id, {});
    assert {} + TouchedOthers(es, id) == TouchedOthers(es, id);
    StaysLiveFrom(c, Step(c, st, touch).0, es, id, {});
  }

  // ----- Evictions take the recorder whose last touch is oldest -----

  /** The number of the last event that touched `id`, counted from one; zero if none did. */
  function LastTouch(es: seq<Event>, id: string): (n: nat)
    ensures n <= |es|
  {
    if es == [] then 0
    else if Touches(es[|es| - 1]) == Some(id) then |es|
    else LastTouch(es[..|es| - 1], id)
  }

  ghost predicate ByLastTouch(names: seq<string>, es: seq<Event>) {
    && (forall i :: 0 <= i < |names| ==> LastTouch(es, names[i]) > 0)
    && (forall i, j :: 0 <= i < j < |names| ==> LastTouch(es, names[i]) > LastTouch(es, names[j]))
  }

  lemma {:induction false} RunSnoc(c: Config, st: State, es: seq<Event>, e: Event)
    requires Sound(c)
    ensures Run(c, st, es + [e]) == Step(c, Run(c, st, es), e).0
    decreases es
  {
    hide Step;
    if es == [] {
      assert es + [e] == [e] && [e][1..] == [];
    } else {
      assert (es + [e])[1..] == es[1..] + [e];
      RunSnoc(c, Step(c, st, es[0]).0, es[1..], e);
    }
  }

  lemma {:induction false} WithoutByLastTouch(names: seq<string>, es: seq<Event>, id: string)
    requires ByLastTouch(names, es)
    ensures ByLastTouch(Without(names, id), es)
  {
    hide LastTouch;
    if names != [] {
      TailByLastTouch(names, es);
      WithoutByLastTouch(names[1..], es, id);
      ConsByLastTouch(names[0], Without(names[1..], id), es);
    }
  }

  lemma TailByLastTouch(names: seq<string>, es: seq<Event>)
    requires ByLastTouch(names, es) && names != []
    ensures ByLastTouch(names[1..], es) && LastTouch(es, names[0]) > 0
    ensures forall y :: y in names[1..] ==> LastTouch(es, names[0]) > LastTouch(es, y)
  {
    hide LastTouch;
  }

  lemma ConsByLastTouch(x: string, names: seq<string>, es: seq<Event>)
    requires ByLastTouch(names, es) && LastTouch(es, x) > 0
    requires forall y :: y in names ==> LastTouch(es, x) > LastTouch(es, y)
    ensures ByLastTouch([x] + names, es)
  {
    hide LastTouch;
  }

  lemma TouchByLastTouch(names: seq<string>, slots: nat, es: seq<Event>, e: Event)
    requires slots >= 1 && ByLastTouch(names, es) && Touches(e).Some?
    ensures ByLastTouch(TouchNames(names, slots, Touches(e).value), es + [e])
  {
    var id := Touches(e).value;
    WithoutByLastTouch(names, es, id);
    assert (es + [e])[..|es|] == es;
    var r := [id] + Without(names, id);
    assert LastTouch(es + [e], id) == |es| + 1;
    forall i | 1 <= i < |r|
      ensures r[i] == Without(names, id)[i - 1] && LastTouch(es + [e], r[i]) == LastTouch(es, r[i])
    {
    }
  }

  lemma SameByLastTouch(names: seq<string>, es: seq<Event>, e: Event)
    requires ByLastTouch(names, es) && Touches(e) == None
    ensures ByLastTouch(names, es + [e])
  {
    assert (es + [e])[..|es|] == es;
  }

  /** The live recorders are always listed by last touch, newest first, so the one evicted is the oldest. */
  lemma {:induction false} LiveByLastTouch(c: Config, data: Store, es: seq<Event>)
    requires Sound(c)
    ensures Filed(Run(c, Fresh(data), es).live, c.slots)
    ensures ByLastTouch(Names(Run(c, Fresh(data), es).live), es)
  {
    hide Step, Names, TouchNames, ByLastTouch;
    if es == [] {
      NothingByLastTouch(c, data);
    } else {
      var before, e := es[..|es| - 1], es[|es| - 1];
      assert es == before + [e];
      LiveByLastTouch(c, data, before);
      RunSnoc(c, Fresh(data), before, e);
      var st := Run(c, Fresh(data), before);
      StepNames(c, st, e);
      if Touches(e).Some? {
        TouchByLastTouch(Names(st.live), c.slots, before, e);
      } else {
        if e.StopOne? {
          WithoutByLastTouch(Names(st.live), before, e.id);
        }
        SameByLastTouch(Names(Step(c, st, e).0.live), before, e);
      }
    }
  }

  lemma NothingByLastTouch(c: Config, data: Store)
    requires Sound(c)
    ensures Filed(Fresh(data).live, c.slots) && ByLastTouch(Names(Fresh(data).live), [])
  {
  }

  /** Each eviction takes one recorder, the one last touched longest ago, and stops it once. */
  lemma EvictsOldest(c: Config, data: Store, es: seq<Event>, e: Event)
    requires Sound(c) && Touches(e).Some?
    ensures var st := Run(c, Fresh(data), es);
            var r := Step(c, st, e).0;
            var id := Touches(e).value;
            if id in Names(st.live) || |st.live| < c.slots then
              r.stopped == st.stopped && forall x :: x in Names(st.live) ==> x in Names(r.live)
            else
              && |st.live| == c.slots
              && r.stopped == st.stopped + [st.live[|st.live| - 1]]
              && var victim := Sprint(st.live[|st.live| - 1].key);
                 && victim !in Names(r.live)
                 && forall x :: x in Names(st.live) && x != victim ==>
                      x in Names(r.live) && LastTouch(es, victim) < LastTouch(es, x)
  {
    var st := Run(c, Fresh(data), es);
    LiveByLastTouch(c, data, es);
    EvictionStep(c, st, e, es);
  }

  lemma EvictionStep(c: Config, st: State, e: Event, es: seq<Event>)
    requires Sound(c) && Touches(e).Some? && Filed(st.live, c.slots) && ByLastTouch(Names(st.live), es)
    ensures var r := Step(c, st, e).0;
            var id := Touches(e).value;
            if id in Names(st.live) || |st.live| < c.slots then
              r.stopped == st.stopped && forall x :: x in Names(st.live) ==> x in Names(r.live)
            else
              && |st.live| == c.slots
              && r.stopped == st.stopped + [st.live[|st.live| - 1]]
              && var victim := Sprint(st.live[|st.live| - 1].key);
                 && victim !in Names(r.live)
                 && forall x :: x in Names(st.live) && x != victim ==>
                      x in Names(r.live) && LastTouch(es, victim) < LastTouch(es, x)
  {
    hide IndexOf, LastTouch, Names, TouchNames, Stored, Refreshed, Added, Without;
    var r, id, names := Step(c, st, e).0, Touches(e).value, Names(st.live);
    StepNames(c, st, e);
    TouchedMembers(names, c.slots, id, es);
  }

  /** Touching a name forgets another one only when it is new and all slots are taken: then the last. */
  lemma TouchedMembers(names: seq<string>, slots: nat, id: string, es: seq<Event>)
    requires slots >= 1 && NoDup(names) && |names| <= slots && ByLastTouch(names, es)
    ensures id in names || |names| < slots ==> forall x :: x in names ==> x in TouchNames(names, slots, id)
    ensures id !in names && |names| == slots ==>
      var victim := names[|names| - 1];
      && victim !in TouchNames(names, slots, id)
      && forall x :: x in names && x != victim ==>
           x in TouchNames(names, slots, id) && LastTouch(es, victim) < LastTouch(es, x)
  {
    hide LastTouch;
    if id in names {
      var k :| 0 <= k < |names| && names[k] == id;
      WithoutAt(names, k);
      assert TouchNames(names, slots, id) == [id] + Without(names, id);
    } else {
      WithoutAbsent(names, id);
      if |names| == slots {
        var victim, kept := names[|names| - 1], names[..|names| - 1];
        assert TouchNames(names, slots, id) == [id] + kept;
        assert victim !in kept;
        forall x | x in names && x != victim
          ensures x in kept && LastTouch(es, victim) < LastTouch(es, x)
        {
          var i :| 0 <= i < |names| && names[i] == x;
          assert kept[i] == x;
        }
      } else {
        assert TouchNames(names, slots, id) == [id] + names;
      }
    }
  }
}
