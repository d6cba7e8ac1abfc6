/** The leader election as a protocol: every elector holds one lease and keeps trying to create one key. */
module Election {
  import opened LeasedStore

  /** An elector grants its lease once, at the start of `Elect`; it has returned when `Elect` gave an error. */
  datatype Elector = NotStarted | Running(lease: nat) | Returned(lease: nat)

  /** `deadline` is when the store may end a lease that is not kept alive until then. */
  datatype State = State(etcd: Etcd, now: nat, deadline: map<nat, nat>, electors: map<string, Elector>)

  /** The elected key and the time a lease lasts. */
  datatype Config = Config(key: string, ttl: nat)

  datatype Action =
    | Start(id: string)                     // the grant
    | KeepAlive(id: string)                 // KeepAliveOnce, its error ignored
    | Put(id: string)                       // the transaction creates the key
    | Lose(id: string)                      // the key exists; try again
    | Fail(id: string, applied: bool)       // the transaction reports an error, applied or not; Elect returns
    | Clock
    | Expire(lease: nat)

  predicate Enabled(c: Config, s: State, a: Action) {
    match a
    case Clock => true
    case Expire(lease) => lease in s.etcd.alive && lease in s.deadline && s.deadline[lease] <= s.now
    case Start(id) => id in s.electors && s.electors[id].NotStarted?
    case KeepAlive(id) => id in s.electors && s.electors[id].Running?
    case Put(id) => id in s.electors && s.electors[id].Running? && CanCreate(s.etcd, c.key, s.electors[id].lease)
    case Lose(id) => id in s.electors && s.electors[id].Running? && c.key in s.etcd.kv
    case Fail(id, _) => id in s.electors && s.electors[id].Running?
  }

  function Next(c: Config, s: State, a: Action): State
    requires Enabled(c, s, a)
  {
    match a
    case Clock => s.(now := s.now + 1)
    case Expire(lease) => s.(etcd := End(s.etcd, lease))
    case Start(id) =>
      s.(etcd := Grant(s.etcd), deadline := s.deadline[s.etcd.next := s.now + c.ttl],
         electors := s.electors[id := Running(s.etcd.next)])
    case KeepAlive(id) =>
      var l := s.electors[id].lease;
      if l in s.etcd.alive then s.(deadline := s.deadline[l := s.now + c.ttl]) else s
    case Put(id) => s.(etcd := Create(s.etcd, c.key, id, s.electors[id].lease))
    case Lose(id) => s
    case Fail(id, applied) =>
      var l := s.electors[id].lease;
      s.(etcd := if applied then Create(s.etcd, c.key, id, l) else s.etcd, electors := s.electors[id := Returned(l)])
  }

  predicate Started(s: State, id: string) {
    id in s.electors && !s.electors[id].NotStarted?
  }

  function LeaseOf(s: State, id: string): nat
    requires Started(s, id)
  {
    s.electors[id].lease
  }

  /** What `IsLeader` reads off the key. */
  predicate IsLeader(c: Config, s: State, id: string) {
    c.key in s.etcd.kv && s.etcd.kv[c.key].value == id
  }

  ghost predicate Inv(c: Config, s: State) {
    && Sound(s.etcd)
    && (c.key in s.etcd.kv ==>
          var held := s.etcd.kv[c.key];
          Started(s, held.value) && LeaseOf(s, held.value) == held.lease)
    && (forall id :: Started(s, id) ==> LeaseOf(s, id) < s.etcd.next)
    && (forall a, b :: Started(s, a) && Started(s, b) && LeaseOf(s, a) == LeaseOf(s, b) ==> a == b)
    && (forall l :: l in s.deadline ==> l < s.etcd.next)
  }

  /** Before anybody starts: no lease has a deadline yet, and the key does not exist. */
  ghost predicate Initial(c: Config, s: State) {
    && Sound(s.etcd) && c.key !in s.etcd.kv && s.deadline == map[]
    && forall id :: id in s.electors ==> s.electors[id].NotStarted?
  }

  lemma StartKeepsInv(c: Config, s: State, a: Action)
    requires Inv(c, s) && Enabled(c, s, a) && a.Start?
    ensures Inv(c, Next(c, s, a))
    ensures forall id :: Started(s, id) ==> Started(Next(c, s, a), id) && LeaseOf(Next(c, s, a), id) == LeaseOf(s, id)
    ensures s.etcd.next <= Next(c, s, a).etcd.next
    ensures forall l :: l < s.etcd.next && l !in s.etcd.alive ==> l !in Next(c, s, a).etcd.alive
  {
    assert forall id :: Started(Next(c, s, a), id) ==> id == a.id || Started(s, id);
  }

  lemma OthersKeepInv(c: Config, s: State, a: Action)
    requires Inv(c, s) && Enabled(c, s, a) && !a.Start?
    ensures Inv(c, Next(c, s, a))
    ensures forall id :: Started(s, id) ==> Started(Next(c, s, a), id) && LeaseOf(Next(c, s, a), id) == LeaseOf(s, id)
    ensures s.etcd.next <= Next(c, s, a).etcd.next
    ensures forall l :: l < s.etcd.next && l !in s.etcd.alive ==> l !in Next(c, s, a).etcd.alive
  {
    var r := Next(c, s, a);
    assert forall id :: Started(r, id) ==> Started(s, id) && LeaseOf(r, id) == LeaseOf(s, id);
    if a.Put? || a.Fail? {
      assert Started(s, a.id);
    }
  }

  lemma StepKeepsInv(c: Config, s: State, a: Action)
    requires Inv(c, s) && Enabled(c, s, a)
    ensures Inv(c, Next(c, s, a))
    ensures forall id :: Started(s, id) ==> Started(Next(c, s, a), id) && LeaseOf(Next(c, s, a), id) == LeaseOf(s, id)
    ensures s.etcd.next <= Next(c, s, a).etcd.next
    ensures forall l :: l < s.etcd.next && l !in s.etcd.alive ==> l !in Next(c, s, a).etcd.alive
  {
    hide Inv, Next, Started, LeaseOf;
    if a.Start? {
      StartKeepsInv(c, s, a);
    } else {
      OthersKeepInv(c, s, a);
    }
  }

  ghost predicate PossibleRun(c: Config, s: State, run: seq<Action>)
    decreases run
  {
    run == [] || (Enabled(c, s, run[0]) && PossibleRun(c, Next(c, s, run[0]), run[1..]))
  }

  function After(c: Config, s: State, run: seq<Action>): State
    requires PossibleRun(c, s, run)
    decreases run
  {
    if run == [] then s else After(c, Next(c, s, run[0]), run[1..])
  }

  /** Runs keep the invariant; leases are never exchanged and never come back. */
  lemma {:induction false} RunKeeps(c: Config, s: State, run: seq<Action>)
    requires Inv(c, s) && PossibleRun(c, s, run)
    ensures Inv(c, After(c, s, run))
    ensures forall id :: Started(s, id) ==>
              Started(After(c, s, run), id) && LeaseOf(After(c, s, run), id) == LeaseOf(s, id)
    ensures forall l :: l < s.etcd.next && l !in s.etcd.alive ==> l !in After(c, s, run).etcd.alive
    decreases run
  {
    hide Inv, Enabled, Next;
    if run != [] {
      StepKeepsInv(c, s, run[0]);
      RunKeeps(c, Next(c, s, run[0]), run[1..]);
    }
  }

  /** One step away from a leader whose lease is still alive, the leader is the same. */
  lemma LeaderStep(c: Config, s: State, a: Action, id: string)
    requires Inv(c, s) && Enabled(c, s, a) && IsLeader(c, s, id)
    ensures Started(s, id)
    ensures LeaseOf(s, id) in Next(c, s, a).etcd.alive ==> IsLeader(c, Next(c, s, a), id)
  {
  }

  lemma LeaseUsed(c: Config, s: State, id: string)
    requires Inv(c, s) && Started(s, id)
    ensures LeaseOf(s, id) < s.etcd.next
  {
  }

  /** Whoever leads keeps leading for as long as its lease lives. */
  lemma {:induction false} LeaderStays(c: Config, s: State, run: seq<Action>, id: string)
    requires Inv(c, s) && PossibleRun(c, s, run) && IsLeader(c, s, id)
    ensures Started(s, id)
    ensures LeaseOf(s, id) in After(c, s, run).etcd.alive ==> IsLeader(c, After(c, s, run), id)
    decreases run
  {
    hide Inv, Enabled, Next, IsLeader;
    if run == [] {
      LeaderStarted(c, s, id);
    } else {
      var r := Next(c, s, run[0]);
      LeaderStep(c, s, run[0], id);
      StepKeepsInv(c, s, run[0]);
      LeaseUsed(c, r, id);
      if LeaseOf(s, id) in r.etcd.alive {
        LeaderStays(c, r, run[1..], id);
      } else {
        RunKeeps(c, r, run[1..]);
      }
    }
  }

  lemma LeaderStarted(c: Config, s: State, id: string)
    requires Inv(c, s) && IsLeader(c, s, id)
    ensures Started(s, id) && LeaseOf(s, id) in s.etcd.alive
  {
  }

  /** An elector whose lease has ended, whether its `Elect` has returned or not, never leads again. */
  lemma NeverAgain(c: Config, s: State, run: seq<Action>, id: string)
    requires Inv(c, s) && PossibleRun(c, s, run) && Started(s, id) && LeaseOf(s, id) !in s.etcd.alive
    ensures !IsLeader(c, After(c, s, run), id)
  {
    hide Inv, Enabled, Next, IsLeader;
    RunKeeps(c, s, run);
    LeaseUsed(c, s, id);
    if IsLeader(c, After(c, s, run), id) {
      LeaderStarted(c, After(c, s, run), id);
    }
  }

  /**
   * Terms do not overlap and do not interleave: once somebody else leads, the first leader's lease has
   * ended, and it does not lead at any later moment.
   */
  lemma TermsNeverOverlap(c: Config, s0: State, run0: seq<Action>, run1: seq<Action>, run2: seq<Action>,
                          a: string, b: string)
    requires Initial(c, s0) && PossibleRun(c, s0, run0)
    requires PossibleRun(c, After(c, s0, run0), run1)
    requires PossibleRun(c, After(c, After(c, s0, run0), run1), run2)
    requires IsLeader(c, After(c, s0, run0), a) && IsLeader(c, After(c, After(c, s0, run0), run1), b) && a != b
    ensures var s1 := After(c, s0, run0);
            var s2 := After(c, s1, run1);
            Started(s1, a) && LeaseOf(s1, a) !in s2.etcd.alive && !IsLeader(c, After(c, s2, run2), a)
  {
    hide Enabled, Next;
    var s1 := After(c, s0, run0);
    RunKeeps(c, s0, run0);
    var s2 := After(c, s1, run1);
    RunKeeps(c, s1, run1);
    LeaderStays(c, s1, run1, a);
    NeverAgain(c, s2, run2, a);
  }

  // ----- From the start of Elect to its return -----

  /** A step that `Elect` of this elector takes. */
  predicate IsBy(a: Action, id: string) {
    (a.Start? || a.KeepAlive? || a.Put? || a.Lose? || a.Fail?) && a.id == id
  }

  ghost predicate HasStart(run: seq<Action>, id: string) {
    exists i :: 0 <= i < |run| && run[i].Start? && run[i].id == id
  }

  ghost predicate HasFail(run: seq<Action>, id: string) {
    exists i :: 0 <= i < |run| && run[i].Fail? && run[i].id == id
  }

  lemma HasSplit(run: seq<Action>, id: string)
    requires run != []
    ensures HasStart(run, id) <==> (run[0].Start? && run[0].id == id) || HasStart(run[1..], id)
    ensures HasFail(run, id) <==> (run[0].Fail? && run[0].id == id) || HasFail(run[1..], id)
  {
    if i :| 0 <= i < |run[1..]| && run[1..][i].Start? && run[1..][i].id == id {
      assert run[i + 1] == run[1..][i];
    }
    if i :| 0 <= i < |run[1..]| && run[1..][i].Fail? && run[1..][i].id == id {
      assert run[i + 1] == run[1..][i];
    }
    assert forall i :: 0 < i < |run| ==> run[i] == run[1..][i - 1];
  }

  lemma ElectorStep(c: Config, s: State, a: Action, id: string)
    requires Enabled(c, s, a) && id in s.electors
    ensures id in Next(c, s, a).electors
    ensures var x, y := s.electors[id], Next(c, s, a).electors[id];
            && (!IsBy(a, id) ==> y == x)
            && (x.NotStarted? && IsBy(a, id) ==> a.Start? && y.Running?)
            && (x.Running? && IsBy(a, id) ==> !a.Start? && y == if a.Fail? then Returned(x.lease) else x)
            && (x.Returned? ==> !IsBy(a, id))
  {
  }

  /** `Elect` runs from its start to its first error, on one lease. */
  lemma {:induction false} ElectorExact(c: Config, s: State, run: seq<Action>, id: string)
    requires PossibleRun(c, s, run) && id in s.electors
    ensures id in After(c, s, run).electors
    ensures var x, y := s.electors[id], After(c, s, run).electors[id];
            && (y.NotStarted? <==> x.NotStarted? && !HasStart(run, id))
            && (y.Returned? <==> x.Returned? || HasFail(run, id))
            && (!x.NotStarted? ==> y.lease == x.lease)
    decreases run
  {
    hide Enabled, Next, HasStart, HasFail;
    if run == [] {
      NoneInNothing(id);
    } else {
      HasSplit(run, id);
      ElectorStep(c, s, run[0], id);
      ElectorExact(c, Next(c, s, run[0]), run[1..], id);
    }
  }

  lemma NoneInNothing(id: string)
    ensures !HasStart([], id) && !HasFail([], id)
  {
  }

  /** An `Elect` that has returned takes no further step: it never creates the key again. */
  lemma {:induction false} ReturnedIsSilent(c: Config, s: State, run: seq<Action>, id: string)
    requires PossibleRun(c, s, run) && id in s.electors && s.electors[id].Returned?
    ensures forall i :: 0 <= i < |run| ==> !IsBy(run[i], id)
    decreases run
  {
    hide Enabled, Next, IsBy;
    if run != [] {
      ElectorStep(c, s, run[0], id);
      ReturnedIsSilent(c, Next(c, s, run[0]), run[1..], id);
      assert forall i :: 0 < i < |run| ==> run[i] == run[1..][i - 1];
    }
  }

  /** A transaction that took effect makes its elector lead, error or not; a lost one changes nothing. */
  lemma ErrorMayLead(c: Config, s: State, id: string)
    requires Enabled(c, s, Fail(id, true))
    ensures IsLeader(c, Next(c, s, Fail(id, true)), id) <==> IsLeader(c, s, id) || Enabled(c, s, Put(id))
    ensures Next(c, s, Fail(id, true)).etcd == if Enabled(c, s, Put(id)) then Next(c, s, Put(id)).etcd else s.etcd
    ensures Next(c, s, Fail(id, false)).etcd == s.etcd
  {
  }

  /** An `Elect` without an error goes on trying: it can create the key whenever it is free and the lease lives. */
  lemma TriesUntilError(c: Config, s: State, run: seq<Action>, id: string)
    requires PossibleRun(c, s, run) && id in s.electors && s.electors[id].Running? && !HasFail(run, id)
    ensures Enabled(c, After(c, s, run), Put(id)) <==>
      c.key !in After(c, s, run).etcd.kv && s.electors[id].lease in After(c, s, run).etcd.alive
    ensures Enabled(c, After(c, s, run), KeepAlive(id))
  {
    hide PossibleRun, After, HasFail;
    ElectorExact(c, s, run, id);
  }

  // ----- Keeping the lease alive in time -----

  /** `left` is the time until the lease may end; every renewal by `id` comes before that is used up. */
  predicate InTime(c: Config, run: seq<Action>, id: string, left: nat)
    decreases run
  {
    left > 0 &&
    (run == [] ||
     (if run[0].Clock? then InTime(c, run[1..], id, left - 1)
      else if run[0] == KeepAlive(id) then InTime(c, run[1..], id, c.ttl)
      else InTime(c, run[1..], id, left)))
  }

  /** A leader that calls `KeepAliveOnce` before every deadline leads at every later moment. */
  lemma {:induction false} RenewingLeaderStays(c: Config, s: State, run: seq<Action>, id: string, left: nat)
    requires Inv(c, s) && PossibleRun(c, s, run) && IsLeader(c, s, id) && Started(s, id)
    requires LeaseOf(s, id) in s.deadline && s.now + left <= s.deadline[LeaseOf(s, id)] && InTime(c, run, id, left)
    ensures IsLeader(c, After(c, s, run), id)
    decreases run
  {
    hide Inv;
    if run != [] {
      var a, l := run[0], LeaseOf(s, id);
      var r := Next(c, s, a);
      LeaderStarted(c, s, id);
      LeaderStep(c, s, a, id);
      StepKeepsInv(c, s, a);
      LeaseUsed(c, s, id);
      assert l in r.etcd.alive;
      var left' := if a.Clock? then left - 1 else if a == KeepAlive(id) then c.ttl else left;
      DeadlineStep(c, s, a, id, left);
      RenewingLeaderStays(c, r, run[1..], id, left');
    }
  }

  lemma DeadlineStep(c: Config, s: State, a: Action, id: string, left: nat)
    requires Inv(c, s) && Enabled(c, s, a) && Started(s, id) && left > 0
    requires LeaseOf(s, id) in s.deadline && s.now + left <= s.deadline[LeaseOf(s, id)]
    requires LeaseOf(s, id) in s.etcd.alive
    ensures var r := Next(c, s, a);
            var left' := if a.Clock? then left - 1 else if a == KeepAlive(id) then c.ttl else left;
            LeaseOf(s, id) in r.deadline && r.now + left' <= r.deadline[LeaseOf(s, id)]
  {
    if a.KeepAlive? {
      assert Started(s, a.id) && (LeaseOf(s, a.id) == LeaseOf(s, id) ==> a.id == id);
    }
  }

  /** A lease lives as long as it is renewed in time, whoever leads. */
  lemma {:induction false} RenewedLeaseLives(c: Config, s: State, run: seq<Action>, id: string, left: nat)
    requires Inv(c, s) && PossibleRun(c, s, run) && Started(s, id) && LeaseOf(s, id) in s.etcd.alive
    requires LeaseOf(s, id) in s.deadline && s.now + left <= s.deadline[LeaseOf(s, id)] && InTime(c, run, id, left)
    ensures LeaseOf(s, id) in After(c, s, run).etcd.alive
    decreases run
  {
    hide Inv;
    if run != [] {
      var a := run[0];
      StepKeepsInv(c, s, a);
      var left' := if a.Clock? then left - 1 else if a == KeepAlive(id) then c.ttl else left;
      assert LeaseOf(s, id) in Next(c, s, a).etcd.alive;
      DeadlineStep(c, s, a, id, left);
      RenewedLeaseLives(c, Next(c, s, a), run[1..], id, left');
    }
  }

  /** A new lease lives for its whole time, and longer if it is renewed in time. */
  lemma FreshLeaseLives(c: Config, s: State, id: string, run: seq<Action>)
    requires Inv(c, s) && Enabled(c, s, Start(id)) && PossibleRun(c, Next(c, s, Start(id)), run)
    requires InTime(c, run, id, c.ttl)
    ensures var s' := Next(c, s, Start(id));
            && Started(s', id) && LeaseOf(s', id) !in s.etcd.alive
            && LeaseOf(s', id) in After(c, s', run).etcd.alive
  {
    hide PossibleRun, After, InTime;
    StepKeepsInv(c, s, Start(id));
    RenewedLeaseLives(c, Next(c, s, Start(id)), run, id, c.ttl);
  }
}
