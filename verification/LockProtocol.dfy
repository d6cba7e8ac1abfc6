/**
 * The distributed lock as a protocol: any number of processes, each with one lock record and one
 * mutex, and any number of goroutines in each.
 */
module LockProtocol {
  import opened LeasedStore

  /**
   * Where a goroutine is. `l` is the lease it was granted, `gone` the lease its UnLock revoked. A stray
   * goroutine is in an UnLock without having locked: `AtomicMultiKVOp` ignores the error of `Lock`.
   */
  datatype Pc =
    | Idle
    | Trying(k: string, l: nat)
    | Won(k: string, l: nat)
    | Holding(k: string, l: nat)
    | Unlocking(k: string, l: nat)
    | Revoked(k: string, l: nat, gone: nat)
    | Stray(k: string)
    | StrayRevoked(k: string)

  datatype Thread = Thread(process: nat, pc: Pc)

  /** `record` is each process's `lockRecord`; `mutex` tells who holds each process's `lockRecordMtx`. */
  datatype State = State(etcd: Etcd, threads: map<nat, Thread>, record: map<(nat, string), nat>, mutex: map<nat, nat>)

  datatype Action =
    | StartLock(t: nat, k: string)          // Lock: the grant
    | TryWin(t: nat)                        // tryLock: the transaction succeeds
    | TryLose(t: nat)                       // tryLock: the key exists, try again
    | TryFail(t: nat, applied: bool)        // tryLock: an error, whether or not the put took effect; Lock returns it
    | WriteRecord(t: nat)                   // Lock: the record is written and Lock returns nil
    | BeginUnlock(t: nat)                   // UnLock by a holder: takes the mutex
    | BeginStray(t: nat, k: string)         // UnLock by anybody else: takes the mutex
    | RevokeOk(t: nat)                      // UnLock: the recorded lease is revoked
    | RevokeFail(t: nat, applied: bool)     // UnLock: the revocation reports an error; UnLock returns it
    | NothingRecorded(t: nat)               // UnLock: no record for the key
    | DropRecord(t: nat)                    // UnLock: the record goes, the mutex is released
    | Expire(lease: nat)                    // the store ends a lease

  predicate Owner(pc: Pc) {
    pc.Won? || pc.Holding? || pc.Unlocking?
  }

  /** UnLock has the mutex and not yet looked for a record. */
  predicate Unlocks(pc: Pc) {
    pc.Unlocking? || pc.Stray?
  }

  /** UnLock has revoked a lease and not yet dropped the record. */
  predicate Drains(pc: Pc) {
    pc.Revoked? || pc.StrayRevoked?
  }

  predicate At(s: State, t: nat) {
    t in s.threads
  }

  /** The goroutine is in UnLock and finds a record for its key. */
  predicate Finds(s: State, t: nat) {
    At(s, t) && Unlocks(s.threads[t].pc) && (s.threads[t].process, s.threads[t].pc.k) in s.record
  }

  function Found(s: State, t: nat): nat
    requires Finds(s, t)
  {
    s.record[(s.threads[t].process, s.threads[t].pc.k)]
  }

  predicate FreeMutex(s: State, t: nat) {
    At(s, t) && s.threads[t].process !in s.mutex
  }

  predicate Enabled(s: State, a: Action) {
    match a
    case Expire(lease) => lease in s.etcd.alive
    case StartLock(t, _) => At(s, t) && s.threads[t].pc.Idle?
    case TryWin(t) => At(s, t) && s.threads[t].pc.Trying? && CanCreate(s.etcd, s.threads[t].pc.k, s.threads[t].pc.l)
    case TryLose(t) => At(s, t) && s.threads[t].pc.Trying? && s.threads[t].pc.k in s.etcd.kv
    case TryFail(t, _) => At(s, t) && s.threads[t].pc.Trying?
    case WriteRecord(t) => FreeMutex(s, t) && s.threads[t].pc.Won?
    case BeginUnlock(t) => FreeMutex(s, t) && s.threads[t].pc.Holding?
    case BeginStray(t, _) => FreeMutex(s, t) && s.threads[t].pc.Idle?
    case RevokeOk(t) => Finds(s, t) && Found(s, t) in s.etcd.alive
    case RevokeFail(t, _) => Finds(s, t)
    case NothingRecorded(t) => At(s, t) && Unlocks(s.threads[t].pc) && !Finds(s, t)
    case DropRecord(t) => At(s, t) && Drains(s.threads[t].pc)
  }

  function Go(s: State, t: nat, pc: Pc): State
    requires At(s, t)
  {
    s.(threads := s.threads[t := Thread(s.threads[t].process, pc)])
  }

  function Next(s: State, a: Action): State
    requires Enabled(s, a)
  {
    match a
    case Expire(lease) => s.(etcd := End(s.etcd, lease))
    case StartLock(t, k) => Go(s.(etcd := Grant(s.etcd)), t, Trying(k, s.etcd.next))
    case TryWin(t) =>
      var pc := s.threads[t].pc;
      Go(s.(etcd := Create(s.etcd, pc.k, "", pc.l)), t, Won(pc.k, pc.l))
    case TryLose(t) => s
    case TryFail(t, applied) =>
      var pc := s.threads[t].pc;
      Go(s.(etcd := if applied then Create(s.etcd, pc.k, "", pc.l) else s.etcd), t, Idle)
    case WriteRecord(t) =>
      var p, pc := s.threads[t].process, s.threads[t].pc;
      Go(s.(record := s.record[(p, pc.k) := pc.l]), t, Holding(pc.k, pc.l))
    case BeginUnlock(t) =>
      var p, pc := s.threads[t].process, s.threads[t].pc;
      Go(s.(mutex := s.mutex[p := t]), t, Unlocking(pc.k, pc.l))
    case BeginStray(t, k) =>
      Go(s.(mutex := s.mutex[s.threads[t].process := t]), t, Stray(k))
    case RevokeOk(t) =>
      var p, pc := s.threads[t].process, s.threads[t].pc;
      var lid := s.record[(p, pc.k)];
      var pc' := if pc.Stray? then StrayRevoked(pc.k) else Revoked(pc.k, pc.l, lid);
      Go(s.(etcd := End(s.etcd, lid)), t, pc')
    case RevokeFail(t, applied) =>
      var p, pc := s.threads[t].process, s.threads[t].pc;
      var lid := s.record[(p, pc.k)];
      Go(s.(etcd := if applied then End(s.etcd, lid) else s.etcd, mutex := s.mutex - {p}), t, Idle)
    case NothingRecorded(t) =>
      Go(s.(mutex := s.mutex - {s.threads[t].process}), t, Idle)
    case DropRecord(t) =>
      var p, pc := s.threads[t].process, s.threads[t].pc;
      Go(s.(record := s.record - {(p, pc.k)}, mutex := s.mutex - {p}), t, Idle)
  }

  // ----- The invariant -----

  predicate HasLease(pc: Pc) {
    !pc.Idle? && !pc.Stray? && !pc.StrayRevoked?
  }

  /** Every owner's key is in the store under the lease that the owner itself was granted. */
  ghost predicate OwnersHold(s: State) {
    forall t :: t in s.threads && Owner(s.threads[t].pc) ==>
      var pc := s.threads[t].pc;
      pc.k in s.etcd.kv && s.etcd.kv[pc.k].lease == pc.l
  }

  ghost predicate OwnLeases(s: State) {
    && (forall t :: t in s.threads && HasLease(s.threads[t].pc) ==> s.threads[t].pc.l < s.etcd.next)
    && (forall t, u :: (t in s.threads && u in s.threads && t != u
                        && HasLease(s.threads[t].pc) && HasLease(s.threads[u].pc)) ==>
          s.threads[t].pc.l != s.threads[u].pc.l)
  }

  /** What `Lock` recorded for a holder is still there when its `UnLock` looks. */
  ghost predicate Recorded(s: State) {
    forall t :: t in s.threads && (s.threads[t].pc.Holding? || s.threads[t].pc.Unlocking?) ==>
      var at := (s.threads[t].process, s.threads[t].pc.k);
      at in s.record && s.record[at] == s.threads[t].pc.l
  }

  ghost predicate Mutexes(s: State) {
    forall t :: t in s.threads && (Unlocks(s.threads[t].pc) || Drains(s.threads[t].pc)) ==>
      s.threads[t].process in s.mutex && s.mutex[s.threads[t].process] == t
  }

  /** Between the revocation and the dropped record, no goroutine of the same process holds that key. */
  ghost predicate Draining(s: State) {
    forall t, u :: (t in s.threads && u in s.threads && s.threads[t].process == s.threads[u].process
                    && Drains(s.threads[t].pc) && s.threads[u].pc.Holding?) ==>
      s.threads[t].pc.k != s.threads[u].pc.k
  }

  ghost predicate RevokesOwn(s: State) {
    forall t :: t in s.threads && s.threads[t].pc.Revoked? ==> s.threads[t].pc.gone == s.threads[t].pc.l
  }

  /** A recorded lease was granted to the goroutine that recorded it, or to one that has left since. */
  ghost predicate Origins(s: State) {
    && (forall at :: at in s.record ==> s.record[at] < s.etcd.next)
    && (forall at, t :: (at in s.record && t in s.threads && HasLease(s.threads[t].pc)
                         && s.threads[t].pc.l == s.record[at]) ==>
          var pc := s.threads[t].pc;
          at == (s.threads[t].process, pc.k) && (pc.Holding? || pc.Unlocking? || pc.Revoked?))
  }

  ghost predicate Inv(s: State) {
    && Sound(s.etcd) && OwnersHold(s) && OwnLeases(s) && Recorded(s) && Mutexes(s) && Draining(s) && RevokesOwn(s)
    && Origins(s)
  }

  /** No two goroutines, of one process or of several, own one key. */
  ghost predicate Exclusive(s: State) {
    forall t, u :: (t in s.threads && u in s.threads && Owner(s.threads[t].pc) && Owner(s.threads[u].pc)
                    && s.threads[t].pc.k == s.threads[u].pc.k) ==>
      t == u
  }

  lemma InvIsExclusive(s: State)
    requires Inv(s)
    ensures Exclusive(s)
  {
  }

  ghost predicate NobodyHolds(s: State, process: nat, k: string) {
    forall u :: u in s.threads && s.threads[u].process == process && s.threads[u].pc.Holding? ==>
      s.threads[u].pc.k != k
  }

  ghost predicate Revokes(a: Action) {
    a.RevokeOk? || (a.RevokeFail? && a.applied)
  }

  /**
   * The store does not end the lease of an owner, from the won transaction to the revocation, and no
   * stray UnLock revokes a key that somebody of its process holds.
   */
  ghost predicate Kept(s: State, a: Action) {
    && (a.Expire? ==> forall t :: t in s.threads && Owner(s.threads[t].pc) ==> s.threads[t].pc.l != a.lease)
    && (Revokes(a) && At(s, a.t) && s.threads[a.t].pc.Stray? ==>
          NobodyHolds(s, s.threads[a.t].process, s.threads[a.t].pc.k))
  }

  /** A record that a stray UnLock finds is of a lease that nobody owns, if nobody of the process holds the key. */
  lemma FoundIsOwned(s: State, t: nat)
    requires Inv(s) && Finds(s, t)
    requires s.threads[t].pc.Stray? ==> NobodyHolds(s, s.threads[t].process, s.threads[t].pc.k)
    ensures forall u :: u in s.threads && Owner(s.threads[u].pc) && s.threads[u].pc.l == Found(s, t) ==> u == t
  {
  }

  lemma StepKeepsLeases(s: State, a: Action)
    requires Inv(s) && Enabled(s, a) && Kept(s, a)
    ensures OwnLeases(Next(s, a)) && Sound(Next(s, a).etcd)
  {
    hide Draining, Mutexes, RevokesOwn, Origins, Recorded, OwnersHold;
  }

  lemma StepKeepsOwners(s: State, a: Action)
    requires Inv(s) && Enabled(s, a) && Kept(s, a)
    ensures OwnersHold(Next(s, a))
  {
    hide Draining, Mutexes, RevokesOwn, Origins, Recorded;
    if Revokes(a) {
      FoundIsOwned(s, a.t);
    }
  }

  lemma StepKeepsMutexes(s: State, a: Action)
    requires Inv(s) && Enabled(s, a) && Kept(s, a)
    ensures Mutexes(Next(s, a)) && RevokesOwn(Next(s, a))
  {
    hide Draining, Origins, OwnLeases, OwnersHold;
  }

  lemma StepKeepsDraining(s: State, a: Action)
    requires Inv(s) && Enabled(s, a) && Kept(s, a)
    ensures Draining(Next(s, a))
  {
    hide Origins, RevokesOwn;
  }

  lemma StepKeepsRecorded(s: State, a: Action)
    requires Inv(s) && Enabled(s, a) && Kept(s, a)
    ensures Recorded(Next(s, a))
  {
    hide Origins, RevokesOwn;
  }

  lemma StepKeepsOrigins(s: State, a: Action)
    requires Inv(s) && Enabled(s, a) && Kept(s, a)
    ensures Origins(Next(s, a))
  {
    hide Draining, RevokesOwn, Recorded, Mutexes;
  }

  lemma StepKeepsInv(s: State, a: Action)
    requires Inv(s) && Enabled(s, a) && Kept(s, a)
    ensures Inv(Next(s, a))
  {
    StepKeepsLeases(s, a);
    StepKeepsOwners(s, a);
    StepKeepsMutexes(s, a);
    StepKeepsDraining(s, a);
    StepKeepsRecorded(s, a);
    StepKeepsOrigins(s, a);
  }

  /** A holder's UnLock always finds its record. */
  lemma HolderIsRecorded(s: State, t: nat)
    requires Inv(s) && At(s, t) && s.threads[t].pc.Unlocking?
    ensures !Enabled(s, NothingRecorded(t))
  {
  }

  // ----- Whole runs -----

  /** Every step can be taken and keeps the leases: no owner's lease expires or is revoked by a stray UnLock. */
  ghost predicate KeptRun(s: State, run: seq<Action>)
    decreases run
  {
    run == [] || (Enabled(s, run[0]) && Kept(s, run[0]) && KeptRun(Next(s, run[0]), run[1..]))
  }

  ghost predicate PossibleRun(s: State, run: seq<Action>)
    decreases run
  {
    run == [] || (Enabled(s, run[0]) && PossibleRun(Next(s, run[0]), run[1..]))
  }

  function After(s: State, run: seq<Action>): State
    requires PossibleRun(s, run)
    decreases run
  {
    if run == [] then s else After(Next(s, run[0]), run[1..])
  }

  /** Nobody is in the lock, nothing is recorded; other keys may be in the store. */
  ghost predicate Quiet(s: State) {
    Sound(s.etcd) && s.record == map[] && s.mutex == map[] && forall t :: t in s.threads ==> s.threads[t].pc.Idle?
  }

  lemma {:induction false} KeptRunKeepsInv(s: State, run: seq<Action>)
    requires Inv(s) && KeptRun(s, run)
    ensures PossibleRun(s, run) && Inv(After(s, run))
    decreases run
  {
    hide Inv, Next, Kept, Enabled;
    if run != [] {
      StepKeepsInv(s, run[0]);
      KeptRunKeepsInv(Next(s, run[0]), run[1..]);
    }
  }

  /**
   * As long as no owner's lease expires and no stray UnLock revokes a key that is held in its process, at
   * every moment of every run at most one goroutine anywhere owns a key, and whatever the UnLock of a
   * holder revokes is the lease its own Lock was granted.
   */
  lemma MutualExclusion(s: State, run: seq<Action>)
    requires Quiet(s) && KeptRun(s, run)
    ensures PossibleRun(s, run) && Exclusive(After(s, run)) && RevokesOwn(After(s, run))
  {
    KeptRunKeepsInv(s, run);
    InvIsExclusive(After(s, run));
  }

  // ----- What keeping the leases is needed for -----

  /** Who is robbed of its key by a step that does not keep the leases. */
  lemma Robbed(s: State, a: Action) returns (t: nat)
    requires Inv(s) && Enabled(s, a) && !Kept(s, a)
    ensures t in s.threads && Owner(s.threads[t].pc) && (a.Expire? || t != a.t)
    ensures var r := Next(s, a);
            && Sound(r.etcd) && s.threads[t].pc.k !in r.etcd.kv
            && t in r.threads && r.threads[t] == s.threads[t]
    ensures !a.Expire? ==> Finds(s, a.t) && s.threads[a.t].pc.Stray? && s.threads[a.t].pc.k == s.threads[t].pc.k
  {
    hide Draining, Origins, RevokesOwn, OwnLeases, Mutexes;
    if a.Expire? {
      t :| t in s.threads && Owner(s.threads[t].pc) && s.threads[t].pc.l == a.lease;
    } else {
      t :| t in s.threads && s.threads[t].process == s.threads[a.t].process && s.threads[t].pc.Holding?
           && s.threads[t].pc.k == s.threads[a.t].pc.k;
    }
  }

  /** Keeping the leases is not only enough for a step: any other step robs an owner. */
  lemma StepExact(s: State, a: Action)
    requires Inv(s) && Enabled(s, a)
    ensures Inv(Next(s, a)) <==> Kept(s, a)
  {
    hide OwnLeases, Recorded, Mutexes, Draining, RevokesOwn, Origins, Kept, Next, Enabled;
    if Kept(s, a) {
      StepKeepsInv(s, a);
    } else {
      var t := Robbed(s, a);
    }
  }

  /** A goroutine outside the lock can take a key that is not in the store, whoever else believes to own it. */
  lemma FreeKeyIsTaken(s: State, t: nat, u: nat)
    requires Sound(s.etcd) && t in s.threads && Owner(s.threads[t].pc) && s.threads[t].pc.k !in s.etcd.kv
    requires u in s.threads && s.threads[u].pc.Idle?
    ensures var run := [StartLock(u, s.threads[t].pc.k), TryWin(u)];
            PossibleRun(s, run) && !Exclusive(After(s, run))
  {
    var a1, a2 := StartLock(u, s.threads[t].pc.k), TryWin(u);
    TwoSteps(s, a1, a2);
    var r := Next(Next(s, a1), a2);
    assert t != u && r.threads[t] == s.threads[t] && r.threads[u].pc == Won(s.threads[t].pc.k, s.etcd.next);
  }

  lemma SingleStep(s: State, a: Action)
    requires Enabled(s, a)
    ensures PossibleRun(s, [a]) && After(s, [a]) == Next(s, a)
  {
    hide Next, Enabled;
    OneStep(s, a, []);
    assert [a] + [] == [a];
  }

  lemma TwoSteps(s: State, a1: Action, a2: Action)
    requires Enabled(s, a1) && Enabled(Next(s, a1), a2)
    ensures PossibleRun(s, [a1, a2]) && After(s, [a1, a2]) == Next(Next(s, a1), a2)
  {
    hide Next, Enabled;
    OneStep(s, a1, [a2]);
    SingleStep(Next(s, a1), a2);
  }

  lemma OneStep(s: State, a: Action, rest: seq<Action>)
    requires Enabled(s, a)
    ensures PossibleRun(s, [a] + rest) == PossibleRun(Next(s, a), rest)
    ensures PossibleRun(s, [a] + rest) ==> After(s, [a] + rest) == After(Next(s, a), rest)
    ensures KeptRun(s, [a] + rest) == (Kept(s, a) && KeptRun(Next(s, a), rest))
    ensures [a] + rest != []
  {
    hide Next, Enabled;
    assert ([a] + rest)[1..] == rest;
  }

  /**
   * Leases of ten seconds are granted and never renewed. If the lease of anyone ends between the won
   * transaction and the revocation, any goroutine outside the lock can own the same key beside it.
   */
  lemma ExpiryBreaksExclusion(s: State, t: nat, u: nat)
    requires Inv(s) && t in s.threads && Owner(s.threads[t].pc) && u in s.threads && s.threads[u].pc.Idle?
    ensures var run := [Expire(s.threads[t].pc.l), StartLock(u, s.threads[t].pc.k), TryWin(u)];
            PossibleRun(s, run) && !Exclusive(After(s, run))
  {
    hide Inv, Exclusive;
    var a, rest := Expire(s.threads[t].pc.l), [StartLock(u, s.threads[t].pc.k), TryWin(u)];
    HolderKey(s, t);
    OneStep(s, a, rest);
    FreeKeyIsTaken(Next(s, a), t, u);
  }

  lemma HolderKey(s: State, t: nat)
    requires Inv(s) && t in s.threads && Owner(s.threads[t].pc)
    ensures Sound(s.etcd) && s.threads[t].pc.k in s.etcd.kv && s.etcd.kv[s.threads[t].pc.k].lease == s.threads[t].pc.l
    ensures s.threads[t].pc.l in s.etcd.alive
    ensures s.threads[t].pc.Holding? ==>
      var at := (s.threads[t].process, s.threads[t].pc.k); at in s.record && s.record[at] == s.threads[t].pc.l
  {
  }

  // ----- The exact condition over whole runs -----

  /** No lease ends, by expiry or by revocation. */
  ghost predicate Peaceful(run: seq<Action>) {
    forall i :: 0 <= i < |run| ==> !run[i].Expire? && !Revokes(run[i])
  }

  /** The first `n` steps of the run can be continued, without ending a further lease, to two owners of a key. */
  ghost predicate Breaks(s: State, run: seq<Action>, n: nat, rest: seq<Action>) {
    && n <= |run| && Peaceful(rest)
    && PossibleRun(s, run[..n] + rest) && !Exclusive(After(s, run[..n] + rest))
  }

  lemma UnkeptBreaks(s: State, a: Action, u: nat) returns (rest: seq<Action>)
    requires Inv(s) && Enabled(s, a) && !Kept(s, a) && (a.Expire? ==> u in s.threads && s.threads[u].pc.Idle?)
    ensures Peaceful(rest) && PossibleRun(Next(s, a), rest) && !Exclusive(After(Next(s, a), rest))
  {
    hide Inv, Exclusive, PossibleRun, After;
    var t := Robbed(s, a);
    var k, r := s.threads[t].pc.k, Next(s, a);
    var w := if a.Expire? then u else a.t;
    rest := [StartLock(w, k), TryWin(w)];
    if a.RevokeOk? {
      var d := DropRecord(w);
      OneStep(r, d, rest);
      FreeKeyIsTaken(Next(r, d), t, w);
      rest := [d] + rest;
    } else {
      FreeKeyIsTaken(r, t, w);
    }
  }

  /** A stray UnLock of a key that somebody of its process holds lets the same goroutine own it as well. */
  lemma StrayUnlockBreaksExclusion(s: State, t: nat, u: nat) returns (rest: seq<Action>)
    requires Inv(s) && FreeMutex(s, t) && s.threads[t].pc.Idle?
    requires u in s.threads && s.threads[u].process == s.threads[t].process && s.threads[u].pc.Holding?
    ensures Peaceful(rest)
    ensures var run := [BeginStray(t, s.threads[u].pc.k)] + ([RevokeOk(t)] + rest);
            PossibleRun(s, run) && !Exclusive(After(s, run))
  {
    hide Inv, Exclusive, PossibleRun, After;
    var b, r := BeginStray(t, s.threads[u].pc.k), RevokeOk(t);
    var s' := Next(s, b);
    HolderKey(s, u);
    StepKeepsInv(s, b);
    assert s'.threads[u] == s.threads[u] && !Kept(s', r);
    rest := UnkeptBreaks(s', r, u);
    OneStep(s', r, rest);
    OneStep(s, b, [r] + rest);
  }

  lemma {:induction false} PeacefulIsKept(s: State, run: seq<Action>)
    requires Peaceful(run) && PossibleRun(s, run)
    ensures KeptRun(s, run)
    decreases run
  {
    hide Next, Enabled;
    if run != [] {
      PeacefulIsKept(Next(s, run[0]), run[1..]);
    }
  }

  lemma {:induction false} KeptRunIsExclusive(s: State, run: seq<Action>, n: nat, rest: seq<Action>)
    requires Inv(s) && KeptRun(s, run) && n <= |run| && Peaceful(rest) && PossibleRun(s, run[..n] + rest)
    ensures Exclusive(After(s, run[..n] + rest))
    decreases run
  {
    hide Inv, Next, Enabled, Exclusive;
    if n == 0 {
      assert run[..n] + rest == rest;
      PeacefulIsKept(s, rest);
      KeptRunKeepsInv(s, rest);
      InvIsExclusive(After(s, rest));
    } else {
      StepKeepsInv(s, run[0]);
      assert run[..n] + rest == [run[0]] + (run[1..][..n - 1] + rest);
      OneStep(s, run[0], run[1..][..n - 1] + rest);
      KeptRunIsExclusive(Next(s, run[0]), run[1..], n - 1, rest);
    }
  }

  lemma {:induction false} UnkeptRunBreaks(s: State, run: seq<Action>, u: nat) returns (n: nat, rest: seq<Action>)
    requires Inv(s) && PossibleRun(s, run) && !KeptRun(s, run)
    requires u in s.threads && s.threads[u].pc.Idle? && forall i :: 0 <= i < |run| ==> run[i].Expire? || run[i].t != u
    ensures Breaks(s, run, n, rest)
    decreases run
  {
    hide Inv, Exclusive, Kept;
    var a, s' := run[0], Next(s, run[0]);
    if Kept(s, a) {
      StepKeepsInv(s, a);
      assert KeptRun(s, run) == KeptRun(s', run[1..]);
      n, rest := UnkeptRunBreaks(s', run[1..], u);
      assert run[..n + 1] + rest == [a] + (run[1..][..n] + rest);
      OneStep(s, a, run[1..][..n] + rest);
      n := n + 1;
    } else {
      n, rest := 1, [];
      rest := UnkeptBreaks(s, a, u);
      assert run[..1] + rest == [a] + rest;
      OneStep(s, a, rest);
    }
  }

  /**
   * The exact condition. Whoever watches a run from outside the lock finds: the run keeps the leases
   * exactly when no beginning of it can be continued peacefully to two owners of one key.
   */
  lemma ExclusionExact(s: State, run: seq<Action>, u: nat)
    requires Inv(s) && PossibleRun(s, run)
    requires u in s.threads && s.threads[u].pc.Idle? && forall i :: 0 <= i < |run| ==> run[i].Expire? || run[i].t != u
    ensures KeptRun(s, run) <==> !exists n, rest :: Breaks(s, run, n, rest)
  {
    hide Inv, KeptRun, PossibleRun, After, Exclusive;
    if KeptRun(s, run) {
      forall n, rest ensures !Breaks(s, run, n, rest) {
        if Breaks(s, run, n, rest) {
          KeptRunIsExclusive(s, run, n, rest);
        }
      }
    } else {
      var n, rest := UnkeptRunBreaks(s, run, u);
    }
  }
}
