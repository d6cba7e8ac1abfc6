/** In which order one goroutine goes through `Lock` and `UnLock`, told by its own steps alone. */
module LockFlow {
  import opened Sequences
  import opened LockProtocol

  /** The steps of goroutine `t` in a run, oldest first. */
  function Own(run: seq<Action>, t: nat): seq<Action> {
    if run == [] then []
    else (if !run[0].Expire? && run[0].t == t then [run[0]] else []) + Own(run[1..], t)
  }

  function Last(own: seq<Action>): Option<Action> {
    if own == [] then None else Some(own[|own| - 1])
  }

  /**
   * Which step may follow which. A lost round is followed by another round, an error ends `Lock`, and
   * `UnLock` ends with its error, without a record, or with the dropped one.
   */
  predicate Follows(last: Option<Action>, a: Action) {
    match last
    case Some(StartLock(_, _)) => a.TryWin? || a.TryLose? || a.TryFail?
    case Some(TryLose(_)) => a.TryWin? || a.TryLose? || a.TryFail?
    case Some(TryWin(_)) => a.WriteRecord?
    case Some(WriteRecord(_)) => a.BeginUnlock?
    case Some(BeginUnlock(_)) => a.RevokeOk? || a.RevokeFail? || a.NothingRecorded?
    case Some(BeginStray(_, _)) => a.RevokeOk? || a.RevokeFail? || a.NothingRecorded?
    case Some(RevokeOk(_)) => a.DropRecord?
    case _ => a.StartLock? || a.BeginStray?
  }

  /** The key that the goroutine last asked for. */
  function KeyOf(own: seq<Action>): string {
    if own == [] then ""
    else
      match own[|own| - 1]
      case StartLock(_, k) => k
      case BeginStray(_, k) => k
      case _ => KeyOf(own[..|own| - 1])
  }

  /** What the store, the record and the mutex have to allow for a step that is due. */
  predicate Allowed(s: State, t: nat, k: string, a: Action)
    requires t in s.threads
  {
    var at := (s.threads[t].process, k);
    match a
    case TryWin(_) => k !in s.etcd.kv && HasLease(s.threads[t].pc) && s.threads[t].pc.l in s.etcd.alive
    case TryLose(_) => k in s.etcd.kv
    case WriteRecord(_) => at.0 !in s.mutex
    case BeginUnlock(_) => at.0 !in s.mutex
    case BeginStray(_, _) => at.0 !in s.mutex
    case RevokeOk(_) => at in s.record && s.record[at] in s.etcd.alive
    case RevokeFail(_, _) => at in s.record
    case NothingRecorded(_) => at !in s.record
    case _ => true
  }

  /** Where its steps have brought the goroutine. */
  predicate Stands(pc: Pc, own: seq<Action>) {
    && (!pc.Idle? ==> pc.k == KeyOf(own))
    && match Last(own)
       case Some(StartLock(_, _)) => pc.Trying?
       case Some(TryLose(_)) => pc.Trying?
       case Some(TryWin(_)) => pc.Won?
       case Some(WriteRecord(_)) => pc.Holding?
       case Some(BeginUnlock(_)) => pc.Unlocking?
       case Some(BeginStray(_, _)) => pc.Stray?
       case Some(RevokeOk(_)) => pc.Revoked? || pc.StrayRevoked?
       case _ => pc.Idle?
  }

  lemma OwnStep(s: State, a: Action, t: nat, own: seq<Action>)
    requires t in s.threads && Enabled(s, a) && !a.Expire? && a.t == t && Stands(s.threads[t].pc, own)
    ensures t in Next(s, a).threads && Stands(Next(s, a).threads[t].pc, own + [a])
  {
    assert (own + [a])[..|own|] == own;
  }

  lemma OtherStep(s: State, a: Action, t: nat)
    requires t in s.threads && Enabled(s, a) && (a.Expire? || a.t != t)
    ensures t in Next(s, a).threads && Next(s, a).threads[t] == s.threads[t]
  {
  }

  lemma {:induction false} StandsAfter(s: State, run: seq<Action>, t: nat, own: seq<Action>)
    requires t in s.threads && PossibleRun(s, run) && Stands(s.threads[t].pc, own)
    ensures t in After(s, run).threads && Stands(After(s, run).threads[t].pc, own + Own(run, t))
    decreases run
  {
    hide Enabled, Next, Stands;
    if run == [] {
      assert own + [] == own;
    } else {
      var a := run[0];
      if !a.Expire? && a.t == t {
        OwnStep(s, a, t, own);
        StandsAfter(Next(s, a), run[1..], t, own + [a]);
        assert own + [a] + Own(run[1..], t) == own + Own(run, t);
      } else {
        OtherStep(s, a, t);
        StandsAfter(Next(s, a), run[1..], t, own);
        assert own + Own(run[1..], t) == own + Own(run, t);
      }
    }
  }

  lemma DueExact(s: State, t: nat, own: seq<Action>, a: Action)
    requires t in s.threads && Stands(s.threads[t].pc, own) && !a.Expire? && a.t == t
    ensures Enabled(s, a) <==> Follows(Last(own), a) && Allowed(s, t, KeyOf(own), a)
  {
  }

  /**
   * After any run, a goroutine can take exactly the steps that follow its own last one and that store,
   * record and mutex allow.
   */
  lemma FlowExact(s: State, run: seq<Action>, t: nat, a: Action)
    requires Quiet(s) && PossibleRun(s, run) && t in s.threads && !a.Expire? && a.t == t
    ensures t in After(s, run).threads
    ensures Enabled(After(s, run), a) <==>
      Follows(Last(Own(run, t)), a) && Allowed(After(s, run), t, KeyOf(Own(run, t)), a)
  {
    hide Enabled, Next, Stands, Follows, Allowed, PossibleRun, After;
    assert Stands(s.threads[t].pc, []) by { IdleStands(s.threads[t].pc); }
    StandsAfter(s, run, t, []);
    assert [] + Own(run, t) == Own(run, t);
    DueExact(After(s, run), t, Own(run, t), a);
  }

  lemma IdleStands(pc: Pc)
    requires pc.Idle?
    ensures Stands(pc, [])
  {
  }

  // ----- Lock does not give up -----

  predicate Unfailed(run: seq<Action>, t: nat) {
    forall i :: 0 <= i < |run| ==> !(run[i].TryFail? && run[i].t == t)
  }

  predicate Wins(run: seq<Action>, t: nat) {
    exists i :: 0 <= i < |run| && run[i] == TryWin(t)
  }

  /** Through any run without an error of its own, a goroutine in `Lock` goes on trying until it wins. */
  lemma {:induction false} KeepsTrying(s: State, run: seq<Action>, t: nat)
    requires PossibleRun(s, run) && t in s.threads && s.threads[t].pc.Trying? && Unfailed(run, t)
    ensures t in After(s, run).threads
    ensures After(s, run).threads[t] == s.threads[t] || Wins(run, t)
    decreases run
  {
    hide Enabled, Next;
    if run != [] {
      var a := run[0];
      if a == TryWin(t) {
        StandsStay(s, run, t);
      } else {
        RoundLost(s, a, t);
        KeepsTrying(Next(s, a), run[1..], t);
        if i :| 0 <= i < |run[1..]| && run[1..][i] == TryWin(t) {
          assert run[i + 1] == TryWin(t);
        }
      }
    }
  }

  lemma RoundLost(s: State, a: Action, t: nat)
    requires Enabled(s, a) && t in s.threads && s.threads[t].pc.Trying?
    requires a != TryWin(t) && !(a.TryFail? && a.t == t)
    ensures t in Next(s, a).threads && Next(s, a).threads[t] == s.threads[t]
  {
  }

  lemma {:induction false} StandsStay(s: State, run: seq<Action>, t: nat)
    requires PossibleRun(s, run) && t in s.threads
    ensures t in After(s, run).threads
    decreases run
  {
    hide Enabled, Next;
    if run != [] {
      Present(s, run[0], t);
      StandsStay(Next(s, run[0]), run[1..], t);
    }
  }

  lemma Present(s: State, a: Action, t: nat)
    requires Enabled(s, a) && t in s.threads
    ensures t in Next(s, a).threads
  {
  }

  /** Hence it can win whenever the key is free and its lease lives. */
  lemma WinsWhenFree(s: State, run: seq<Action>, t: nat)
    requires PossibleRun(s, run) && t in s.threads && s.threads[t].pc.Trying? && Unfailed(run, t) && !Wins(run, t)
    ensures Enabled(After(s, run), TryWin(t)) <==>
      s.threads[t].pc.k !in After(s, run).etcd.kv && s.threads[t].pc.l in After(s, run).etcd.alive
  {
    hide PossibleRun, After, Unfailed, Wins;
    KeepsTrying(s, run, t);
  }

  /** In particular the owner's revocation lets it win, if its own lease is alive. */
  lemma WinsAfterRevocation(s: State, u: nat, t: nat)
    requires Inv(s) && u in s.threads && s.threads[u].pc.Unlocking? && Enabled(s, RevokeOk(u))
    requires t in s.threads && s.threads[t].pc.Trying? && s.threads[t].pc.k == s.threads[u].pc.k
    requires s.threads[t].pc.l in s.etcd.alive
    ensures Enabled(Next(s, RevokeOk(u)), TryWin(t))
  {
    hide Mutexes, Draining, RevokesOwn;
  }
}
