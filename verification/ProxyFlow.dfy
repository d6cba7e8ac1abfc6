/** In which order one goroutine goes through `doProxy`, `uidEndpoint` and `CleanUidCache`, told by its own steps. */
module ProxyFlow {
  import opened Sequences
  import opened ProxyAccounting

  /** The steps of goroutine `t` in a run, oldest first. */
  function Own(run: seq<Action>, t: nat): seq<Action> {
    if run == [] then []
    else (if run[0].t == t && !run[0].Spawn? then [run[0]] else []) + Own(run[1..], t)
  }

  function Last(own: seq<Action>): Option<Action> {
    if own == [] then None else Some(own[|own| - 1])
  }

  /** Calls of `doProxy` that have begun and not returned. */
  function Open(own: seq<Action>): int {
    if own == [] then 0
    else
      var a := own[|own| - 1];
      Open(own[..|own| - 1]) + (if a.Request? || a.Recurse? then 1 else if a.Return? then -1 else 0)
  }

  /** How the last query or the last try of `dealFunc` came out. */
  function Outcome(own: seq<Action>): Option<Action> {
    if own == [] then None
    else if own[|own| - 1].Deal? || own[|own| - 1].Answer? then Some(own[|own| - 1])
    else Outcome(own[..|own| - 1])
  }

  /** Neither asked nor dealt again: the deal was finished, or the query failed for good. */
  predicate Final(outcome: Option<Action>) {
    && outcome.Some?
    && (outcome.value == Deal(outcome.value.t, Finished) || outcome.value == Answer(outcome.value.t, OtherError))
  }

  /**
   * Which step may follow which. A miss asks the dash server; no leader means to ask again after a pause,
   * another error ends the call. A connection error drops the cached endpoint and begins a new call; when
   * that one has returned, the call that began it is counted once more and leaves.
   */
  predicate Follows(last: Option<Action>, open: int, a: Action) {
    match last
    case Some(Request(_)) => a.RLock?
    case Some(RLock(_)) => a.RUnlock?
    case Some(RUnlock(_, hit)) => if hit then a.Count? else a.LockToAsk?
    case Some(LockToAsk(_, _)) => a.Answer?
    case Some(Answer(_, Endpoint)) => a.Count?
    case Some(Answer(_, NoLeader)) => a.Retry?
    case Some(Answer(_, OtherError)) => a.Return?
    case Some(Retry(_)) => a.RLock?
    case Some(Count(_)) => a.Deal?
    case Some(Deal(_, Finished)) => a.Uncount?
    case Some(Deal(_, ConnectionError)) => a.LockToDrop?
    case Some(LockToDrop(_)) => a.Drop?
    case Some(Drop(_)) => a.Recurse?
    case Some(Recurse(_)) => a.RLock?
    case Some(Uncount(_)) => a.Return?
    case Some(Return(_)) => if open > 0 then a.Uncount? else a.Request? || a.StartClean?
    case Some(StartClean(_, _)) => a.LockToClean?
    case Some(LockToClean(_)) => a.Clean?
    case _ => a.Request? || a.StartClean?
  }

  /** What the lock and the counter have to allow for a step that is due. */
  predicate Allowed(s: State, a: Action) {
    match a
    case RLock(_) => !s.writer
    case LockToAsk(_, _) => !s.writer && s.readers == 0
    case LockToDrop(_) => !s.writer && s.readers == 0
    case LockToClean(_) => !s.writer && s.readers == 0
    case Clean(_) => s.count == 0
    case _ => true
  }

  predicate Outside(pc: Pc) {
    pc.Idle? || pc.WantClean? || pc.Cleaning?
  }

  /** Where its steps have brought the goroutine. */
  predicate Stands(th: Thread, own: seq<Action>) {
    && Open(own) == (if Outside(th.pc) then 0 else th.depth + 1)
    && (Outside(th.pc) ==> th.depth == 0)
    && (th.pc.Leaving? || th.pc.Returned? || (Last(own).Some? && Last(own).value.Return?) ==> Final(Outcome(own)))
    && match Last(own)
       case Some(Request(_)) => th.pc.WantRead?
       case Some(RLock(_)) => th.pc.Reading?
       case Some(RUnlock(_, hit)) => if hit then th.pc.HaveEndpoint? else th.pc.WantAsk?
       case Some(LockToAsk(_, q)) => th.pc == Asking(q)
       case Some(Answer(_, Endpoint)) => th.pc.HaveEndpoint?
       case Some(Answer(_, NoLeader)) => th.pc.Backoff?
       case Some(Answer(_, OtherError)) => th.pc.Returned?
       case Some(Retry(_)) => th.pc.WantRead?
       case Some(Count(_)) => th.pc.Calling?
       case Some(Deal(_, Finished)) => th.pc.Leaving?
       case Some(Deal(_, ConnectionError)) => th.pc.WantDrop?
       case Some(LockToDrop(_)) => th.pc.Dropping?
       case Some(Drop(_)) => th.pc.Pausing?
       case Some(Recurse(_)) => th.pc.WantRead?
       case Some(Uncount(_)) => th.pc.Returned?
       case Some(Return(_)) => if Open(own) > 0 then th.pc.Leaving? else th.pc.Idle?
       case Some(StartClean(_, q)) => th.pc == WantClean(q)
       case Some(LockToClean(_)) => th.pc.Cleaning?
       case Some(Spawn(_)) => false
       case _ => th.pc.Idle?
  }

  function ThreadAt(s: State, t: nat): Thread {
    if t < |s.threads| then s.threads[t] else Thread(Idle, 0)
  }

  lemma OwnStep(s: State, a: Action, own: seq<Action>)
    requires Enabled(s, a) && !a.Spawn? && Stands(ThreadAt(s, a.t), own)
    ensures Stands(ThreadAt(Next(s, a), a.t), own + [a])
  {
    assert (own + [a])[..|own|] == own;
  }

  lemma OtherStep(s: State, a: Action, t: nat)
    requires Enabled(s, a) && (a.Spawn? || a.t != t)
    ensures ThreadAt(Next(s, a), t) == ThreadAt(s, t)
  {
  }

  lemma OwnSplits(run: seq<Action>, t: nat, own: seq<Action>)
    ensures own + Own(run, t) ==
      if run == [] then own
      else if run[0].t == t && !run[0].Spawn? then own + [run[0]] + Own(run[1..], t)
      else own + Own(run[1..], t)
  {
  }

  lemma {:induction false} StandsAfter(s: State, run: seq<Action>, t: nat, own: seq<Action>)
    requires PossibleRun(s, run) && Stands(ThreadAt(s, t), own)
    ensures Stands(ThreadAt(After(s, run), t), own + Own(run, t))
    decreases run
  {
    hide Enabled, Next, Stands, ThreadAt;
    OwnSplits(run, t, own);
    if run == [] {
      assert Own(run, t) == [];
    } else {
      var a := run[0];
      if a.t == t && !a.Spawn? {
        OwnStep(s, a, own);
        StandsAfter(Next(s, a), run[1..], t, own + [a]);
      } else {
        OtherStep(s, a, t);
        StandsAfter(Next(s, a), run[1..], t, own);
      }
    }
  }

  /** The steps that belong to a place in the program. */
  predicate Fits(pc: Pc, a: Action) {
    match a
    case Spawn(_) => false
    case Request(_) => pc.Idle?
    case RLock(_) => pc.WantRead?
    case RUnlock(_, _) => pc.Reading?
    case LockToAsk(_, _) => pc.WantAsk?
    case Answer(_, _) => pc.Asking?
    case Retry(_) => pc.Backoff?
    case Count(_) => pc.HaveEndpoint?
    case Deal(_, _) => pc.Calling?
    case LockToDrop(_) => pc.WantDrop?
    case Drop(_) => pc.Dropping?
    case Recurse(_) => pc.Pausing?
    case Uncount(_) => pc.Leaving?
    case Return(_) => pc.Returned?
    case StartClean(_, _) => pc.Idle?
    case LockToClean(_) => pc.WantClean?
    case Clean(_) => pc.Cleaning?
  }

  lemma FitsFollows(th: Thread, own: seq<Action>, a: Action)
    requires Stands(th, own) && !a.Spawn?
    ensures Fits(th.pc, a) <==> Follows(Last(own), Open(own), a)
    ensures th.depth == (if Open(own) == 0 then 0 else Open(own) - 1)
    ensures th.pc.Idle? ==> Open(own) == 0 && th.depth == 0
    ensures th.pc.Idle? && Last(own).Some? && !Last(own).value.Clean? ==> Final(Outcome(own))
  {
    hide Open, Outcome, Final;
  }

  lemma FitsEnabled(s: State, a: Action)
    requires Inv(s) && a.t < |s.threads| && !a.Spawn? && (s.threads[a.t].pc.Idle? ==> s.threads[a.t].depth == 0)
    ensures Enabled(s, a) <==> Fits(s.threads[a.t].pc, a) && Allowed(s, a)
  {
    if s.threads[a.t].pc.Reading? {
      TallyReading(s, a.t);
    }
  }

  lemma TallyReading(s: State, t: nat)
    requires Inv(s) && t < |s.threads| && s.threads[t].pc.Reading?
    ensures s.readers > 0
  {
    Tallies.TallyAtLeast(s.threads, t, ReaderShare());
  }

  /**
   * After any run, a goroutine can take exactly the steps that follow its own last one and that lock and
   * counter allow. `depth` is the number of its retries that have not returned, and a call returns only
   * after a deal that was finished or a query that failed for good.
   */
  lemma FlowExact(s: State, run: seq<Action>, a: Action)
    requires Quiet(s) && PossibleRun(s, run) && !a.Spawn? && a.t < |After(s, run).threads|
    ensures var r, own := After(s, run), Own(run, a.t);
            && (Enabled(r, a) <==> Follows(Last(own), Open(own), a) && Allowed(r, a))
            && r.threads[a.t].depth == (if Open(own) == 0 then 0 else Open(own) - 1)
            && (r.threads[a.t].pc.Idle? && Last(own).Some? && !Last(own).value.Clean? ==>
                  Open(own) == 0 && Final(Outcome(own)))
  {
    hide Enabled, Next, Follows, Allowed, PossibleRun, After, Stands, Open, Outcome, Last, Own, Fits;
    var t, own := a.t, Own(run, a.t);
    IdleStands(s, t);
    StandsAfter(s, run, t, []);
    assert [] + own == own;
    QuietInv(s);
    RunKeepsInv(s, run);
    FitsFollows(After(s, run).threads[t], own, a);
    FitsEnabled(After(s, run), a);
  }

  lemma IdleStands(s: State, t: nat)
    requires Quiet(s)
    ensures Stands(ThreadAt(s, t), [])
  {
  }
}
