/** In which order one query goes through `UidEndpoint`, told by its own steps alone. */
module QueryFlow {
  import opened Sequences
  import P = ProxyAccounting
  import opened ProxyNetwork

  /** A step that query `q` takes in its handler. */
  predicate IsBy(e: Step, q: nat) {
    (e.Refuse? || e.Admit? || e.Pass? || e.Choose? || e.Suspend? || e.List? || e.Tell? || e.NextKey? || e.Finish?
     || e.Fail?) && e.q == q
  }

  function Own(run: seq<Step>, q: nat): seq<Step> {
    if run == [] then [] else (if IsBy(run[0], q) then [run[0]] else []) + Own(run[1..], q)
  }

  function Last(own: seq<Step>): Option<Step> {
    if own == [] then None else Some(own[|own| - 1])
  }

  /** Which step may follow which; a refusal, an answer, the end of a migration and an error are the last ones. */
  predicate Follows(last: Option<Step>, e: Step) {
    match last
    case None => e.Refuse? || e.Admit?
    case Some(Admit(_)) => e.Pass?
    case Some(Pass(_)) => e.Choose? || e.Suspend?
    case Some(Suspend(_)) => e.List? || e.Fail?
    case Some(List(_, _)) => e.Tell? || e.NextKey? || e.Finish? || e.Fail?
    case Some(Tell(_, _)) => e.Tell? || e.NextKey? || e.Finish? || e.Fail?
    case Some(NextKey(_)) => e.Tell? || e.NextKey? || e.Finish? || e.Fail?
    case _ => false
  }

  /** What the pauses, the cleanings and the kind of reply have to allow for a step that is due. */
  predicate Allowed(s: Net, q: nat, e: Step)
    requires q < |s.queries|
  {
    match e
    case Refuse(_, reply) => !reply.Endpoint?
    case Choose(_, reply) => !reply.NoLeader?
    case Pass(_) => User(s, q) !in s.paused
    case Tell(_, c) =>
      && Swept(s, q) && s.queries[q].pc.left > 0 && s.queries[q].pc.i < |s.registered|
      && Acts(s, s.registered[s.queries[q].pc.i], P.StartClean(c, q))
    case NextKey(_) => Swept(s, q) && s.queries[q].pc.left > 0 && s.queries[q].pc.i == |s.registered|
    case Finish(_, reply) => Swept(s, q) && s.queries[q].pc.left == 0 && !reply.NoLeader?
    case _ => true
  }

  /** Where its steps have brought the query. */
  predicate Stands(pc: QueryPc, own: seq<Step>) {
    match Last(own)
    case None => pc.Sent?
    case Some(Admit(_)) => pc.Door?
    case Some(Pass(_)) => pc.Choosing?
    case Some(Suspend(_)) => pc.Listing?
    case Some(List(_, _)) => pc.Sweeping?
    case Some(Tell(_, _)) => pc.Sweeping?
    case Some(NextKey(_)) => pc.Sweeping?
    case _ => pc.Done?
  }

  lemma OwnStep(s: Net, e: Step, q: nat, own: seq<Step>)
    requires Enabled(s, e) && q < |s.queries| && IsBy(e, q) && Stands(s.queries[q].pc, own)
    ensures q < |Next(s, e).queries| && Stands(Next(s, e).queries[q].pc, own + [e])
  {
    hide P.Enabled, P.Next;
  }

  lemma OtherStep(s: Net, e: Step, q: nat, own: seq<Step>)
    requires Enabled(s, e) && q < |s.queries| && !IsBy(e, q) && !e.Crash? && Stands(s.queries[q].pc, own)
    ensures q < |Next(s, e).queries| && Stands(Next(s, e).queries[q].pc, own)
  {
    hide P.Enabled, P.Next;
    QueriesGrow(s, e);
  }

  /** A query takes no step before it is sent. */
  lemma NoStepBefore(s: Net, e: Step, q: nat)
    requires Enabled(s, e) && |s.queries| <= q
    ensures !IsBy(e, q)
  {
    hide P.Enabled;
  }

  predicate NoCrash(run: seq<Step>) {
    forall i :: 0 <= i < |run| ==> !run[i].Crash?
  }

  lemma OwnSplits(run: seq<Step>, q: nat, own: seq<Step>)
    ensures own + Own(run, q) ==
      if run == [] then own
      else if IsBy(run[0], q) then own + [run[0]] + Own(run[1..], q)
      else own + Own(run[1..], q)
  {
    hide IsBy;
    if run != [] {
      var rest := Own(run[1..], q);
      if IsBy(run[0], q) {
        Regroup(own, run[0], rest);
      } else {
        assert [] + rest == rest;
      }
    }
  }

  lemma Regroup(a: seq<Step>, e: Step, b: seq<Step>)
    ensures a + ([e] + b) == a + [e] + b
  {
  }

  lemma {:induction false} StandsAfter(s: Net, run: seq<Step>, q: nat, own: seq<Step>)
    requires PossibleRun(s, run) && NoCrash(run) && q < |After(s, run).queries|
    requires if q < |s.queries| then Stands(s.queries[q].pc, own) else own == []
    ensures Stands(After(s, run).queries[q].pc, own + Own(run, q))
    decreases run
  {
    hide Enabled, Next, Stands, IsBy;
    OwnSplits(run, q, own);
    if run == [] {
      assert Own(run, q) == [];
    } else {
      var e, r := run[0], Next(s, run[0]);
      if q >= |s.queries| {
        NoStepBefore(s, e, q);
        if q < |r.queries| {
          NewQuery(s, e, q);
          SentStands(r.queries[q].pc);
        }
        StandsAfter(r, run[1..], q, own);
      } else if IsBy(e, q) {
        OwnStep(s, e, q, own);
        StandsAfter(r, run[1..], q, own + [e]);
      } else {
        OtherStep(s, e, q, own);
        StandsAfter(r, run[1..], q, own);
      }
    }
  }

  lemma SentStands(pc: QueryPc)
    requires pc.Sent?
    ensures Stands(pc, [])
  {
  }

  lemma DueExact(s: Net, q: nat, own: seq<Step>, e: Step)
    requires q < |s.queries| && Stands(s.queries[q].pc, own) && IsBy(e, q)
    ensures Enabled(s, e) <==> Follows(Last(own), e) && Allowed(s, q, e)
  {
    hide P.Enabled;
  }

  /**
   * After any run from rest on which no dash server dies, a query can take exactly the steps that follow
   * its own last one and that pauses and cleanings allow.
   */
  lemma FlowExact(s: Net, run: seq<Step>, q: nat, e: Step)
    requires Quiet(s) && PossibleRun(s, run) && NoCrash(run) && q < |After(s, run).queries| && IsBy(e, q)
    ensures Enabled(After(s, run), e) <==> Follows(Last(Own(run, q)), e) && Allowed(After(s, run), q, e)
  {
    hide Enabled, Next, Stands, Follows, Allowed, PossibleRun, After, IsBy;
    StandsAfter(s, run, q, []);
    assert [] + Own(run, q) == Own(run, q);
    DueExact(After(s, run), q, Own(run, q), e);
  }
}
