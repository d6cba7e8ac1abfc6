/**
 * Any number of proxies and dash servers. A proxy keeps its cache lock for as long as its query is under
 * way at a dash server; a query may be paused behind another one for the same user, and a migrating query
 * waits for the caches of the registered proxies to be cleaned.
 */
module ProxyNetwork {
  import opened Sequences
  import opened Tallies
  import P = ProxyAccounting

  /**
   * Where a query is in `UidEndpoint`. While it sweeps, `left` keys of the listing are still to be cleaned,
   * the current one at the `i`-th registered proxy; `told` means that this proxy's cleaning has been sent
   * and has not been answered.
   */
  datatype QueryPc =
    | Sent                  // not yet past the leader check
    | Door                  // waitUid: waits while its user is paused
    | Choosing              // reads the entry, asks the ring, checks the new server
    | Listing               // has paused its user, lists the users of the old server
    | Sweeping(left: nat, i: nat, told: bool)
    | Done(reply: P.Reply)

  datatype Query = Query(dash: nat, uid: string, pc: QueryPc)

  /** `paused` has the users that each dash server's `proxyPauseMap` pauses. */
  datatype Net = Net(proxies: seq<P.State>, registered: seq<nat>, queries: seq<Query>, paused: set<(nat, string)>)

  datatype Step =
    | Local(p: nat, a: P.Action)                          // anything a proxy does by itself
    | Ask(p: nat, t: nat, dash: nat, uid: string)         // uidEndpoint: the write lock, and the query is sent
    | Refuse(q: nat, reply: P.Reply)                      // no leader found, or not the leader
    | Admit(q: nat)                                       // the leader check is passed
    | Pass(q: nat)                                        // waitUid returns
    | Choose(q: nat, reply: P.Reply)                      // an answer without migration
    | Suspend(q: nat)                                     // uidSuspend
    | List(q: nat, keys: nat)                             // ListKeyByPrefix finds that many keys
    | Tell(q: nat, c: nat)                                // CleanUidCache is sent to the next registered proxy
    | NextKey(q: nat)                                     // all registered proxies have cleaned this key
    | Finish(q: nat, reply: P.Reply)                      // UidLogout, updateEpInfo, uidResume
    | Cleaned(p: nat, c: nat)                             // CleanUidCache returns
    | Hear(p: nat, t: nat)                                // the answer arrives at the asking proxy
    | Fail(q: nat)                                        // a listing or a cleaning reports an error
    | LoseReply(p: nat, t: nat)                           // the connection to the dash server breaks
    | Crash(dash: nat)                                    // a dash server dies, and all its queries with it

  /** The steps that only a failure outside the program makes happen. */
  predicate Breaks(e: Step) {
    e.Fail? || e.LoseReply? || e.Crash?
  }

  predicate LocalAction(a: P.Action) {
    !a.LockToAsk? && !a.Answer? && !a.StartClean? && !a.Clean?
  }

  predicate Acts(s: Net, p: nat, a: P.Action) {
    p < |s.proxies| && P.Enabled(s.proxies[p], a)
  }

  /** Query `q` waits for a cleaning that it has sent to proxy `p`. */
  predicate Awaits(s: Net, q: nat, p: nat) {
    && q < |s.queries| && s.queries[q].pc.Sweeping? && s.queries[q].pc.told
    && s.queries[q].pc.i < |s.registered| && s.registered[s.queries[q].pc.i] == p
  }

  predicate Answered(s: Net, p: nat, t: nat) {
    && p < |s.proxies| && t < |s.proxies[p].threads| && s.proxies[p].threads[t].pc.Asking?
    && s.proxies[p].threads[t].pc.q < |s.queries| && s.queries[s.proxies[p].threads[t].pc.q].pc.Done?
  }

  predicate IsAt(s: Net, q: nat, pc: QueryPc) {
    q < |s.queries| && s.queries[q].pc == pc
  }

  /** Every registered proxy has cleaned the present key, or there is none left to clean. */
  predicate Swept(s: Net, q: nat) {
    q < |s.queries| && s.queries[q].pc.Sweeping? && !s.queries[q].pc.told
  }

  function User(s: Net, q: nat): (nat, string)
    requires q < |s.queries|
  {
    (s.queries[q].dash, s.queries[q].uid)
  }

  predicate Enabled(s: Net, e: Step) {
    match e
    case Local(p, a) => LocalAction(a) && Acts(s, p, a)
    case Ask(p, t, _, _) => Acts(s, p, P.LockToAsk(t, |s.queries|))
    case Refuse(q, reply) => IsAt(s, q, Sent) && !reply.Endpoint?
    case Admit(q) => IsAt(s, q, Sent)
    case Pass(q) => IsAt(s, q, Door) && User(s, q) !in s.paused
    case Choose(q, reply) => IsAt(s, q, Choosing) && !reply.NoLeader?
    case Suspend(q) => IsAt(s, q, Choosing)
    case List(q, _) => IsAt(s, q, Listing)
    case Tell(q, c) =>
      && Swept(s, q) && s.queries[q].pc.left > 0 && s.queries[q].pc.i < |s.registered|
      && Acts(s, s.registered[s.queries[q].pc.i], P.StartClean(c, q))
    case NextKey(q) => Swept(s, q) && s.queries[q].pc.left > 0 && s.queries[q].pc.i == |s.registered|
    case Finish(q, reply) => Swept(s, q) && s.queries[q].pc.left == 0 && !reply.NoLeader?
    case Cleaned(p, c) => Acts(s, p, P.Clean(c))
    case Hear(p, t) => Answered(s, p, t)
    case Fail(q) => q < |s.queries| && (s.queries[q].pc.Listing? || s.queries[q].pc.Sweeping?)
    case LoseReply(p, t) => Acts(s, p, P.Answer(t, P.OtherError))
    case Crash(_) => true
  }

  function Act(s: Net, p: nat, a: P.Action): Net
    requires Acts(s, p, a)
  {
    s.(proxies := s.proxies[p := P.Next(s.proxies[p], a)])
  }

  function At(s: Net, q: nat, pc: QueryPc): Net
    requires q < |s.queries|
  {
    s.(queries := s.queries[q := s.queries[q].(pc := pc)])
  }

  /** The query is over and its user is resumed. */
  function Over(s: Net, q: nat, reply: P.Reply): Net
    requires q < |s.queries|
  {
    At(s, q, Done(reply)).(paused := s.paused - {User(s, q)})
  }

  function Crashed(x: Query, dash: nat): Query {
    if x.dash == dash && !x.pc.Done? then x.(pc := Done(P.OtherError)) else x
  }

  function Next(s: Net, e: Step): Net
    requires Enabled(s, e)
  {
    match e
    case Local(p, a) => Act(s, p, a)
    case Ask(p, t, dash, uid) =>
      Act(s, p, P.LockToAsk(t, |s.queries|)).(queries := s.queries + [Query(dash, uid, Sent)])
    case Refuse(q, reply) => At(s, q, Done(reply))
    case Admit(q) => At(s, q, Door)
    case Pass(q) => At(s, q, Choosing)
    case Choose(q, reply) => At(s, q, Done(reply))
    case Suspend(q) => At(s, q, Listing).(paused := s.paused + {User(s, q)})
    case List(q, keys) => At(s, q, Sweeping(keys, 0, false))
    case Tell(q, c) =>
      var x := s.queries[q].pc;
      At(Act(s, s.registered[x.i], P.StartClean(c, q)), q, x.(told := true))
    case NextKey(q) => At(s, q, Sweeping(s.queries[q].pc.left - 1, 0, false))
    case Finish(q, reply) => Over(s, q, reply)
    case Cleaned(p, c) =>
      var q := s.proxies[p].threads[c].pc.q;
      var r := Act(s, p, P.Clean(c));
      if Awaits(s, q, p) then At(r, q, Sweeping(s.queries[q].pc.left, s.queries[q].pc.i + 1, false)) else r
    case Hear(p, t) => Act(s, p, P.Answer(t, s.queries[s.proxies[p].threads[t].pc.q].pc.reply))
    case Fail(q) => Over(s, q, P.OtherError)
    case LoseReply(p, t) => Act(s, p, P.Answer(t, P.OtherError))
    case Crash(dash) =>
      s.(queries := seq(|s.queries|, k requires 0 <= k < |s.queries| => Crashed(s.queries[k], dash)),
         paused := set x | x in s.paused && x.0 != dash)
  }

  // ----- The invariant -----

  predicate AsksExisting(x: P.State, n: nat) {
    forall t :: 0 <= t < |x.threads| && x.threads[t].pc.Asking? ==> x.threads[t].pc.q < n
  }

  ghost predicate Proxies(s: Net) {
    forall p :: 0 <= p < |s.proxies| ==> P.Inv(s.proxies[p]) && AsksExisting(s.proxies[p], |s.queries|)
  }

  predicate Registered(s: Net) {
    forall k :: 0 <= k < |s.registered| ==> s.registered[k] < |s.proxies|
  }

  predicate Cleans(x: P.State, c: nat, q: nat) {
    c < |x.threads| && (x.threads[c].pc == P.WantClean(q) || x.threads[c].pc == P.Cleaning(q))
  }

  ghost predicate HasCleaner(s: Net, p: nat, q: nat) {
    p < |s.proxies| && exists c: nat :: Cleans(s.proxies[p], c, q)
  }

  /** A cleaning that a query waits for is under way at the right proxy. */
  ghost predicate Sweeps(s: Net) {
    forall q :: 0 <= q < |s.queries| && s.queries[q].pc.Sweeping? ==>
      var x := s.queries[q].pc;
      && x.i <= |s.registered| && (x.left == 0 ==> x.i == 0 && !x.told)
      && (x.told ==> x.i < |s.registered| && HasCleaner(s, s.registered[x.i], q))
  }

  predicate Suspends(x: Query, user: (nat, string)) {
    (x.dash, x.uid) == user && (x.pc.Listing? || x.pc.Sweeping?)
  }

  ghost predicate Suspended(s: Net, user: (nat, string)) {
    exists q :: 0 <= q < |s.queries| && Suspends(s.queries[q], user)
  }

  /** Whoever is paused will be resumed by a query that is under way. */
  ghost predicate Suspenders(s: Net) {
    forall user :: user in s.paused ==> Suspended(s, user)
  }

  ghost predicate Inv(s: Net) {
    Proxies(s) && Registered(s) && Sweeps(s) && Suspenders(s)
  }

  lemma ActKeeps(x: P.State, a: P.Action, n: nat, m: nat)
    requires P.Inv(x) && P.Enabled(x, a) && AsksExisting(x, n) && n <= m && (a.LockToAsk? ==> a.q < m)
    ensures P.Inv(P.Next(x, a)) && AsksExisting(P.Next(x, a), m)
  {
    hide P.Inv;
    P.StepKeepsInv(x, a);
  }

  /** The step of a proxy that a step of the network contains, if any. */
  function Acting(s: Net, e: Step): (r: Option<(nat, P.Action)>)
    requires Enabled(s, e)
    ensures r.Some? ==> Acts(s, r.value.0, r.value.1) && Next(s, e).proxies == Act(s, r.value.0, r.value.1).proxies
    ensures r.None? ==> Next(s, e).proxies == s.proxies
    ensures r.Some? && r.value.1.LockToAsk? ==> e.Ask?
    ensures r.Some? && r.value.1.Clean? ==> e.Cleaned? && e.p == r.value.0 && e.c == r.value.1.t
    ensures r.Some? && r.value.1.Answer? ==> (e.Hear? || e.LoseReply?) && e.p == r.value.0 && e.t == r.value.1.t
  {
    match e
    case Local(p, a) => Some((p, a))
    case Ask(p, t, _, _) => Some((p, P.LockToAsk(t, |s.queries|)))
    case Tell(q, c) => Some((s.registered[s.queries[q].pc.i], P.StartClean(c, q)))
    case Cleaned(p, c) => Some((p, P.Clean(c)))
    case Hear(p, t) => Some((p, P.Answer(t, s.queries[s.proxies[p].threads[t].pc.q].pc.reply)))
    case LoseReply(p, t) => Some((p, P.Answer(t, P.OtherError)))
    case _ => None
  }

  lemma StepKeepsProxies(s: Net, e: Step)
    requires Inv(s) && Enabled(s, e)
    ensures Proxies(Next(s, e)) && Registered(Next(s, e))
  {
    hide P.Inv, P.Enabled, P.Next, Sweeps, Suspenders, AsksExisting, Enabled, Next;
    var n, m := |s.queries|, |Next(s, e).queries|;
    QueriesGrow(s, e);
    var act := Acting(s, e);
    forall p | 0 <= p < |Next(s, e).proxies|
      ensures P.Inv(Next(s, e).proxies[p]) && AsksExisting(Next(s, e).proxies[p], m)
    {
      if act.Some? && act.value.0 == p {
        if act.value.1.LockToAsk? {
          AskIsLast(s, e);
        }
        ActKeeps(s.proxies[p], act.value.1, n, m);
      } else {
        AsksMore(s.proxies[p], n, m);
      }
    }
  }

  lemma AsksMore(x: P.State, n: nat, m: nat)
    requires AsksExisting(x, n) && n <= m
    ensures AsksExisting(x, m)
  {
  }

  lemma AskIsLast(s: Net, e: Step)
    requires Enabled(s, e) && Acting(s, e).Some? && Acting(s, e).value.1.LockToAsk?
    ensures Acting(s, e).value.1.q < |Next(s, e).queries|
  {
  }

  lemma QueriesGrow(s: Net, e: Step)
    requires Enabled(s, e)
    ensures |s.queries| <= |Next(s, e).queries| && Next(s, e).registered == s.registered
    ensures |Next(s, e).proxies| == |s.proxies|
  {
  }

  // ----- Cleanings and pauses stay in place -----

  /** A cleaning that is under way stays so until it returns. */
  lemma CleanerStays(s: Net, e: Step, p: nat, q: nat)
    requires Enabled(s, e) && HasCleaner(s, p, q)
    requires e.Cleaned? ==> e.p != p || s.proxies[p].threads[e.c].pc.q != q
    ensures HasCleaner(Next(s, e), p, q)
  {
    hide Enabled, Next, P.Enabled, P.Next;
    QueriesGrow(s, e);
    var c: nat :| Cleans(s.proxies[p], c, q);
    var act := Acting(s, e);
    if act.Some? && act.value.0 == p {
      CleansOn(s.proxies[p], act.value.1, c, q);
    }
    assert Cleans(Next(s, e).proxies[p], c, q);
  }

  lemma CleansOn(x: P.State, a: P.Action, c: nat, q: nat)
    requires P.Enabled(x, a) && Cleans(x, c, q) && !(a.Clean? && a.t == c)
    ensures Cleans(P.Next(x, a), c, q)
  {
  }

  lemma StepKeepsSweeps(s: Net, e: Step)
    requires Inv(s) && Enabled(s, e)
    ensures Sweeps(Next(s, e))
  {
    hide P.Inv, Suspenders, HasCleaner, Acting;
    var r := Next(s, e);
    forall q | 0 <= q < |r.queries| && r.queries[q].pc.Sweeping?
      ensures var x := r.queries[q].pc;
              && x.i <= |r.registered| && (x.left == 0 ==> x.i == 0 && !x.told)
              && (x.told ==> x.i < |r.registered| && HasCleaner(r, r.registered[x.i], q))
    {
      var x := r.queries[q].pc;
      if x.told {
        if e.Tell? && e.q == q {
          NewCleaner(s, e);
        } else {
          assert q < |s.queries| && s.queries[q].pc == x;
          CleanerStays(s, e, s.registered[x.i], q);
        }
      }
    }
  }

  lemma NewCleaner(s: Net, e: Step)
    requires Enabled(s, e) && e.Tell?
    ensures HasCleaner(Next(s, e), s.registered[s.queries[e.q].pc.i], e.q)
  {
    assert Cleans(Next(s, e).proxies[s.registered[s.queries[e.q].pc.i]], e.c, e.q);
  }

  lemma StepKeepsSuspenders(s: Net, e: Step)
    requires Inv(s) && Enabled(s, e)
    ensures Suspenders(Next(s, e))
  {
    hide P.Inv, P.Enabled, P.Next, Sweeps, Proxies, Suspended;
    var r := Next(s, e);
    forall user | user in r.paused
      ensures Suspended(r, user)
    {
      if e.Suspend? && user == User(s, e.q) {
        NewSuspender(s, e);
      } else {
        SuspenderStays(s, e, user);
      }
    }
  }

  lemma NewSuspender(s: Net, e: Step)
    requires Enabled(s, e) && e.Suspend?
    ensures Suspended(Next(s, e), User(s, e.q))
  {
    assert Suspends(Next(s, e).queries[e.q], User(s, e.q));
  }

  lemma SuspenderStays(s: Net, e: Step, user: (nat, string))
    requires Enabled(s, e) && Suspended(s, user) && user in Next(s, e).paused
    ensures Suspended(Next(s, e), user)
  {
    hide P.Enabled, P.Next;
    QueriesGrow(s, e);
    var q :| 0 <= q < |s.queries| && Suspends(s.queries[q], user);
    assert e.Crash? ==> s.queries[q].dash != e.dash;
    assert Suspends(Next(s, e).queries[q], user);
  }

  lemma StepKeepsInv(s: Net, e: Step)
    requires Inv(s) && Enabled(s, e)
    ensures Inv(Next(s, e))
  {
    hide Enabled, Next, Proxies, Registered, Sweeps, Suspenders;
    StepKeepsProxies(s, e);
    StepKeepsSweeps(s, e);
    StepKeepsSuspenders(s, e);
  }

  // ----- Who waits for whom -----

  /** A query past `waitUid`; whoever of them has paused the user, or still may, resumes it at the end. */
  predicate Inside(s: Net, q: nat, user: (nat, string)) {
    && q < |s.queries| && User(s, q) == user
    && (s.queries[q].pc.Choosing? || s.queries[q].pc.Listing? || s.queries[q].pc.Sweeping?)
  }

  /** The query has still to clean the cache of proxy `p`. */
  predicate Needs(s: Net, q: nat, p: nat) {
    && q < |s.queries| && s.queries[q].pc.Sweeping? && s.queries[q].pc.left > 0
    && exists k :: 0 <= k < |s.registered| && s.registered[k] == p
                   && (s.queries[q].pc.left > 1 || s.queries[q].pc.i <= k)
  }

  /** The cache lock of `p` is kept for a query of `waiting`. */
  ghost predicate HeldIn(s: Net, p: nat, waiting: set<nat>) {
    p < |s.proxies| && exists t :: 0 <= t < |s.proxies[p].threads| && AsksIn(s.proxies[p].threads[t].pc, waiting)
  }

  predicate AsksIn(pc: P.Pc, waiting: set<nat>) {
    pc.Asking? && pc.q in waiting
  }

  /** Only queries of `waiting` could let this one go on. */
  ghost predicate Blocked(s: Net, q: nat, waiting: set<nat>)
    requires q < |s.queries|
  {
    match s.queries[q].pc
    case Door => User(s, q) in s.paused && forall r :: Inside(s, r, User(s, q)) ==> r in waiting
    case Sweeping(_, _, _) => exists p :: Needs(s, q, p) && HeldIn(s, p, waiting)
    case _ => false
  }

  /** Queries that wait for nobody but each other. */
  ghost predicate Knot(s: Net, waiting: set<nat>) {
    forall q :: q in waiting ==> q < |s.queries| && Blocked(s, q, waiting)
  }

  ghost predicate Stuck(s: Net, q: nat) {
    exists waiting: set<nat> :: q in waiting && Knot(s, waiting)
  }

  /** The cache lock of `p` is kept for a query that is in a knot. */
  ghost predicate StuckLock(s: Net, p: nat) {
    exists waiting: set<nat> :: Knot(s, waiting) && HeldIn(s, p, waiting)
  }

  // ----- A knot never comes loose by itself -----

  predicate NoneDone(s: Net, waiting: set<nat>) {
    forall q :: q in waiting && q < |s.queries| ==> !s.queries[q].pc.Done?
  }

  lemma KnotIsNotDone(s: Net, waiting: set<nat>)
    requires Knot(s, waiting)
    ensures NoneDone(s, waiting)
  {
    hide HeldIn;
  }

  lemma HeldStays(s: Net, e: Step, waiting: set<nat>, p: nat)
    requires Enabled(s, e) && !Breaks(e) && NoneDone(s, waiting) && HeldIn(s, p, waiting)
    ensures HeldIn(Next(s, e), p, waiting)
  {
    hide Enabled, Next, P.Enabled, P.Next;
    QueriesGrow(s, e);
    var t :| 0 <= t < |s.proxies[p].threads| && AsksIn(s.proxies[p].threads[t].pc, waiting);
    var act := Acting(s, e);
    if act.Some? && act.value.0 == p {
      NotHeard(s, e, waiting, t);
      AsksOn(s.proxies[p], act.value.1, t);
    }
    assert AsksIn(Next(s, e).proxies[p].threads[t].pc, waiting);
  }

  lemma AsksOn(x: P.State, a: P.Action, t: nat)
    requires P.Enabled(x, a) && t < |x.threads| && x.threads[t].pc.Asking? && !(a.Answer? && a.t == t)
    ensures t < |P.Next(x, a).threads| && P.Next(x, a).threads[t] == x.threads[t]
  {
  }

  /** The answer to a query that is not done does not arrive. */
  lemma NotHeard(s: Net, e: Step, waiting: set<nat>, t: nat)
    requires Enabled(s, e) && !Breaks(e) && NoneDone(s, waiting) && Acting(s, e).Some?
    requires var p := Acting(s, e).value.0;
             t < |s.proxies[p].threads| && AsksIn(s.proxies[p].threads[t].pc, waiting)
    ensures !(Acting(s, e).value.1.Answer? && Acting(s, e).value.1.t == t)
  {
    hide P.Enabled, P.Next;
  }

  lemma SweepStep(s: Net, e: Step, q: nat)
    requires Enabled(s, e) && !Breaks(e) && q < |s.queries| && s.queries[q].pc.Sweeping? && s.queries[q].pc.left > 0
    ensures q < |Next(s, e).queries| && User(Next(s, e), q) == User(s, q) && Next(s, e).queries[q].pc.Sweeping?
    ensures var x, y := s.queries[q].pc, Next(s, e).queries[q].pc;
            || (y.left == x.left && y.i == x.i)
            || (y.left == x.left - 1 && x.i == |s.registered| && y.i == 0)
            || (y.left == x.left && y.i == x.i + 1 && e.Cleaned? && Awaits(s, q, e.p))
  {
    hide P.Enabled, P.Next;
    QueriesGrow(s, e);
  }

  /** No cleaning returns from a proxy whose lock is kept for a query. */
  lemma NotCleaned(s: Net, e: Step, p: nat, waiting: set<nat>)
    requires Inv(s) && Enabled(s, e) && e.Cleaned? && HeldIn(s, p, waiting)
    ensures e.p != p
  {
    hide P.Inv;
    if e.p == p {
      var t :| 0 <= t < |s.proxies[p].threads| && AsksIn(s.proxies[p].threads[t].pc, waiting);
      P.OneHolder(s.proxies[p], e.c, t);
    }
  }

  lemma NeedsStays(s: Net, e: Step, q: nat, p: nat, waiting: set<nat>)
    requires Inv(s) && Enabled(s, e) && !Breaks(e) && Needs(s, q, p) && HeldIn(s, p, waiting)
    ensures Needs(Next(s, e), q, p)
  {
    hide Inv, Enabled, Next, HeldIn;
    QueriesGrow(s, e);
    SweepStep(s, e, q);
    if e.Cleaned? {
      NotCleaned(s, e, p, waiting);
    }
    var k :| 0 <= k < |s.registered| && s.registered[k] == p && (s.queries[q].pc.left > 1 || s.queries[q].pc.i <= k);
    assert Next(s, e).registered[k] == p;
  }

  /** What one step does to one query. */
  lemma QueryStep(s: Net, e: Step, q: nat)
    requires Enabled(s, e) && q < |s.queries|
    ensures q < |Next(s, e).queries| && User(Next(s, e), q) == User(s, q)
    ensures var x, y := s.queries[q].pc, Next(s, e).queries[q].pc;
            || y == x || (y.Done? && !x.Done?) || (x.Sent? && y.Door?)
            || (x.Door? && y.Choosing? && User(s, q) !in s.paused)
            || (x.Choosing? && y.Listing?) || (x.Listing? && y.Sweeping?) || (x.Sweeping? && y.Sweeping?)
  {
    hide P.Enabled, P.Next;
    QueriesGrow(s, e);
  }

  lemma NewQuery(s: Net, e: Step, q: nat)
    requires Enabled(s, e) && |s.queries| <= q < |Next(s, e).queries|
    ensures e.Ask? && q == |s.queries| && Next(s, e).queries[q].pc.Sent?
  {
  }

  /** Nobody gets past `waitUid` for a user that is paused. */
  lemma InsideBefore(s: Net, e: Step, r: nat, user: (nat, string))
    requires Enabled(s, e) && user in s.paused && Inside(Next(s, e), r, user)
    ensures Inside(s, r, user)
  {
    hide Enabled, Next;
    if r < |s.queries| {
      QueryStep(s, e, r);
    } else {
      NewQuery(s, e, r);
    }
  }

  lemma NotResumed(s: Net, e: Step, user: (nat, string), waiting: set<nat>)
    requires Enabled(s, e) && !Breaks(e) && Knot(s, waiting) && user in s.paused
    requires forall r :: Inside(s, r, user) ==> r in waiting
    ensures user in Next(s, e).paused
  {
    hide P.Enabled, P.Next, HeldIn;
    assert e.Finish? ==> Inside(s, e.q, User(s, e.q));
  }

  lemma PausedStays(s: Net, e: Step, q: nat, waiting: set<nat>)
    requires Enabled(s, e) && !Breaks(e) && Knot(s, waiting) && q in waiting && s.queries[q].pc.Door?
    ensures q < |Next(s, e).queries| && User(Next(s, e), q) == User(s, q) && Next(s, e).queries[q].pc.Door?
    ensures User(s, q) in Next(s, e).paused
    ensures forall r :: Inside(Next(s, e), r, User(s, q)) ==> r in waiting
  {
    hide P.Enabled, P.Next, HeldIn;
    QueriesGrow(s, e);
    var user := User(s, q);
    QueryStep(s, e, q);
    NotResumed(s, e, user, waiting);
    forall r | Inside(Next(s, e), r, user)
      ensures r in waiting
    {
      InsideBefore(s, e, r, user);
    }
  }

  lemma KnotStays(s: Net, e: Step, waiting: set<nat>)
    requires Inv(s) && Enabled(s, e) && !Breaks(e) && Knot(s, waiting)
    ensures Knot(Next(s, e), waiting)
  {
    hide Inv, Enabled, Next, HeldIn, Needs, Inside;
    QueriesGrow(s, e);
    KnotIsNotDone(s, waiting);
    forall q | q in waiting
      ensures q < |Next(s, e).queries| && Blocked(Next(s, e), q, waiting)
    {
      if s.queries[q].pc.Door? {
        PausedStays(s, e, q, waiting);
      } else {
        var p :| Needs(s, q, p) && HeldIn(s, p, waiting);
        HeldStays(s, e, waiting, p);
        NeedsStays(s, e, q, p, waiting);
        NeedsMeans(Next(s, e), q, p);
      }
    }
  }

  lemma NeedsMeans(s: Net, q: nat, p: nat)
    requires Needs(s, q, p)
    ensures q < |s.queries| && s.queries[q].pc.Sweeping? && s.queries[q].pc.left > 0
  {
  }

  // ----- Whole runs -----

  ghost predicate PossibleRun(s: Net, run: seq<Step>)
    decreases run
  {
    run == [] || (Enabled(s, run[0]) && PossibleRun(Next(s, run[0]), run[1..]))
  }

  function After(s: Net, run: seq<Step>): Net
    requires PossibleRun(s, run)
    decreases run
  {
    if run == [] then s else After(Next(s, run[0]), run[1..])
  }

  /** No connection breaks, no call fails, no dash server dies. */
  predicate Unbroken(run: seq<Step>) {
    forall i :: 0 <= i < |run| ==> !Breaks(run[i])
  }

  lemma {:induction false} RunKeepsInv(s: Net, run: seq<Step>)
    requires Inv(s) && PossibleRun(s, run)
    ensures Inv(After(s, run))
    decreases run
  {
    hide Inv, Enabled, Next;
    if run != [] {
      StepKeepsInv(s, run[0]);
      RunKeepsInv(Next(s, run[0]), run[1..]);
    }
  }

  lemma {:induction false} RunConcat(s: Net, a: seq<Step>, b: seq<Step>)
    requires PossibleRun(s, a) && PossibleRun(After(s, a), b)
    ensures PossibleRun(s, a + b) && After(s, a + b) == After(After(s, a), b)
    decreases a
  {
    hide Enabled, Next;
    if a == [] {
      assert a + b == b;
    } else {
      assert (a + b)[1..] == a[1..] + b;
      RunConcat(Next(s, a[0]), a[1..], b);
    }
  }

  lemma OneStep(s: Net, e: Step)
    requires Enabled(s, e)
    ensures PossibleRun(s, [e]) && After(s, [e]) == Next(s, e)
  {
    hide Enabled, Next;
    assert [e][1..] == [];
    assert PossibleRun(Next(s, e), []) && After(Next(s, e), []) == Next(s, e);
  }

  lemma {:induction false} KnotForever(s: Net, run: seq<Step>, waiting: set<nat>)
    requires Inv(s) && PossibleRun(s, run) && Unbroken(run) && Knot(s, waiting)
    ensures Knot(After(s, run), waiting)
    ensures forall p :: HeldIn(s, p, waiting) ==> HeldIn(After(s, run), p, waiting)
    decreases run
  {
    hide Inv, Enabled, Next, Knot, HeldIn, Breaks;
    if run != [] {
      var e := run[0];
      StepKeepsInv(s, e);
      KnotStays(s, e, waiting);
      KnotIsNotDone(s, waiting);
      forall p | HeldIn(s, p, waiting)
        ensures HeldIn(Next(s, e), p, waiting)
      {
        HeldStays(s, e, waiting, p);
      }
      KnotForever(Next(s, e), run[1..], waiting);
    }
  }

  lemma HeldIsLocked(s: Net, p: nat, waiting: set<nat>)
    requires Inv(s) && HeldIn(s, p, waiting)
    ensures p < |s.proxies| && s.proxies[p].writer
  {
    var t :| 0 <= t < |s.proxies[p].threads| && AsksIn(s.proxies[p].threads[t].pc, waiting);
    TallyAtLeast(s.proxies[p].threads, t, P.WriterShare());
  }

  /** A lock that is kept for a query in a knot stays locked through every run in which nothing breaks. */
  lemma HeldForever(s: Net, run: seq<Step>, p: nat)
    requires Inv(s) && PossibleRun(s, run) && Unbroken(run) && StuckLock(s, p)
    ensures StuckLock(After(s, run), p) && p < |After(s, run).proxies| && After(s, run).proxies[p].writer
  {
    hide Inv, Knot, HeldIn, After, PossibleRun;
    var waiting: set<nat> :| Knot(s, waiting) && HeldIn(s, p, waiting);
    KnotForever(s, run, waiting);
    RunKeepsInv(s, run);
    HeldIsLocked(After(s, run), p, waiting);
  }

  // ----- Whatever is in no knot can be finished -----

  /** Past `waitUid`, and waiting for nobody. */
  predicate Free(pc: QueryPc) {
    pc.Choosing? || pc.Listing? || (pc.Sweeping? && pc.left == 0)
  }

  ghost predicate FreeInside(s: Net, user: (nat, string)) {
    exists q :: 0 <= q < |s.queries| && Inside(s, q, user) && Free(s.queries[q].pc)
  }

  ghost predicate NeedsLess(r: Net, s: Net, q: nat) {
    forall p :: Needs(r, q, p) ==> Needs(s, q, p)
  }

  /** Nothing that `q` does between `s` and `r` blocks anybody. */
  ghost predicate QuerySettles(s: Net, r: Net, q: nat)
    requires q < |s.queries| && q < |r.queries|
  {
    var x, y := s.queries[q].pc, r.queries[q].pc;
    && User(r, q) == User(s, q)
    && (|| y == x
        || (y.Done? && (Inside(s, q, User(s, q)) ==> User(s, q) !in r.paused))
        || Free(y)
        || (x.Sweeping? && y.Sweeping? && NeedsLess(r, s, q)))
  }

  predicate ProxySettles(x: P.State, y: P.State) {
    forall t :: 0 <= t < |y.threads| && y.threads[t].pc.Asking? ==>
      t < |x.threads| && x.threads[t].pc == y.threads[t].pc
  }

  ghost predicate Settles(s: Net, r: Net) {
    && r.registered == s.registered && |r.queries| == |s.queries| && |r.proxies| == |s.proxies|
    && (forall user :: user in r.paused ==> user in s.paused || FreeInside(r, user))
    && (forall q :: 0 <= q < |s.queries| ==> QuerySettles(s, r, q))
    && (forall p :: 0 <= p < |s.proxies| ==> ProxySettles(s.proxies[p], r.proxies[p]))
  }

  /** Every knot of `r` is one of `s`, and holds the same locks there. */
  ghost predicate Loosens(s: Net, r: Net) {
    && |r.queries| == |s.queries| && |r.proxies| == |s.proxies|
    && (forall waiting: set<nat> :: Knot(r, waiting) ==> Knot(s, waiting))
    && (forall p, waiting: set<nat> :: HeldIn(r, p, waiting) ==> HeldIn(s, p, waiting))
  }

  lemma HeldBefore(s: Net, r: Net, p: nat, waiting: set<nat>)
    requires Settles(s, r) && HeldIn(r, p, waiting)
    ensures HeldIn(s, p, waiting)
  {
    hide QuerySettles, FreeInside;
    var t :| 0 <= t < |r.proxies[p].threads| && AsksIn(r.proxies[p].threads[t].pc, waiting);
    assert AsksIn(s.proxies[p].threads[t].pc, waiting);
  }

  lemma BlockedBefore(s: Net, r: Net, q: nat, waiting: set<nat>)
    requires Settles(s, r) && Knot(r, waiting) && q in waiting
    ensures q < |s.queries| && Blocked(s, q, waiting)
  {
    hide HeldIn, ProxySettles;
    assert QuerySettles(s, r, q);
    if r.queries[q].pc.Door? {
      var user := User(s, q);
      assert !FreeInside(r, user);
      forall x | Inside(s, x, user)
        ensures x in waiting
      {
        assert QuerySettles(s, r, x);
        assert Inside(r, x, user);
      }
    } else {
      var p :| Needs(r, q, p) && HeldIn(r, p, waiting);
      HeldBefore(s, r, p, waiting);
      assert Needs(s, q, p);
    }
  }

  lemma SettlesLoosens(s: Net, r: Net)
    requires Settles(s, r)
    ensures Loosens(s, r)
  {
    hide Settles, HeldIn, Blocked;
    SettlesSizes(s, r);
    forall waiting: set<nat> | Knot(r, waiting)
      ensures Knot(s, waiting)
    {
      forall q | q in waiting
        ensures q < |s.queries| && Blocked(s, q, waiting)
      {
        BlockedBefore(s, r, q, waiting);
      }
    }
    forall p, waiting: set<nat> | HeldIn(r, p, waiting)
      ensures HeldIn(s, p, waiting)
    {
      HeldBefore(s, r, p, waiting);
    }
  }

  lemma SettlesSizes(s: Net, r: Net)
    requires Settles(s, r)
    ensures |r.queries| == |s.queries| && |r.proxies| == |s.proxies|
  {
  }

  /** The steps that bring nobody new into the game. */
  predicate Settling(e: Step) {
    !Breaks(e) && !e.Ask? && !e.Admit? && !e.Choose? && (e.List? ==> e.keys == 0)
  }

  lemma StepSettlesQuery(s: Net, e: Step, q: nat)
    requires Inv(s) && Enabled(s, e) && Settling(e) && q < |s.queries|
    ensures q < |Next(s, e).queries| && QuerySettles(s, Next(s, e), q)
  {
    hide P.Enabled, P.Next, Proxies, Suspenders;
    QueriesGrow(s, e);
  }

  lemma StepSettlesPaused(s: Net, e: Step, user: (nat, string))
    requires Enabled(s, e) && Settling(e) && user in Next(s, e).paused
    ensures user in s.paused || FreeInside(Next(s, e), user)
  {
    hide P.Enabled, P.Next;
    if e.Suspend? && user == User(s, e.q) {
      assert Inside(Next(s, e), e.q, user);
    }
  }

  lemma StepSettlesProxy(s: Net, e: Step, p: nat)
    requires Enabled(s, e) && Settling(e) && p < |s.proxies|
    ensures p < |Next(s, e).proxies| && ProxySettles(s.proxies[p], Next(s, e).proxies[p])
  {
    hide Enabled, Next;
    QueriesGrow(s, e);
    var act := Acting(s, e);
    assert act.Some? ==> !act.value.1.LockToAsk?;
  }

  lemma StepLoosens(s: Net, e: Step)
    requires Inv(s) && Enabled(s, e) && Settling(e)
    ensures Loosens(s, Next(s, e))
  {
    hide Inv, Enabled, Next, QuerySettles, FreeInside, ProxySettles, Loosens;
    QueriesGrow(s, e);
    SameQueries(s, e);
    var r := Next(s, e);
    forall q | 0 <= q < |s.queries|
      ensures QuerySettles(s, r, q)
    {
      StepSettlesQuery(s, e, q);
    }
    forall p | 0 <= p < |s.proxies|
      ensures ProxySettles(s.proxies[p], r.proxies[p])
    {
      StepSettlesProxy(s, e, p);
    }
    forall user | user in r.paused
      ensures user in s.paused || FreeInside(r, user)
    {
      StepSettlesPaused(s, e, user);
    }
    SettlesLoosens(s, r);
  }

  lemma SameQueries(s: Net, e: Step)
    requires Enabled(s, e) && !e.Ask?
    ensures |Next(s, e).queries| == |s.queries|
  {
  }

  // ----- The work that is left -----

  function Sweep(left: nat, n: nat): nat {
    if left == 0 then 0 else 2 * n + 1 + Sweep(left - 1, n)
  }

  /** At most so many steps of a query are left that do not wait for a proxy, with `n` proxies registered. */
  function QueryWork(n: nat): Query -> nat {
    (x: Query) =>
      match x.pc
      case Sent => 1
      case Door => 4
      case Choosing => 3
      case Listing => 2
      case Sweeping(left, i, told) =>
        1 + (if left == 0 || i > n then 0 else Sweep(left - 1, n) + 2 * (n - i) + (if told then 0 else 1))
      case Done(_) => 0
  }

  /** At most so many steps of a goroutine are left until it has given the lock, and its count, back. */
  function LockWork(): P.Thread -> nat {
    (th: P.Thread) =>
      match th.pc
      case WantClean(_) => 2
      case Calling => 2
      case Cleaning(_) => 1
      case Reading => 1
      case Asking(_) => 1
      case Dropping => 1
      case Leaving => 1
      case _ => 0
  }

  function ProxyWork(): P.State -> nat {
    (x: P.State) => Tally(x.threads, LockWork())
  }

  function QueriesLeft(s: Net): nat {
    Tally(s.queries, QueryWork(|s.registered|))
  }

  function LocksLeft(s: Net): nat {
    Tally(s.proxies, ProxyWork())
  }

  predicate Less(r: Net, s: Net) {
    QueriesLeft(r) < QueriesLeft(s) || (QueriesLeft(r) == QueriesLeft(s) && LocksLeft(r) < LocksLeft(s))
  }

  lemma AtWork(s: Net, q: nat, pc: QueryPc)
    requires q < |s.queries|
    ensures QueriesLeft(At(s, q, pc))
         == QueriesLeft(s) - QueryWork(|s.registered|)(s.queries[q])
            + QueryWork(|s.registered|)(s.queries[q].(pc := pc))
  {
    TallyUpdate(s.queries, q, s.queries[q].(pc := pc), QueryWork(|s.registered|));
  }

  lemma ActWork(s: Net, p: nat, a: P.Action)
    requires Acts(s, p, a)
    ensures LocksLeft(Act(s, p, a)) == LocksLeft(s) - LockWork()(P.Actor(s.proxies[p], a))
                                      + LockWork()(P.Next(s.proxies[p], a).threads[a.t])
    ensures QueriesLeft(Act(s, p, a)) == QueriesLeft(s)
  {
    hide P.Enabled, P.Next, Tally;
    P.StepTally(s.proxies[p], a, LockWork());
    TallyUpdate(s.proxies, p, P.Next(s.proxies[p], a), ProxyWork());
  }

  /** The steps of queries that do not wait for a proxy. */
  predicate QueryMoves(e: Step) {
    e.Refuse? || e.Pass? || e.Suspend? || (e.List? && e.keys == 0) || e.NextKey? || e.Finish?
  }

  lemma QueryMovesWork(s: Net, e: Step)
    requires Inv(s) && Enabled(s, e) && QueryMoves(e)
    ensures Less(Next(s, e), s)
  {
    hide P.Inv, Tally, HasCleaner, Suspenders, Proxies;
    AtWork(s, e.q, Next(s, e).queries[e.q].pc);
  }

  lemma TellWork(s: Net, e: Step)
    requires Inv(s) && Enabled(s, e) && e.Tell?
    ensures QueriesLeft(Next(s, e)) < QueriesLeft(s)
  {
    hide P.Inv, P.Enabled, P.Next, Tally, HasCleaner, Suspenders, Proxies;
    var p, x := s.registered[s.queries[e.q].pc.i], s.queries[e.q].pc;
    AtWork(Act(s, p, P.StartClean(e.c, e.q)), e.q, x.(told := true));
  }

  /** The steps of a proxy that lead to its lock. */
  predicate LockMoves(e: Step) {
    || e.Hear? || e.Cleaned?
    || (e.Local? && (e.a.RUnlock? || e.a.Drop? || e.a.Uncount? || e.a.LockToClean? || e.a == P.Deal(e.a.t, P.Finished)))
  }

  lemma LocalWork(s: Net, e: Step)
    requires Inv(s) && Enabled(s, e) && LockMoves(e) && !e.Cleaned?
    ensures Less(Next(s, e), s)
  {
    hide P.Inv, Tally, Sweeps, Suspenders, Registered;
    var act := Acting(s, e).value;
    ActWork(s, act.0, act.1);
  }

  lemma CleanedWork(s: Net, e: Step)
    requires Inv(s) && Enabled(s, e) && e.Cleaned?
    ensures Less(Next(s, e), s)
  {
    hide P.Inv, Tally, HasCleaner, Suspenders, Registered;
    var q := s.proxies[e.p].threads[e.c].pc.q;
    var r := Act(s, e.p, P.Clean(e.c));
    ActWork(s, e.p, P.Clean(e.c));
    if Awaits(s, q, e.p) {
      AtWork(r, q, Next(s, e).queries[q].pc);
    }
  }

  lemma MovesWork(s: Net, e: Step)
    requires Inv(s) && Enabled(s, e) && (QueryMoves(e) || LockMoves(e))
    ensures Settling(e) && Less(Next(s, e), s)
  {
    hide Inv, Enabled, Next, Less;
    if QueryMoves(e) {
      QueryMovesWork(s, e);
    } else if e.Cleaned? {
      CleanedWork(s, e);
    } else {
      LocalWork(s, e);
    }
  }

  // ----- A way out for everybody who is in no knot -----

  function Unfinished(s: Net): set<nat> {
    set q | 0 <= q < |s.queries| && !s.queries[q].pc.Done?
  }

  /** A piece of a run that leaves less to do and ties no knot. */
  ghost predicate Progress(s: Net, run: seq<Step>) {
    && PossibleRun(s, run) && Unbroken(run)
    && Inv(After(s, run)) && Loosens(s, After(s, run)) && Less(After(s, run), s)
  }

  lemma StepProgress(s: Net, e: Step)
    requires Inv(s) && Enabled(s, e) && (QueryMoves(e) || LockMoves(e))
    ensures Progress(s, [e])
  {
    hide Inv, Enabled, Next, Less, Loosens, PossibleRun, After, QueryMoves, LockMoves;
    MovesWork(s, e);
    StepKeepsInv(s, e);
    StepLoosens(s, e);
    OneStep(s, e);
  }

  /** The holder of a lock that is kept for no unfinished query, or the goroutines that it waits for, can go on. */
  lemma HolderMoves(s: Net, p: nat) returns (e: Step)
    requires Inv(s) && p < |s.proxies| && s.proxies[p].writer && !HeldIn(s, p, Unfinished(s))
    ensures Enabled(s, e) && LockMoves(e)
  {
    hide Sweeps, Suspenders, Registered, Tally;
    var x := s.proxies[p];
    var h := TallyPositive(x.threads, P.WriterShare());
    if x.threads[h].pc.Asking? {
      assert !AsksIn(x.threads[h].pc, Unfinished(s));
      e := Hear(p, h);
    } else if x.threads[h].pc.Dropping? {
      e := Local(p, P.Drop(h));
    } else if x.count == 0 {
      e := Cleaned(p, h);
    } else {
      var t := TallyPositive(x.threads, P.CountedShare());
      e := Local(p, if x.threads[t].pc.Calling? then P.Deal(t, P.Finished) else P.Uncount(t));
    }
  }

  /** A cleaning gets nearer to the lock unless the lock is kept for an unfinished query. */
  lemma CleaningMoves(s: Net, p: nat, q: nat) returns (e: Step)
    requires Inv(s) && HasCleaner(s, p, q) && !HeldIn(s, p, Unfinished(s))
    ensures Enabled(s, e) && LockMoves(e)
  {
    hide Sweeps, Suspenders, Registered, Tally, HeldIn;
    var x := s.proxies[p];
    if x.writer {
      e := HolderMoves(s, p);
    } else if x.readers > 0 {
      var t := TallyPositive(x.threads, P.ReaderShare());
      e := Local(p, P.RUnlock(t, true));
    } else {
      var c: nat :| Cleans(x, c, q);
      TallyAtLeast(x.threads, c, P.WriterShare());
      e := Local(p, P.LockToClean(c));
    }
  }

  /** Sends the next cleaning to a new goroutine of the proxy. */
  lemma TellProgress(s: Net, q: nat) returns (run: seq<Step>)
    requires Inv(s) && Swept(s, q) && s.queries[q].pc.left > 0 && s.queries[q].pc.i < |s.registered|
    ensures Progress(s, run)
  {
    hide Less, Loosens, PossibleRun, After, P.Inv, Sweeps, Suspenders;
    var p := s.registered[s.queries[q].pc.i];
    var c := |s.proxies[p].threads|;
    var e1, e2 := Local(p, P.Spawn(c)), Tell(q, c);
    SpawnedTell(s, q);
    var r := Next(s, e1);
    StepKeepsInv(s, e1);
    StepKeepsInv(r, e2);
    StepLoosens(s, e1);
    StepLoosens(r, e2);
    LoosensTrans(s, r, Next(r, e2));
    SpawnWork(s, p);
    TellWork(r, e2);
    LessThanSame(s, r, Next(r, e2));
    OneStep(s, e1);
    OneStep(r, e2);
    RunConcat(s, [e1], [e2]);
    run := [e1] + [e2];
  }

  lemma SpawnedTell(s: Net, q: nat)
    requires Inv(s) && Swept(s, q) && s.queries[q].pc.left > 0 && s.queries[q].pc.i < |s.registered|
    ensures var p := s.registered[s.queries[q].pc.i];
            && p < |s.proxies|
            && var c := |s.proxies[p].threads|;
               Enabled(s, Local(p, P.Spawn(c))) && Enabled(Next(s, Local(p, P.Spawn(c))), Tell(q, c))
  {
    hide P.Inv, Sweeps, Suspenders;
  }

  lemma SpawnWork(s: Net, p: nat)
    requires p < |s.proxies|
    ensures var r := Next(s, Local(p, P.Spawn(|s.proxies[p].threads|)));
            QueriesLeft(r) == QueriesLeft(s) && r.queries == s.queries && r.registered == s.registered
  {
    hide Tally;
  }

  lemma LessThanSame(s: Net, r: Net, r': Net)
    requires QueriesLeft(r) == QueriesLeft(s) && QueriesLeft(r') < QueriesLeft(r)
    ensures Less(r', s)
  {
  }

  lemma LoosensTrans(s: Net, r: Net, r': Net)
    requires Loosens(s, r) && Loosens(r, r')
    ensures Loosens(s, r')
  {
    hide Knot, HeldIn;
  }

  /** Whoever does not wait for unfinished queries only can be brought nearer to its end. */
  lemma Moves(s: Net, q: nat) returns (run: seq<Step>)
    requires Inv(s) && q in Unfinished(s) && !Blocked(s, q, Unfinished(s))
    ensures Progress(s, run)
  {
    hide HeldIn, P.Inv, Suspenders, Proxies, Progress, P.Enabled, P.Next;
    var x := s.queries[q].pc;
    if x.Sweeping? && x.left > 0 && x.told {
      var p := s.registered[x.i];
      assert Needs(s, q, p);
      var e := CleaningMoves(s, p, q);
      StepProgress(s, e);
      run := [e];
    } else if x.Sweeping? && x.left > 0 && x.i < |s.registered| {
      run := TellProgress(s, q);
    } else {
      var e :=
        match x
        case Door => Pass(q)
        case Choosing => Suspend(q)
        case Listing => List(q, 0)
        case Sweeping(left, _, _) => if left == 0 then Finish(q, P.Endpoint) else NextKey(q)
        case _ => Refuse(q, P.NoLeader);
      StepProgress(s, e);
      run := [e];
    }
  }

  lemma NotAllBlocked(s: Net) returns (q: nat)
    requires !Knot(s, Unfinished(s))
    ensures q in Unfinished(s) && !Blocked(s, q, Unfinished(s))
  {
    hide Blocked;
    q :| q in Unfinished(s) && !Blocked(s, q, Unfinished(s));
  }

  /** A run without failures that finishes a query in no knot. */
  lemma {:induction false} Finishing(s: Net, q: nat) returns (run: seq<Step>)
    requires Inv(s) && q < |s.queries| && !Stuck(s, q)
    ensures PossibleRun(s, run) && Unbroken(run)
    ensures q < |After(s, run).queries| && After(s, run).queries[q].pc.Done?
    decreases QueriesLeft(s), LocksLeft(s)
  {
    hide Inv, Knot, Blocked, QueriesLeft, LocksLeft, HeldIn;
    if s.queries[q].pc.Done? {
      run := [];
    } else {
      assert q in Unfinished(s);
      var x := NotAllBlocked(s);
      var first := Moves(s, x);
      var r := After(s, first);
      var rest := Finishing(r, q);
      RunConcat(s, first, rest);
      run := first + rest;
    }
  }

  /** A run without failures that unlocks a lock that is kept for no knot. */
  lemma {:induction false} Releasing(s: Net, p: nat) returns (run: seq<Step>)
    requires Inv(s) && p < |s.proxies| && !StuckLock(s, p)
    ensures PossibleRun(s, run) && Unbroken(run)
    ensures p < |After(s, run).proxies| && !After(s, run).proxies[p].writer
    decreases QueriesLeft(s), LocksLeft(s)
  {
    hide Inv, Knot, Blocked, QueriesLeft, LocksLeft, HeldIn, Enabled, Next, LockMoves;
    if !s.proxies[p].writer {
      run := [];
    } else {
      var first: seq<Step>;
      if HeldIn(s, p, Unfinished(s)) {
        var x := NotAllBlocked(s);
        first := Moves(s, x);
      } else {
        var e := HolderMoves(s, p);
        StepProgress(s, e);
        first := [e];
      }
      var rest := Releasing(After(s, first), p);
      RunConcat(s, first, rest);
      run := first + rest;
    }
  }

  /**
   * Without failures, a proxy's lock can be unlocked again exactly when it is not kept for a query of a
   * knot, that is, when the waiting that starts at its holder does not close on itself.
   */
  lemma ReleasableExact(s: Net, p: nat)
    requires Inv(s) && p < |s.proxies|
    ensures (exists run :: PossibleRun(s, run) && Unbroken(run) && p < |After(s, run).proxies|
                           && !After(s, run).proxies[p].writer)
       <==> !StuckLock(s, p)
  {
    hide Inv, PossibleRun, After, StuckLock, Unbroken;
    if StuckLock(s, p) {
      forall run | PossibleRun(s, run) && Unbroken(run)
        ensures p < |After(s, run).proxies| && After(s, run).proxies[p].writer
      {
        HeldForever(s, run, p);
      }
    } else {
      var run := Releasing(s, p);
    }
  }

  /** Without failures, a query can be finished exactly when it is in no knot. */
  lemma FinishableExact(s: Net, q: nat)
    requires Inv(s) && q < |s.queries|
    ensures (exists run :: PossibleRun(s, run) && Unbroken(run) && q < |After(s, run).queries|
                           && After(s, run).queries[q].pc.Done?)
       <==> !Stuck(s, q)
  {
    hide Inv, PossibleRun, After, Unbroken, Blocked;
    if Stuck(s, q) {
      var waiting: set<nat> :| q in waiting && Knot(s, waiting);
      forall run | PossibleRun(s, run) && Unbroken(run)
        ensures q < |After(s, run).queries| && !After(s, run).queries[q].pc.Done?
      {
        KnotForever(s, run, waiting);
        BlockedIsNotDone(After(s, run), q, waiting);
      }
    } else {
      var run := Finishing(s, q);
    }
  }

  lemma BlockedIsNotDone(s: Net, q: nat, waiting: set<nat>)
    requires q < |s.queries| && Blocked(s, q, waiting)
    ensures !s.queries[q].pc.Done?
  {
  }

  /**
   * A broken connection to the dash server does release the lock, whatever the query waits for, and ends
   * the call with an error; the query itself goes on.
   */
  lemma BrokenConnectionReleases(s: Net, p: nat, t: nat)
    requires Inv(s) && p < |s.proxies| && t < |s.proxies[p].threads| && s.proxies[p].threads[t].pc.Asking?
    ensures Enabled(s, LoseReply(p, t))
    ensures var r := Next(s, LoseReply(p, t));
            && !r.proxies[p].writer && r.proxies[p].threads[t].pc.Returned?
            && r.queries == s.queries && r.paused == s.paused
  {
    hide P.Inv;
  }

  // ----- When knots come up -----

  /** The proxies have nothing under way; no query was ever sent. */
  ghost predicate Quiet(s: Net) {
    && (forall p :: 0 <= p < |s.proxies| ==> P.Quiet(s.proxies[p]))
    && s.queries == [] && s.paused == {} && Registered(s)
  }

  predicate AllRegistered(s: Net) {
    forall p :: 0 <= p < |s.proxies| ==> p in s.registered
  }

  ghost predicate Awaited(s: Net, q: nat) {
    exists p: nat :: HeldIn(s, p, {q})
  }

  /** Every query under way is waited for by the proxy that sent it. */
  ghost predicate AllAwaited(s: Net) {
    forall q :: 0 <= q < |s.queries| && !s.queries[q].pc.Done? ==> Awaited(s, q)
  }

  /** No migration has a key to clean. */
  predicate NothingListed(s: Net) {
    forall q :: 0 <= q < |s.queries| && s.queries[q].pc.Sweeping? ==> s.queries[q].pc.left == 0
  }

  /** A migration's listing finds somebody. */
  predicate Lists(e: Step) {
    e.List? && e.keys > 0
  }

  lemma QuietInv(s: Net)
    requires Quiet(s)
    ensures Inv(s) && AllAwaited(s) && NothingListed(s)
  {
    forall p | 0 <= p < |s.proxies|
      ensures P.Inv(s.proxies[p]) && AsksExisting(s.proxies[p], 0)
    {
      P.QuietInv(s.proxies[p]);
    }
  }

  lemma StepKeepsAwaited(s: Net, e: Step)
    requires Inv(s) && Enabled(s, e) && !Breaks(e) && AllAwaited(s)
    ensures AllAwaited(Next(s, e))
  {
    hide Inv, Enabled, Next, HeldIn;
    QueriesGrow(s, e);
    var r := Next(s, e);
    forall q | 0 <= q < |r.queries| && !r.queries[q].pc.Done?
      ensures Awaited(r, q)
    {
      if q < |s.queries| {
        QueryStep(s, e, q);
        var p: nat :| HeldIn(s, p, {q});
        HeldStays(s, e, {q}, p);
      } else {
        NewQuery(s, e, q);
        NewAsker(s, e);
      }
    }
  }

  lemma NewAsker(s: Net, e: Step)
    requires Enabled(s, e) && e.Ask?
    ensures HeldIn(Next(s, e), e.p, {|s.queries|})
  {
    assert AsksIn(Next(s, e).proxies[e.p].threads[e.t].pc, {|s.queries|});
  }

  lemma StepKeepsNothingListed(s: Net, e: Step)
    requires Inv(s) && Enabled(s, e) && NothingListed(s) && !Lists(e)
    ensures NothingListed(Next(s, e))
  {
    hide P.Enabled, P.Next, Inv;
    var r := Next(s, e);
    forall q | 0 <= q < |r.queries| && r.queries[q].pc.Sweeping?
      ensures r.queries[q].pc.left == 0
    {
      if q >= |s.queries| {
        NewQuery(s, e, q);
      }
    }
  }

  /** From then on the query waits for the proxy that waits for it. */
  lemma ListingTiesKnot(s: Net, e: Step)
    requires Inv(s) && Enabled(s, e) && Lists(e) && Awaited(s, e.q) && AllRegistered(s)
    ensures Knot(Next(s, e), {e.q})
  {
    hide P.Enabled, P.Next, Inv, HeldIn;
    var p: nat :| HeldIn(s, p, {e.q});
    HeldStays(s, e, {e.q}, p);
    HeldMeans(s, p, {e.q});
    assert p in s.registered;
    var k :| 0 <= k < |s.registered| && s.registered[k] == p;
    assert Next(s, e).registered[k] == p;
    assert Needs(Next(s, e), e.q, p);
  }

  lemma HeldMeans(s: Net, p: nat, waiting: set<nat>)
    requires HeldIn(s, p, waiting)
    ensures p < |s.proxies|
  {
  }

  lemma NothingListedNoKnot(s: Net, waiting: set<nat>)
    requires Inv(s) && NothingListed(s) && Knot(s, waiting)
    ensures waiting == {}
  {
    hide HeldIn, Proxies, Sweeps, Suspended;
    if q :| q in waiting {
      if s.queries[q].pc.Door? {
        var x := SuspenderOf(s, User(s, q));
      }
    }
  }

  lemma SuspenderOf(s: Net, user: (nat, string)) returns (q: nat)
    requires Suspended(s, user)
    ensures Inside(s, q, user) && !s.queries[q].pc.Choosing?
  {
    q :| 0 <= q < |s.queries| && Suspends(s.queries[q], user);
  }

  ghost predicate Knotted(s: Net) {
    exists waiting: set<nat> :: waiting != {} && Knot(s, waiting)
  }

  lemma {:induction false} KnottedIffListedFrom(s: Net, run: seq<Step>)
    requires Inv(s) && AllAwaited(s) && NothingListed(s) && AllRegistered(s) && PossibleRun(s, run) && Unbroken(run)
    ensures Knotted(After(s, run)) <==> exists i :: 0 <= i < |run| && Lists(run[i])
    decreases run
  {
    hide Inv, AllAwaited, NothingListed, Knot, Enabled, Next, Breaks;
    if run == [] {
      forall waiting: set<nat> | Knot(s, waiting)
        ensures waiting == {}
      {
        NothingListedNoKnot(s, waiting);
      }
    } else {
      var e, r := run[0], Next(s, run[0]);
      QueriesGrow(s, e);
      StepKeepsInv(s, e);
      if Lists(e) {
        ListerIsAwaited(s, e);
        ListingTiesKnot(s, e);
        KnotForever(r, run[1..], {e.q});
        assert Knotted(After(s, run));
      } else {
        StepKeepsAwaited(s, e);
        StepKeepsNothingListed(s, e);
        KnottedIffListedFrom(r, run[1..]);
        assert forall i :: 0 < i < |run| ==> run[i] == run[1..][i - 1];
        if i :| 0 <= i < |run[1..]| && Lists(run[1..][i]) {
          assert run[i + 1] == run[1..][i];
        }
      }
    }
  }

  lemma ListerIsAwaited(s: Net, e: Step)
    requires Enabled(s, e) && Lists(e) && AllAwaited(s)
    ensures Awaited(s, e.q)
  {
    hide HeldIn;
  }

  /**
   * With all proxies registered and nothing breaking, a run from rest ties a knot exactly when some
   * migration on it finds a user in its listing.
   */
  lemma KnottedIffListed(s: Net, run: seq<Step>)
    requires Quiet(s) && AllRegistered(s) && PossibleRun(s, run) && Unbroken(run)
    ensures Knotted(After(s, run)) <==> exists i :: 0 <= i < |run| && Lists(run[i])
  {
    hide Inv, AllAwaited, NothingListed, Knotted, Lists;
    QuietInv(s);
    KnottedIffListedFrom(s, run);
  }

  // ----- Two ways into a knot -----

  lemma ConsRun(s: Net, e: Step, rest: seq<Step>)
    requires Enabled(s, e) && PossibleRun(Next(s, e), rest)
    ensures PossibleRun(s, [e] + rest) && After(s, [e] + rest) == After(Next(s, e), rest)
  {
    hide Enabled, Next;
    assert ([e] + rest)[1..] == rest;
  }

  /** The proxy is at rest and has a goroutine. */
  predicate Ready(s: Net, p: nat) {
    && p < |s.proxies| && |s.proxies[p].threads| > 0 && s.proxies[p].threads[0] == P.Thread(P.Idle, 0)
    && !s.proxies[p].writer && s.proxies[p].readers == 0
  }

  /** A request that misses the cache. */
  function AskRun(p: nat, dash: nat, uid: string): seq<Step> {
    [Local(p, P.Request(0))] + ([Local(p, P.RLock(0))] + ([Local(p, P.RUnlock(0, false))] + [Ask(p, 0, dash, uid)]))
  }

  lemma AskRunGoes(s: Net, p: nat, dash: nat, uid: string)
    requires Ready(s, p)
    ensures PossibleRun(s, AskRun(p, dash, uid)) && Unbroken(AskRun(p, dash, uid))
    ensures var r := After(s, AskRun(p, dash, uid));
            && r.queries == s.queries + [Query(dash, uid, Sent)] && r.paused == s.paused
            && r.registered == s.registered && |r.proxies| == |s.proxies| && HeldIn(r, p, {|s.queries|})
            && forall x :: 0 <= x < |s.proxies| && x != p ==> r.proxies[x] == s.proxies[x]
  {
    hide PossibleRun, After;
    var e1, e2, e3 := Local(p, P.Request(0)), Local(p, P.RLock(0)), Local(p, P.RUnlock(0, false));
    var e4 := Ask(p, 0, dash, uid);
    var s1 := Next(s, e1);
    var s2 := Next(s1, e2);
    var s3 := Next(s2, e3);
    OneStep(s3, e4);
    ConsRun(s2, e3, [e4]);
    ConsRun(s1, e2, [e3] + [e4]);
    ConsRun(s, e1, [e2] + ([e3] + [e4]));
    NewAsker(s3, e4);
  }

  /** A query that starts a migration which finds one user. */
  function MigrateRun(q: nat): seq<Step> {
    [Admit(q)] + ([Pass(q)] + ([Suspend(q)] + [List(q, 1)]))
  }

  lemma MigrateRunGoes(s: Net, q: nat)
    requires IsAt(s, q, Sent) && User(s, q) !in s.paused
    ensures PossibleRun(s, MigrateRun(q)) && Unbroken(MigrateRun(q))
    ensures After(s, MigrateRun(q)) == At(s, q, Sweeping(1, 0, false)).(paused := s.paused + {User(s, q)})
  {
    hide PossibleRun, After;
    var e1, e2, e3, e4 := Admit(q), Pass(q), Suspend(q), List(q, 1);
    var s1 := Next(s, e1);
    var s2 := Next(s1, e2);
    var s3 := Next(s2, e3);
    OneStep(s3, e4);
    ConsRun(s2, e3, [e4]);
    ConsRun(s1, e2, [e3] + [e4]);
    ConsRun(s, e1, [e2] + ([e3] + [e4]));
  }

  /** The cache lock that a proxy's query needs is its own. */
  lemma AskerBlocksItself(s: Net, p: nat, dash: nat, uid: string)
    requires Quiet(s) && Ready(s, p) && p in s.registered
    ensures var run := AskRun(p, dash, uid) + MigrateRun(0);
            PossibleRun(s, run) && Unbroken(run) && StuckLock(After(s, run), p)
  {
    hide PossibleRun, After, HeldIn, Unbroken, Ready, AskRun, MigrateRun;
    AskRunGoes(s, p, dash, uid);
    var s1 := After(s, AskRun(p, dash, uid));
    MigrateRunGoes(s1, 0);
    RunConcat(s, AskRun(p, dash, uid), MigrateRun(0));
    UnbrokenConcat(AskRun(p, dash, uid), MigrateRun(0));
    var r := After(s1, MigrateRun(0));
    HeldElsewhere(s1, r, p, {0}, {0});
    assert Needs(r, 0, p);
    assert Knot(r, {0});
  }

  lemma UnbrokenConcat(a: seq<Step>, b: seq<Step>)
    requires Unbroken(a) && Unbroken(b)
    ensures Unbroken(a + b)
  {
  }

  lemma HeldElsewhere(s: Net, r: Net, p: nat, some: set<nat>, more: set<nat>)
    requires HeldIn(s, p, some) && p < |r.proxies| && r.proxies[p] == s.proxies[p] && some <= more
    ensures HeldIn(r, p, more)
  {
    var t :| 0 <= t < |s.proxies[p].threads| && AsksIn(s.proxies[p].threads[t].pc, some);
    assert AsksIn(r.proxies[p].threads[t].pc, more);
  }

  /**
   * Two proxies ask for one user, and one of the two is registered. The first query migrates the user and
   * has a cleaning to send, the second one is paused behind it: both proxies are locked for good, also the
   * one that is not registered and gets no cleaning, and also when the cleaning goes to the other proxy.
   */
  lemma ProxiesBlockEachOther(s: Net, b: nat, a: nat, dash: nat, uid: string)
    requires Quiet(s) && Ready(s, b) && Ready(s, a) && a != b && (a in s.registered || b in s.registered)
    ensures var run := AskRun(b, dash, uid) + MigrateRun(0) + AskRun(a, dash, uid) + [Admit(1)];
            && PossibleRun(s, run) && Unbroken(run)
            && StuckLock(After(s, run), a) && StuckLock(After(s, run), b)
  {
    hide PossibleRun, After, HeldIn, Unbroken, AskRun, MigrateRun;
    var run1, run2, run3 := AskRun(b, dash, uid), MigrateRun(0), AskRun(a, dash, uid);
    AskRunGoes(s, b, dash, uid);
    var s1 := After(s, run1);
    MigrateRunGoes(s1, 0);
    var s2 := After(s1, run2);
    AskRunGoes(s2, a, dash, uid);
    var s3 := After(s2, run3);
    OneStep(s3, Admit(1));
    var r := Next(s3, Admit(1));
    RunConcat(s, run1, run2);
    RunConcat(s, run1 + run2, run3);
    RunConcat(s, run1 + run2 + run3, [Admit(1)]);
    UnbrokenConcat(run1, run2);
    UnbrokenConcat(run1 + run2, run3);
    assert Unbroken([Admit(1)]) by { OneUnbroken(Admit(1)); }
    UnbrokenConcat(run1 + run2 + run3, [Admit(1)]);
    HeldElsewhere(s1, r, b, {0}, {0, 1});
    HeldElsewhere(s3, r, a, {1}, {0, 1});
    BothWait(r, b, a, dash, uid);
  }

  lemma OneUnbroken(e: Step)
    requires !Breaks(e)
    ensures Unbroken([e])
  {
  }

  lemma BothWait(s: Net, b: nat, a: nat, dash: nat, uid: string)
    requires s.queries == [Query(dash, uid, Sweeping(1, 0, false)), Query(dash, uid, Door)]
    requires (dash, uid) in s.paused && (a in s.registered || b in s.registered)
    requires HeldIn(s, a, {0, 1}) && HeldIn(s, b, {0, 1})
    ensures Knot(s, {0, 1})
  {
    hide HeldIn;
    assert a in s.registered ==> Needs(s, 0, a);
    assert b in s.registered ==> Needs(s, 0, b);
  }

  // ----- What the asking proxy hears -----

  /**
   * The step that ends query `q` with this reply: an endpoint never comes from a refusal, and `NoLeader`
   * comes from nothing else.
   */
  predicate Ends(e: Step, q: nat, reply: P.Reply) {
    match reply
    case Endpoint => e == Choose(q, reply) || e == Finish(q, reply)
    case NoLeader => e == Refuse(q, reply)
    case OtherError => e == Refuse(q, reply) || e == Choose(q, reply) || e == Finish(q, reply)
                       || e == Fail(q) || e.Crash?
  }

  lemma EndingStep(s: Net, e: Step, q: nat)
    requires Enabled(s, e) && q < |s.queries|
    ensures q < |Next(s, e).queries|
    ensures !s.queries[q].pc.Done? && Next(s, e).queries[q].pc.Done? ==> Ends(e, q, Next(s, e).queries[q].pc.reply)
    ensures s.queries[q].pc.Done? ==> Next(s, e).queries[q].pc == s.queries[q].pc
    ensures !e.Crash? && (exists reply :: Ends(e, q, reply)) ==> Next(s, e).queries[q].pc.Done?
  {
    hide P.Enabled, P.Next;
    QueriesGrow(s, e);
  }

  ghost predicate Ended(run: seq<Step>, q: nat, reply: P.Reply) {
    exists i :: 0 <= i < |run| && Ends(run[i], q, reply)
  }

  lemma {:induction false} ReplyOfRun(s: Net, run: seq<Step>, q: nat)
    requires PossibleRun(s, run) && (q < |s.queries| ==> !s.queries[q].pc.Done?) && q < |After(s, run).queries|
    requires After(s, run).queries[q].pc.Done?
    ensures Ended(run, q, After(s, run).queries[q].pc.reply)
    decreases run
  {
    hide Enabled, Next, Ends;
    if run != [] {
      var e, r := run[0], Next(s, run[0]);
      if q < |s.queries| {
        EndingStep(s, e, q);
      } else if q < |r.queries| {
        NewQuery(s, e, q);
      }
      if q < |r.queries| && r.queries[q].pc.Done? {
        DoneStays(r, run[1..], q);
        assert Ends(run[0], q, r.queries[q].pc.reply);
      } else {
        ReplyOfRun(r, run[1..], q);
        var i :| 0 <= i < |run[1..]| && Ends(run[1..][i], q, After(s, run).queries[q].pc.reply);
        assert run[i + 1] == run[1..][i];
      }
    }
  }

  lemma {:induction false} DoneStays(s: Net, run: seq<Step>, q: nat)
    requires PossibleRun(s, run) && q < |s.queries| && s.queries[q].pc.Done?
    ensures q < |After(s, run).queries| && After(s, run).queries[q].pc == s.queries[q].pc
    decreases run
  {
    hide Enabled, Next, Ends;
    if run != [] {
      EndingStep(s, run[0], q);
      DoneStays(Next(s, run[0]), run[1..], q);
    }
  }

  /**
   * From rest, what an asking proxy hears is how its query has ended, and its goroutine goes on
   * accordingly: with the endpoint, to ask again later, or with the error.
   */
  lemma HeardIsReply(s: Net, run: seq<Step>, p: nat, t: nat)
    requires Quiet(s) && PossibleRun(s, run) && Enabled(After(s, run), Hear(p, t))
    ensures var r := After(s, run);
            var q, pc := r.proxies[p].threads[t].pc.q, Next(r, Hear(p, t)).proxies[p].threads[t].pc;
            && (pc.HaveEndpoint? ==> Ended(run, q, P.Endpoint))
            && (pc.Backoff? ==> Ended(run, q, P.NoLeader))
            && (pc.Returned? ==> Ended(run, q, P.OtherError))
            && (pc.HaveEndpoint? || pc.Backoff? || pc.Returned?)
  {
    hide PossibleRun, After;
    ReplyOfRun(s, run, After(s, run).proxies[p].threads[t].pc.q);
  }

  // ----- A sweep leaves nobody out -----

  /** How many cleanings a run sends for query `q`. */
  function Tells(run: seq<Step>, q: nat): nat {
    if run == [] then 0 else (if run[0].Tell? && run[0].q == q then 1 else 0) + Tells(run[1..], q)
  }

  /** The cleanings that a sweep has still to send. */
  function Owed(pc: QueryPc, n: nat): int {
    if pc.Sweeping? && pc.left > 0 then Rounds(pc.left - 1, n) + n - pc.i - (if pc.told then 1 else 0) else 0
  }

  function Rounds(left: nat, n: nat): nat {
    if left == 0 then 0 else n + Rounds(left - 1, n)
  }

  lemma {:induction false} RoundsIsTimes(left: nat, n: nat)
    ensures Rounds(left, n) == left * n
  {
    if left > 0 {
      RoundsIsTimes(left - 1, n);
      assert left * n == (left - 1) * n + n;
    }
  }

  lemma OwedStep(s: Net, e: Step, q: nat)
    requires Inv(s) && Enabled(s, e) && !Breaks(e) && q < |s.queries| && s.queries[q].pc.Sweeping?
    ensures q < |Next(s, e).queries|
    ensures var n, y := |s.registered|, Next(s, e).queries[q].pc;
            && (y.Sweeping? || y.Done?)
            && Owed(y, n) + (if e.Tell? && e.q == q then 1 else 0) == Owed(s.queries[q].pc, n)
  {
    hide P.Inv, P.Enabled, P.Next, Proxies, Suspenders, HasCleaner;
    QueriesGrow(s, e);
  }

  lemma OtherTells(s: Net, e: Step, q: nat)
    requires Enabled(s, e) && q < |s.queries| && !s.queries[q].pc.Sweeping?
    ensures !(e.Tell? && e.q == q)
  {
  }

  lemma {:induction false} DoneTellsNothing(s: Net, run: seq<Step>, q: nat)
    requires PossibleRun(s, run) && q < |s.queries| && s.queries[q].pc.Done?
    ensures Tells(run, q) == 0
    decreases run
  {
    hide Enabled, Next;
    if run != [] {
      EndingStep(s, run[0], q);
      OtherTells(s, run[0], q);
      DoneTellsNothing(Next(s, run[0]), run[1..], q);
    }
  }

  lemma {:induction false} SweepPays(s: Net, run: seq<Step>, q: nat)
    requires Inv(s) && PossibleRun(s, run) && Unbroken(run) && q < |s.queries| && s.queries[q].pc.Sweeping?
    ensures q < |After(s, run).queries|
    ensures Tells(run, q) + Owed(After(s, run).queries[q].pc, |s.registered|) == Owed(s.queries[q].pc, |s.registered|)
    decreases run
  {
    hide Inv, Enabled, Next, Owed, Breaks;
    if run != [] {
      var e, r := run[0], Next(s, run[0]);
      QueriesGrow(s, e);
      StepKeepsInv(s, e);
      OwedStep(s, e, q);
      if r.queries[q].pc.Sweeping? {
        SweepPays(r, run[1..], q);
      } else {
        DoneTellsNothing(r, run[1..], q);
        DoneStays(r, run[1..], q);
      }
    }
  }

  /**
   * A migration that finds `keys` users and comes to its end without a failure has sent every one of these
   * keys to every registered proxy.
   */
  lemma SweepTellsAll(s: Net, q: nat, keys: nat, run: seq<Step>)
    requires Inv(s) && Enabled(s, List(q, keys)) && PossibleRun(Next(s, List(q, keys)), run) && Unbroken(run)
    requires q < |After(Next(s, List(q, keys)), run).queries|
             && After(Next(s, List(q, keys)), run).queries[q].pc.Done?
    ensures Tells(run, q) == keys * |s.registered|
  {
    hide Inv, PossibleRun, After, Unbroken, Tells;
    var r := Next(s, List(q, keys));
    StepKeepsInv(s, List(q, keys));
    SweepPays(r, run, q);
    RoundsIsTimes(keys, |s.registered|);
  }

  // ----- When a dash server dies -----

  lemma CrashedQueries(s: Net, dash: nat, q: nat)
    requires q < |s.queries|
    ensures var r := Next(s, Crash(dash));
            && |r.queries| == |s.queries| && User(r, q) == User(s, q)
            && (s.queries[q].dash != dash ==> r.queries[q] == s.queries[q])
            && (s.queries[q].dash == dash ==> r.queries[q].pc.Done?)
  {
  }

  lemma CrashedBlocked(s: Net, dash: nat, q: nat, waiting: set<nat>)
    requires q < |s.queries| && s.queries[q].dash != dash && Blocked(s, q, waiting)
    ensures Blocked(Next(s, Crash(dash)), q, waiting)
  {
    var r := Next(s, Crash(dash));
    CrashedQueries(s, dash, q);
    if s.queries[q].pc.Door? {
      forall x | Inside(r, x, User(s, q))
        ensures x in waiting
      {
        CrashedQueries(s, dash, x);
        assert Inside(s, x, User(s, q));
      }
    } else {
      var p :| Needs(s, q, p) && HeldIn(s, p, waiting);
      assert Needs(r, q, p) && HeldIn(r, p, waiting);
    }
  }

  /** A knot survives the death of a dash server exactly when none of its queries was there. */
  lemma CrashExact(s: Net, dash: nat, waiting: set<nat>)
    requires Knot(s, waiting)
    ensures Knot(Next(s, Crash(dash)), waiting) <==> forall q :: q in waiting ==> s.queries[q].dash != dash
  {
    hide Blocked, Next;
    var r := Next(s, Crash(dash));
    forall q | q in waiting
      ensures q < |r.queries| && (Blocked(r, q, waiting) <==> s.queries[q].dash != dash)
    {
      CrashedQueries(s, dash, q);
      if s.queries[q].dash != dash {
        CrashedBlocked(s, dash, q, waiting);
      } else if Blocked(r, q, waiting) {
        BlockedIsNotDone(r, q, waiting);
      }
    }
  }
}
