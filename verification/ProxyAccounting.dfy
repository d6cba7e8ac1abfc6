/**
 * One proxy's request counter, its endpoint cache lock, and the recursive retry, with any number of
 * requests and cache cleanings running at once. When the dash server answers, and when it sends a
 * cleaning, is left open here; `ProxyNetwork` says when it does.
 */
module ProxyAccounting {
  import opened Tallies

  /**
   * Where a goroutine is in `doProxy`, `uidEndpoint` or `CleanUidCache`. The lock is held from a
   * `Reading`, `Asking`, `Dropping` or `Cleaning` state on. `q` is the query at the dash server that is
   * waited for, or that made the dash server send the cleaning.
   */
  datatype Pc =
    | Idle
    | WantRead              // uidEndpoint: about to take the read lock
    | Reading               // uidEndpoint: looking in the cache
    | WantAsk               // uidEndpoint: a miss, about to take the write lock
    | Asking(q: nat)        // uidEndpoint: asking the dash server under the write lock
    | Backoff               // doProxy: no leader, sleeping before the next attempt
    | HaveEndpoint          // doProxy: the endpoint is known, the request not yet counted
    | Calling               // doProxy: counted, dealFunc running
    | WantDrop              // doProxy: connection error, uncounted, about to take the write lock
    | Dropping              // doProxy: deleting the cached endpoint under the write lock
    | Pausing               // doProxy: sleeping before the recursive call
    | Leaving               // doProxy: counted, about to run the deferred decrement
    | Returned              // doProxy: this call is over
    | WantClean(q: nat)     // CleanUidCache: about to take the write lock
    | Cleaning(q: nat)      // CleanUidCache: waiting for the counter under the write lock

  /** `depth` counts the calls below the running one that wait, uncounted, for their retry to return. */
  datatype Thread = Thread(pc: Pc, depth: nat)

  datatype State = State(threads: seq<Thread>, count: int, readers: nat, writer: bool)

  datatype Action =
    | Spawn(t: nat)         // a new goroutine, idle
    | Request(t: nat)
    | RLock(t: nat)
    | RUnlock(t: nat, hit: bool)
    | LockToAsk(t: nat, q: nat)
    | Answer(t: nat, reply: Reply)
    | Retry(t: nat)
    | Count(t: nat)
    | Deal(t: nat, result: Dealt)
    | LockToDrop(t: nat)
    | Drop(t: nat)
    | Recurse(t: nat)
    | Uncount(t: nat)
    | Return(t: nat)
    | StartClean(t: nat, q: nat)
    | LockToClean(t: nat)
    | Clean(t: nat)

  datatype Reply = Endpoint | NoLeader | OtherError

  /** Success and other errors both end the call; only a connection error is retried. */
  datatype Dealt = Finished | ConnectionError

  predicate Enabled(s: State, a: Action) {
    if a.Spawn? then a.t == |s.threads|
    else
    a.t < |s.threads| && var pc := s.threads[a.t].pc;
    match a
    case Spawn(_) => false
    case Request(_) => pc.Idle? && s.threads[a.t].depth == 0
    case RLock(_) => pc.WantRead? && !s.writer
    case RUnlock(_, _) => pc.Reading? && s.readers > 0
    case LockToAsk(_, _) => pc.WantAsk? && !s.writer && s.readers == 0
    case Answer(_, _) => pc.Asking?
    case Retry(_) => pc.Backoff?
    case Count(_) => pc.HaveEndpoint?
    case Deal(_, _) => pc.Calling?
    case LockToDrop(_) => pc.WantDrop? && !s.writer && s.readers == 0
    case Drop(_) => pc.Dropping?
    case Recurse(_) => pc.Pausing?
    case Uncount(_) => pc.Leaving?
    case Return(_) => pc.Returned?
    case StartClean(_, _) => pc.Idle? && s.threads[a.t].depth == 0
    case LockToClean(_) => pc.WantClean? && !s.writer && s.readers == 0
    case Clean(_) => pc.Cleaning? && s.count == 0
  }

  function Go(s: State, t: nat, pc: Pc): State
    requires t < |s.threads|
  {
    s.(threads := s.threads[t := s.threads[t].(pc := pc)])
  }

  function Next(s: State, a: Action): State
    requires Enabled(s, a)
  {
    match a
    case Spawn(_) => s.(threads := s.threads + [Thread(Idle, 0)])
    case Request(t) => Go(s, t, WantRead)
    case RLock(t) => Go(s.(readers := s.readers + 1), t, Reading)
    case RUnlock(t, hit) => Go(s.(readers := s.readers - 1), t, if hit then HaveEndpoint else WantAsk)
    case LockToAsk(t, q) => Go(s.(writer := true), t, Asking(q))
    case Answer(t, reply) =>
      Go(s.(writer := false), t,
         match reply case Endpoint => HaveEndpoint case NoLeader => Backoff case OtherError => Returned)
    case Retry(t) => Go(s, t, WantRead)
    case Count(t) => Go(s.(count := s.count + 1), t, Calling)
    case Deal(t, result) =>
      if result.Finished? then Go(s, t, Leaving) else Go(s.(count := s.count - 1), t, WantDrop)
    case LockToDrop(t) => Go(s.(writer := true), t, Dropping)
    case Drop(t) => Go(s.(writer := false), t, Pausing)
    case Recurse(t) => s.(threads := s.threads[t := Thread(WantRead, s.threads[t].depth + 1)])
    case Uncount(t) => Go(s.(count := s.count - 1), t, Returned)
    case Return(t) =>
      var d := s.threads[t].depth;
      if d == 0 then Go(s, t, Idle)
      else s.(threads := s.threads[t := Thread(Leaving, d - 1)], count := s.count + 1)
    case StartClean(t, q) => Go(s, t, WantClean(q))
    case LockToClean(t) => Go(s.(writer := true), t, Cleaning(s.threads[t].pc.q))
    case Clean(t) => Go(s.(writer := false), t, Idle)
  }

  // ----- What is counted -----

  predicate Counted(pc: Pc) {
    pc.Calling? || pc.Leaving?
  }

  predicate Writes(pc: Pc) {
    pc.Asking? || pc.Dropping? || pc.Cleaning?
  }

  /** About to take the lock, for reading or writing. */
  predicate Waits(pc: Pc) {
    pc.WantRead? || pc.WantAsk? || pc.WantDrop? || pc.WantClean?
  }

  function Share(b: bool): nat {
    if b then 1 else 0
  }

  function CountedShare(): Thread -> nat {
    (th: Thread) => Share(Counted(th.pc))
  }

  function WriterShare(): Thread -> nat {
    (th: Thread) => Share(Writes(th.pc))
  }

  function ReaderShare(): Thread -> nat {
    (th: Thread) => Share(th.pc.Reading?)
  }

  /** The counter is the number of counted calls; the lock has one writer or some readers. */
  ghost predicate Inv(s: State) {
    && s.count == Tally(s.threads, CountedShare())
    && Tally(s.threads, WriterShare()) == Share(s.writer)
    && Tally(s.threads, ReaderShare()) == s.readers
    && (s.writer ==> s.readers == 0)
  }

  /** What the goroutine of a step was before it. */
  function Actor(s: State, a: Action): Thread {
    if a.t < |s.threads| then s.threads[a.t] else Thread(Idle, 0)
  }

  lemma StepTally(s: State, a: Action, weigh: Thread -> nat)
    requires Enabled(s, a) && weigh(Thread(Idle, 0)) == 0
    ensures |s.threads| <= |Next(s, a).threads| && a.t < |Next(s, a).threads|
    ensures Tally(Next(s, a).threads, weigh)
         == Tally(s.threads, weigh) - weigh(Actor(s, a)) + weigh(Next(s, a).threads[a.t])
    ensures a.t < |s.threads| ==> Tally(s.threads, weigh) >= weigh(Actor(s, a))
  {
    hide Tally;
    if a.Spawn? {
      TallyAppend(s.threads, Thread(Idle, 0), weigh);
    } else {
      TallyUpdate(s.threads, a.t, Next(s, a).threads[a.t], weigh);
      TallyAtLeast(s.threads, a.t, weigh);
    }
  }

  lemma StepKeepsCount(s: State, a: Action)
    requires Inv(s) && Enabled(s, a)
    ensures Next(s, a).count == Tally(Next(s, a).threads, CountedShare())
  {
    hide Tally;
    StepTally(s, a, CountedShare());
  }

  lemma StepKeepsWriter(s: State, a: Action)
    requires Inv(s) && Enabled(s, a)
    ensures Tally(Next(s, a).threads, WriterShare()) == Share(Next(s, a).writer)
    ensures Next(s, a).writer ==> Next(s, a).readers == 0
  {
    hide Tally;
    StepTally(s, a, WriterShare());
  }

  lemma StepKeepsReaders(s: State, a: Action)
    requires Inv(s) && Enabled(s, a)
    ensures Tally(Next(s, a).threads, ReaderShare()) == Next(s, a).readers
  {
    hide Tally;
    StepTally(s, a, ReaderShare());
  }

  lemma StepKeepsInv(s: State, a: Action)
    requires Inv(s) && Enabled(s, a)
    ensures Inv(Next(s, a))
  {
    hide Next, Enabled, Tally;
    StepKeepsCount(s, a);
    StepKeepsWriter(s, a);
    StepKeepsReaders(s, a);
  }

  ghost predicate PossibleRun(s: State, run: seq<Action>)
    decreases run
  {
    run == [] || (Enabled(s, run[0]) && PossibleRun(Next(s, run[0]), run[1..]))
  }

  function After(s: State, run: seq<Action>): State
    requires PossibleRun(s, run)
    decreases run
  {
    if run == [] then s else After(Next(s, run[0]), run[1..])
  }

  ghost predicate Quiet(s: State) {
    s.count == 0 && s.readers == 0 && !s.writer &&
    forall t :: 0 <= t < |s.threads| ==> s.threads[t].pc.Idle? && s.threads[t].depth == 0
  }

  lemma {:induction false} RunKeepsInv(s: State, run: seq<Action>)
    requires Inv(s) && PossibleRun(s, run)
    ensures Inv(After(s, run))
    decreases run
  {
    hide Inv, Enabled, Next;
    if run != [] {
      StepKeepsInv(s, run[0]);
      RunKeepsInv(Next(s, run[0]), run[1..]);
    }
  }

  lemma QuietInv(s: State)
    requires Quiet(s)
    ensures Inv(s)
  {
    TallyZero(s.threads, CountedShare());
    TallyZero(s.threads, WriterShare());
    TallyZero(s.threads, ReaderShare());
  }

  /**
   * In every interleaving the counter is the number of calls between their increment and their
   * decrement, so it is never negative and is zero when nothing runs; and a call that is about to
   * take the lock, or has taken it, is not among them.
   */
  lemma CounterIsExact(s: State, run: seq<Action>)
    requires Quiet(s) && PossibleRun(s, run)
    ensures var r := After(s, run);
            && r.count == Tally(r.threads, CountedShare()) >= 0
            && ((forall t :: 0 <= t < |r.threads| ==> r.threads[t].pc.Idle?) ==> r.count == 0)
            && forall t :: 0 <= t < |r.threads| && (Waits(r.threads[t].pc) || Writes(r.threads[t].pc)) ==>
                 CountedShare()(r.threads[t]) == 0
  {
    QuietInv(s);
    RunKeepsInv(s, run);
    var r := After(s, run);
    if forall t :: 0 <= t < |r.threads| ==> r.threads[t].pc.Idle? {
      TallyZero(r.threads, CountedShare());
    }
  }

  // ----- The wait of CleanUidCache ends -----

  /** An upper bound on the steps a goroutine takes before it needs the lock or is idle. */
  function Budget(): Thread -> nat {
    (th: Thread) =>
      (match th.pc
       case Backoff => 1
       case Pausing => 1
       case HaveEndpoint => 4
       case Calling => 3
       case Leaving => 2
       case Returned => 1
       case _ => 0) + (if UnwindsFirst(th.pc) then 2 * th.depth else 0)
  }

  /** States from which the waiting calls below may be resumed without taking the lock. */
  predicate UnwindsFirst(pc: Pc) {
    pc.HaveEndpoint? || pc.Calling? || pc.Leaving? || pc.Returned?
  }

  /** A new goroutine or call; no other step leaves the budget as it is. */
  predicate Arrival(a: Action) {
    a.Spawn? || a.Request? || a.StartClean?
  }

  /** While `h` stays under the write lock, every other step brings the others closer to the lock. */
  lemma WaitingShrinks(s: State, a: Action, h: nat)
    requires Inv(s) && Enabled(s, a) && h < |s.threads| && Writes(s.threads[h].pc) && a.t != h
    ensures Tally(Next(s, a).threads, Budget()) + (if Arrival(a) then 0 else 1) <= Tally(s.threads, Budget())
    ensures h < |Next(s, a).threads| && Next(s, a).threads[h] == s.threads[h]
  {
    hide Tally;
    if a.t < |s.threads| {
      OneHolder(s, a.t, h);
    }
    StepTally(s, a, Budget());
  }

  lemma OneHolder(s: State, t: nat, h: nat)
    requires Inv(s) && h < |s.threads| && Writes(s.threads[h].pc) && t < |s.threads| && t != h
    ensures s.writer && s.readers == 0 && !Writes(s.threads[t].pc) && !s.threads[t].pc.Reading?
  {
    TallyAtLeast(s.threads, h, WriterShare());
    TallyAtLeast(s.threads, t, ReaderShare());
    if t < h {
      TallyTwo(s.threads, t, h, WriterShare());
    } else {
      TallyTwo(s.threads, h, t, WriterShare());
    }
  }

  /** Whoever is counted can move on without the lock, whoever holds it. */
  lemma CountedMoves(s: State, t: nat)
    requires t < |s.threads| && Counted(s.threads[t].pc)
    ensures Enabled(s, if s.threads[t].pc.Calling? then Deal(t, Finished) else Uncount(t))
  {
  }

  /** Steps by others, while goroutine `h` holds the lock. */
  predicate Others(run: seq<Action>, h: nat) {
    forall i :: 0 <= i < |run| ==> run[i].t != h
  }

  function WorkSteps(run: seq<Action>): nat {
    if run == [] then 0 else (if Arrival(run[0]) then 0 else 1) + WorkSteps(run[1..])
  }

  /**
   * As long as one goroutine stays under the write lock, the others take at most `Tally(…, Budget())`
   * steps besides new arrivals, however they are scheduled.
   */
  lemma {:induction false} OthersRunOut(s: State, run: seq<Action>, h: nat)
    requires Inv(s) && PossibleRun(s, run) && h < |s.threads| && Writes(s.threads[h].pc) && Others(run, h)
    ensures Inv(After(s, run)) && h < |After(s, run).threads| && After(s, run).threads[h] == s.threads[h]
    ensures WorkSteps(run) <= Tally(s.threads, Budget())
    decreases run
  {
    hide Inv, Enabled, Next, Tally;
    if run != [] {
      StepKeepsInv(s, run[0]);
      WaitingShrinks(s, run[0], h);
      assert Others(run[1..], h);
      OthersRunOut(Next(s, run[0]), run[1..], h);
    }
  }

  /**
   * The wait is bounded: while a cleaning waits the others run out of steps, and when they can take no
   * further one besides arrivals, the counter is zero and the cleaning goes ahead.
   */
  lemma CleaningWaitEnds(s: State, run: seq<Action>, c: nat)
    requires Inv(s) && PossibleRun(s, run) && c < |s.threads| && s.threads[c].pc.Cleaning? && Others(run, c)
    ensures Inv(After(s, run)) && c < |After(s, run).threads| && After(s, run).threads[c].pc.Cleaning?
    ensures WorkSteps(run) <= Tally(s.threads, Budget())
    ensures var r := After(s, run);
            (forall a :: Enabled(r, a) && a.t != c ==> Arrival(a)) ==> Enabled(r, Clean(c))
  {
    hide Inv, Enabled, Next, Tally, PossibleRun, After;
    OthersRunOut(s, run, c);
    StuckMeansZero(After(s, run), c);
  }

  lemma StuckMeansZero(s: State, c: nat)
    requires Inv(s) && c < |s.threads| && s.threads[c].pc.Cleaning?
    ensures (forall a :: Enabled(s, a) && a.t != c ==> Arrival(a)) ==> Enabled(s, Clean(c))
  {
    if forall a :: Enabled(s, a) && a.t != c ==> Arrival(a) {
      forall t | 0 <= t < |s.threads|
        ensures CountedShare()(s.threads[t]) == 0
      {
        if Counted(s.threads[t].pc) {
          CountedMoves(s, t);
        }
      }
      TallyZero(s.threads, CountedShare());
    }
  }
}
