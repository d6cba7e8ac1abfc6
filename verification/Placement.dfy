/** Where a run of queries leaves each user, read off the queries alone. */
module Placement {
  import opened Sequences
  import opened Fates
  import opened EndpointIndex

  /** What the user's query under way has met, if there is one. */
  function Met(run: seq<Event>, uid: string): Option<World> {
    if run == [] then None
    else if run[|run| - 1].uid != uid then Met(run[..|run| - 1], uid)
    else match run[|run| - 1] case Read(_, w) => Some(w) case Commit(_, _) => None
  }

  /** The node of the last query that moved the user and whose transaction took effect. */
  function Place(run: seq<Event>, uid: string): Option<string> {
    if run == [] then None
    else
      var before, e := run[..|run| - 1], run[|run| - 1];
      var at := Place(before, uid);
      if e.Commit? && e.uid == uid && e.fate != Lost && Met(before, uid).Some? && Moves(at, Met(before, uid).value)
      then Met(before, uid).value.node
      else at
  }

  const NOTHING := Calls(map[], map[])

  lemma {:induction false} RunSnoc(s: Calls, run: seq<Event>, e: Event)
    ensures PossibleRun(s, run + [e]) <==> PossibleRun(s, run) && Enabled(After(s, run), e)
    ensures PossibleRun(s, run + [e]) ==> After(s, run + [e]) == Next(After(s, run), e)
    decreases run
  {
    hide Enabled, Next;
    if run == [] {
      assert [] + [e] == [e] && [e][1..] == [];
    } else {
      assert (run + [e])[1..] == run[1..] + [e];
      if Enabled(s, run[0]) {
        RunSnoc(Next(s, run[0]), run[1..], e);
      }
    }
  }

  lemma ReadStep(s: Calls, e: Event, uid: string)
    requires Enabled(s, e) && e.Read?
    ensures Entry(Next(s, e).table, uid) == Entry(s.table, uid)
    ensures uid != e.uid ==> (uid in Next(s, e).pending <==> uid in s.pending)
    ensures uid != e.uid && uid in s.pending ==> Next(s, e).pending[uid] == s.pending[uid]
    ensures uid == e.uid ==> uid in Next(s, e).pending && Next(s, e).pending[uid] == Decide(Entry(s.table, uid), e.w)
  {
  }

  lemma CommitStep(s: Calls, e: Event, uid: string)
    requires Inv(s) && Enabled(s, e) && e.Commit?
    ensures uid != e.uid ==> Entry(Next(s, e).table, uid) == Entry(s.table, uid)
    ensures uid != e.uid ==> (uid in Next(s, e).pending <==> uid in s.pending)
    ensures uid != e.uid && uid in s.pending ==> Next(s, e).pending[uid] == s.pending[uid]
    ensures uid == e.uid ==> uid in s.pending && uid !in Next(s, e).pending
  {
    hide Settled, Agree, Entry;
    SettledAgrees(s.table, e.uid, s.pending[e.uid], e.fate);
  }

  /** The decision of a pending query is the one for the place that its user still has. */
  lemma {:induction false} PlaceAfter(run: seq<Event>, uid: string)
    requires PossibleRun(NOTHING, run)
    ensures Inv(After(NOTHING, run))
    ensures var s := After(NOTHING, run);
            && Entry(s.table, uid) == Place(run, uid)
            && (uid in s.pending <==> Met(run, uid).Some?)
            && (uid in s.pending ==> s.pending[uid] == Decide(Place(run, uid), Met(run, uid).value))
    decreases run
  {
    hide Enabled, Next, Entry, Decide, Inv, Moves;
    EmptyAgrees();
    if run == [] {
      NobodyPlaced(uid);
    } else {
      var before, e := run[..|run| - 1], run[|run| - 1];
      assert run == before + [e];
      RunSnoc(NOTHING, before, e);
      PlaceAfter(before, uid);
      var s := After(NOTHING, before);
      StepKeepsInv(s, e);
      if e.Read? {
        ReadStep(s, e, uid);
      } else {
        CommitStep(s, e, uid);
        if e.uid == uid {
          CommitPlaces(s, e, Met(before, uid).value);
        }
      }
    }
  }

  lemma NobodyPlaced(uid: string)
    ensures Entry(NOTHING.table, uid) == None
  {
  }

  lemma CommitPlaces(s: Calls, e: Event, w: World)
    requires Enabled(s, e) && e.Commit? && s.pending[e.uid] == Decide(Entry(s.table, e.uid), w)
    ensures Entry(Next(s, e).table, e.uid) ==
      if e.fate != Lost && Moves(Entry(s.table, e.uid), w) then w.node else Entry(s.table, e.uid)
  {
    hide Settled, Decide, Entry, Moves;
    QueryServes(s.table, e.uid, w, e.fate);
  }

  /**
   * After any run a user is where the last query that moved it put it, and a query under way ends and
   * answers as it should for that place and for what it has met.
   */
  lemma PlaceOfRun(run: seq<Event>, uid: string, fate: Fate)
    requires PossibleRun(NOTHING, run)
    ensures var s := After(NOTHING, run);
            && Entry(s.table, uid) == Place(run, uid)
            && (uid in s.pending ==>
                  Met(run, uid).Some? && Enabled(s, Commit(uid, fate))
                  && Served(Place(run, uid), Met(run, uid).value, fate, Entry(Next(s, Commit(uid, fate)).table, uid),
                            Answered(s.pending[uid], fate)))
  {
    hide Settled, Decide, Entry, Moves, Served, Answered;
    PlaceAfter(run, uid);
    var s := After(NOTHING, run);
    if uid in s.pending {
      QueryServes(s.table, uid, Met(run, uid).value, fate);
    }
  }
}
