/** What logins guard over whole runs, and how a user moves from one server to another without loss. */
module HandOver {
  import opened Sequences
  import opened Histories
  import opened Storage
  import opened Lru
  import opened LruLaws
  import T = TokenCaches
  import M = Managers
  import opened Transparency
  import opened SearchServers

  // ----- An upload reaches the recorder only under a login -----

  /** What a request does to the token cache. */
  function TokenEvents(r: Request): seq<T.Event> {
    match r
    case Login(uid, earned, addr) => if earned.Some? then [T.Update(uid, earned.value, addr)] else []
    case Logout(uid, addr) => [T.Remove(uid, addr)]
    case UidLogout(uid, _) => [T.Remove(uid, "")]
    case _ => []
  }

  function AllTokenEvents(rs: seq<Request>): seq<T.Event> {
    if rs == [] then [] else AllTokenEvents(rs[..|rs| - 1]) + TokenEvents(rs[|rs| - 1])
  }

  function Served(c: M.Config, s: Server, data: Store, rs: seq<Request>): (Server, Store)
    requires M.Sound(c)
  {
    if rs == [] then (s, data)
    else
      var (s1, data1) := Served(c, s, data, rs[..|rs| - 1]);
      Handled(c, s1, data1, rs[|rs| - 1])
  }

  lemma TokensStep(s: Server, r: Request, es: seq<T.Event>)
    requires s.tokens == T.Run(map[], es)
    ensures Tokens(s, r) == T.Run(map[], es + TokenEvents(r))
  {
    hide T.Run;
    if TokenEvents(r) == [] {
      assert es + TokenEvents(r) == es;
    } else {
      T.RunSnoc(map[], es, TokenEvents(r)[0]);
    }
  }

  lemma {:induction false} TokensOfRun(c: M.Config, data: Store, rs: seq<Request>)
    requires M.Sound(c)
    ensures Served(c, Server(map[], [], []), data, rs).0.tokens == T.Run(map[], AllTokenEvents(rs))
  {
    hide M.Step, TokenEvents, Tokens;
    if rs != [] {
      var before, r := rs[..|rs| - 1], rs[|rs| - 1];
      TokensOfRun(c, data, before);
      TokensStep(Served(c, Server(map[], [], []), data, before).0, r, AllTokenEvents(before));
    }
  }

  /**
   * After any run of a server that starts with nobody logged in, an Upload reaches the recorder manager
   * exactly when its token is the one its user last logged in with from that address, and neither a
   * logout of that address nor a logout of the user came after.
   */
  lemma UploadNeedsLogin(c: M.Config, data: Store, rs: seq<Request>, uid: string, addr: string, token: string,
                         line: string, net: M.Net)
    requires M.Sound(c)
    ensures var s := Served(c, Server(map[], [], []), data, rs).0;
            Demand(s, Upload(uid, addr, token, line, net)).Some? <==>
              addr != "" && T.LoggedIn(AllTokenEvents(rs), uid, token, addr)
  {
    hide T.LoggedIn, Served;
    TokensOfRun(c, data, rs);
    T.CheckedIffLoggedIn(AllTokenEvents(rs), uid, token, addr);
  }

  // ----- Two servers over one store -----

  datatype World = World(first: Server, second: Server, data: Store)

  datatype Step = First(r: Request) | Second(r: Request)

  function Next(c: M.Config, w: World, step: Step): World
    requires M.Sound(c)
  {
    match step
    case First(r) => var (s, data) := Handled(c, w.first, w.data, r); World(s, w.second, data)
    case Second(r) => var (s, data) := Handled(c, w.second, w.data, r); World(w.first, s, data)
  }

  function Demanded(w: World, step: Step): Option<M.Event> {
    match step case First(r) => Demand(w.first, r) case Second(r) => Demand(w.second, r)
  }

  ghost predicate Inv(c: M.Config, w: World) {
    M.Inv(c, View(w.first, w.data)) && M.Inv(c, View(w.second, w.data))
  }

  /** The first server has let go of the user: no recorder, no login. */
  predicate LetGo(w: World, uid: string) {
    uid !in Names(w.first.live) && uid !in w.first.tokens
  }

  /** A late tick of a recorder that the server has stopped for the user. */
  predicate OwnLateTick(s: Server, r: Request, uid: string) {
    r.Ticker? && r.tick.LateTick? && r.tick.j < |s.stopped| && Sprint(s.stopped[r.tick.j].key) == uid
  }

  /** The second server's recorders with those that the first one has stopped. */
  function Crossed(w: World): M.State {
    M.State(w.second.live, w.first.stopped, w.data)
  }

  /**
   * What the hand-over relies on afterwards. On the first server: no new login of the user, no search
   * that skips the login check and reopens the recorder; and a late tick of a recorder that it stopped
   * for the user is lost, finds the user live on the second server, or saves what is stored anyway. On
   * the second: its store calls lose nothing.
   */
  ghost predicate Calm(c: M.Config, w: World, step: Step, uid: string)
    requires M.Sound(c)
  {
    && (Demanded(w, step).Some? ==> M.UsersOnly(c, Demanded(w, step).value))
    && match step
       case First(r) =>
         && !(r.Login? && r.uid == uid && r.earned.Some?)
         && !(r.Search? && r.uid == uid && r.q != "")
         && (OwnLateTick(w.first, r, uid) ==> LateTickSafe(c, Crossed(w), r.tick.j, r.tick.saved))
       case Second(r) =>
         Demanded(w, step).Some? ==> Safe(c, View(w.second, w.data), Demanded(w, step).value)
  }

  /** The command that a step adds to the user's history: an admitted upload to the second server. */
  function AddedLine(w: World, step: Step, uid: string): seq<string> {
    if step.Second? && step.r.Upload? && step.r.uid == uid && Admitted(w.second, step.r) then [step.r.line] else []
  }

  // ----- Steps of the first server -----

  /** The history stored for a user who is neither live nor touched survives whatever the manager does. */
  lemma UntouchedStays(c: M.Config, st: M.State, e: M.Event, uid: string)
    requires M.Sound(c) && M.DistinctKeys(c) && M.Inv(c, st) && M.UsersOnly(c, e) && uid in c.users
    requires uid !in Names(st.live)
    requires e.Add? ==> e.id != uid
    requires e.Find? ==> e.id != uid || (e.id == "" && e.q == "")
    requires e.LateTick? && e.j < |st.stopped| ==> Sprint(st.stopped[e.j].key) != uid
    ensures var r := M.Step(c, st, e).0;
            M.Inv(c, r) && uid !in Names(r.live) && M.Stored(c, r.data, uid) == M.Stored(c, st.data, uid)
  {
    hide Names, IndexOf, Looked, M.Stored, M.Access, M.AddLine, M.Stop, M.Inv;
    match e {
      case Add(id, s, net) =>
        UntouchedAccess(c, st, id, net, uid);
        UntouchedAdd(c, st, id, s, net, uid);
      case Find(id, q, net) =>
        if !(id == "" && q == "") {
          UntouchedAccess(c, st, id, net, uid);
        }
      case StopOne(id, saved) =>
        UntouchedStop(c, st, id, saved, uid);
      case Tick(id, saved) =>
        UntouchedTick(c, st, id, saved, uid);
      case LateTick(j, saved) =>
        UntouchedLateTick(c, st, j, saved, uid);
    }
  }

  lemma UntouchedMade(c: M.Config, st: M.State, id: string, net: M.Net, uid: string)
    requires M.Sound(c) && M.DistinctKeys(c) && M.Inv(c, st) && id in c.users && uid in c.users
    requires uid !in Names(st.live) && id != uid
    ensures var r := M.EnsureLive(c, st, id, net);
            M.Inv(c, r) && uid !in Names(r.live) && M.Stored(c, r.data, uid) == M.Stored(c, st.data, uid)
  {
    hide Names, IndexOf, Looked, Added, History, M.Stored;
    EnsureLiveInv(c, st, id, net);
    if id !in Names(st.live) {
      var lines := if net.loaded then M.Stored(c, st.data, id) else [];
      AddedLaw(st.live, c.slots, StringKey(id), lines, StringKey(uid));
      if |st.live| == c.slots {
        var victim := st.live[|st.live| - 1];
        LogicalLive(c, st, |st.live| - 1);
        StoredSaved(c, st.data, victim, net.save.Landed(), uid);
      }
    }
  }

  lemma UntouchedAccess(c: M.Config, st: M.State, id: string, net: M.Net, uid: string)
    requires M.Sound(c) && M.DistinctKeys(c) && M.Inv(c, st) && id in c.users && uid in c.users
    requires uid !in Names(st.live) && id != uid
    ensures var r := M.Access(c, st, id, net);
            M.Inv(c, r) && uid !in Names(r.live) && M.Stored(c, r.data, uid) == M.Stored(c, st.data, uid)
  {
    hide Names, IndexOf, Looked, Refreshed, History, M.Stored, M.EnsureLive;
    AccessInv(c, st, id, net);
    UntouchedMade(c, st, id, net, uid);
    RefreshedLaw(M.EnsureLive(c, st, id, net).live, c.slots, StringKey(id), StringKey(uid));
  }

  lemma UntouchedAdd(c: M.Config, st: M.State, id: string, s: string, net: M.Net, uid: string)
    requires M.Sound(c) && M.Inv(c, M.Access(c, st, id, net)) && uid !in Names(M.Access(c, st, id, net).live)
    ensures var a, r := M.Access(c, st, id, net), M.AddLine(c, st, id, s, net);
            M.Inv(c, r) && uid !in Names(r.live) && r.data == a.data
  {
    hide M.Access, IndexOf;
    var a := M.Access(c, st, id, net);
    HeadLaw(a.live, Record(a.live[0].value, c.capacity, s), StringKey(uid));
    RecordKeepsHistory(a.live[0].value, c.capacity, s);
  }

  lemma UntouchedStop(c: M.Config, st: M.State, id: string, saved: bool, uid: string)
    requires M.Sound(c) && M.DistinctKeys(c) && M.Inv(c, st) && uid in c.users && uid !in Names(st.live)
    ensures var r := M.Stop(c, st, id, saved);
            M.Inv(c, r) && uid !in Names(r.live) && M.Stored(c, r.data, uid) == M.Stored(c, st.data, uid)
  {
    hide Names, M.Stored, IndexOf, Looked;
    StopInv(c, st, id, saved);
    var k := IndexOf(st.live, id);
    if k < |st.live| {
      RemoveAtLaw(st.live, k, StringKey(uid));
      LogicalLive(c, st, k);
      StoredSaved(c, st.data, st.live[k], saved, uid);
    }
  }

  lemma UntouchedTick(c: M.Config, st: M.State, id: string, saved: bool, uid: string)
    requires M.Sound(c) && M.DistinctKeys(c) && M.Inv(c, st) && uid in c.users && uid !in Names(st.live)
    ensures var r := M.Step(c, st, M.Tick(id, saved)).0;
            M.Inv(c, r) && uid !in Names(r.live) && M.Stored(c, r.data, uid) == M.Stored(c, st.data, uid)
  {
    hide Names, M.Stored, IndexOf;
    TickMeaning(c, st, id, saved);
    var k := IndexOf(st.live, id);
    if k < |st.live| {
      LogicalLive(c, st, k);
      StoredSaved(c, st.data, st.live[k], saved, uid);
    }
  }

  lemma UntouchedLateTick(c: M.Config, st: M.State, j: nat, saved: bool, uid: string)
    requires M.Sound(c) && M.DistinctKeys(c) && M.Inv(c, st) && uid in c.users && uid !in Names(st.live)
    requires j < |st.stopped| ==> Sprint(st.stopped[j].key) != uid
    ensures var r := M.Step(c, st, M.LateTick(j, saved)).0;
            M.Inv(c, r) && uid !in Names(r.live) && M.Stored(c, r.data, uid) == M.Stored(c, st.data, uid)
  {
    hide Names, M.Stored, IndexOf;
    LateTickExact(c, st, j, saved);
    if j < |st.stopped| {
      StoredSaved(c, st.data, st.stopped[j], saved, uid);
    }
  }

  lemma SameData(c: M.Config, s: Server, a: Store, b: Store, uid: string)
    requires M.Stored(c, a, uid) == M.Stored(c, b, uid)
    ensures M.Logical(c, View(s, a), uid) == M.Logical(c, View(s, b), uid)
    ensures M.Inv(c, View(s, a)) <==> M.Inv(c, View(s, b))
  {
  }

  /** Whoever has no token is turned away, and what its requests ask of the manager never touches the user. */
  lemma LetGoDemand(s: Server, r: Request, uid: string)
    requires uid !in s.tokens && !(r.Search? && r.uid == uid && r.q != "") && Demand(s, r).Some?
    ensures var e := Demand(s, r).value;
            (e.Add? ==> e.id != uid) && (e.Find? ==> e.id != uid || (e.id == "" && e.q == ""))
  {
  }

  /** A late tick of the first server does to the second one's histories what one of its own would. */
  lemma CrossedLateTick(c: M.Config, w: World, j: nat, saved: bool, uid: string)
    requires M.Sound(c) && M.DistinctKeys(c) && Inv(c, w) && uid in c.users && LateTickSafe(c, Crossed(w), j, saved)
    ensures var data := M.Step(c, View(w.first, w.data), M.LateTick(j, saved)).0.data;
            M.Logical(c, View(w.second, data), uid) == M.Logical(c, View(w.second, w.data), uid)
    ensures var r := M.Step(c, View(w.first, w.data), M.LateTick(j, saved)).0; M.Inv(c, r) && r.live == w.first.live
  {
    hide M.Logical, Names, M.Stored, LateTickSafe;
    var e := M.LateTick(j, saved);
    LateTickExact(c, View(w.first, w.data), j, saved);
    LateTickExact(c, Crossed(w), j, saved);
    var after := M.Step(c, Crossed(w), e).0;
    assert M.Meaning(c, after)[uid] == M.Meaning(c, Crossed(w))[uid];
    SameLogical(c, after, View(w.second, after.data), uid);
    SameLogical(c, Crossed(w), View(w.second, w.data), uid);
  }

  lemma SameLogical(c: M.Config, a: M.State, b: M.State, uid: string)
    requires a.live == b.live && a.data == b.data
    ensures M.Logical(c, a, uid) == M.Logical(c, b, uid)
  {
  }

  lemma FirstStep(c: M.Config, w: World, r: Request, uid: string)
    requires M.Sound(c) && M.DistinctKeys(c) && Inv(c, w) && uid in c.users && LetGo(w, uid)
    requires Calm(c, w, First(r), uid)
    ensures var n := Next(c, w, First(r));
            && Inv(c, n) && LetGo(n, uid)
            && M.Logical(c, View(n.second, n.data), uid) == M.Logical(c, View(w.second, w.data), uid)
    ensures r.Upload? && r.uid == uid ==> ResponseTo(c, w.first, w.data, r).code == 403
  {
    hide Names, M.Stored, M.Logical, M.Step, M.Inv;
    var n := Next(c, w, First(r));
    if Demand(w.first, r).Some? {
      LetGoDemand(w.first, r, uid);
      if OwnLateTick(w.first, r, uid) {
        CrossedLateTick(c, w, r.tick.j, r.tick.saved, uid);
        FirstUnmoved(c, w.second, w.data, n.data);
      } else {
        UntouchedStays(c, View(w.first, w.data), Demand(w.first, r).value, uid);
        SameData(c, w.second, w.data, n.data, uid);
      }
    }
  }

  lemma SecondStep(c: M.Config, w: World, r: Request, uid: string)
    requires M.Sound(c) && M.DistinctKeys(c) && Inv(c, w) && uid in c.users && LetGo(w, uid)
    requires Calm(c, w, Second(r), uid)
    ensures var n := Next(c, w, Second(r));
            && Inv(c, n) && LetGo(n, uid)
            && M.Logical(c, View(n.second, n.data), uid)
               == RecordAll(M.Logical(c, View(w.second, w.data), uid), c.capacity, AddedLine(w, Second(r), uid))
    ensures r.Search? && r.uid == uid && r.q != "" ==>
              ResponseTo(c, w.second, w.data, r)
              == Response(200, "", Answer(M.Logical(c, View(w.second, w.data), uid), r.q))
  {
    hide Names, M.Stored, M.Logical, M.Step, M.Inv, Record, Safe;
    var st := View(w.second, w.data);
    var n := Next(c, w, Second(r));
    NoLines(M.Logical(c, st, uid), c.capacity);
    if Demand(w.second, r).Some? {
      var e := Demand(w.second, r).value;
      StepSimulates(c, st, e);
      assert M.Meaning(c, st)[uid] == M.Logical(c, st, uid);
      var st' := M.Step(c, st, e).0;
      assert M.Meaning(c, st')[uid] == M.Logical(c, st', uid);
      assert View(n.second, n.data) == st';
      if e.Add? && e.id == uid {
        OneLine(M.Logical(c, st, uid), c.capacity, e.s);
      }
    }
    FirstUnmoved(c, w.first, w.data, n.data);
  }

  lemma FirstUnmoved(c: M.Config, s: Server, a: Store, b: Store)
    ensures M.Inv(c, View(s, a)) <==> M.Inv(c, View(s, b))
  {
  }

  lemma NoLines(h: seq<string>, capacity: nat)
    requires capacity >= 1
    ensures RecordAll(h, capacity, []) == h
  {
  }

  lemma OneLine(h: seq<string>, capacity: nat, s: string)
    requires capacity >= 1
    ensures RecordAll(h, capacity, [s]) == Record(h, capacity, s)
  {
    assert [s][..0] == [];
  }

  // ----- The hand-over -----

  ghost predicate CalmRun(c: M.Config, w: World, steps: seq<Step>, uid: string)
    requires M.Sound(c)
    decreases steps
  {
    steps == [] || (Calm(c, w, steps[0], uid) && CalmRun(c, Next(c, w, steps[0]), steps[1..], uid))
  }

  function After(c: M.Config, w: World, steps: seq<Step>): World
    requires M.Sound(c)
    decreases steps
  {
    if steps == [] then w else After(c, Next(c, w, steps[0]), steps[1..])
  }

  /** The commands that the second server accepts for the user over a run, oldest first. */
  function Lines(c: M.Config, w: World, steps: seq<Step>, uid: string): seq<string>
    requires M.Sound(c)
    decreases steps
  {
    if steps == [] then [] else AddedLine(w, steps[0], uid) + Lines(c, Next(c, w, steps[0]), steps[1..], uid)
  }

  lemma {:induction false} CalmRunKeeps(c: M.Config, w: World, steps: seq<Step>, uid: string)
    requires M.Sound(c) && M.DistinctKeys(c) && Inv(c, w) && uid in c.users && LetGo(w, uid)
    requires CalmRun(c, w, steps, uid)
    ensures var r := After(c, w, steps);
            && Inv(c, r) && LetGo(r, uid)
            && M.Logical(c, View(r.second, r.data), uid)
               == RecordAll(M.Logical(c, View(w.second, w.data), uid), c.capacity, Lines(c, w, steps, uid))
    decreases steps
  {
    hide Next, Inv, LetGo, Calm, AddedLine, M.Logical, RecordAll;
    var h := M.Logical(c, View(w.second, w.data), uid);
    if steps == [] {
      NoLines(h, c.capacity);
    } else {
      var n := Next(c, w, steps[0]);
      var now, later := AddedLine(w, steps[0], uid), Lines(c, n, steps[1..], uid);
      StepKeeps(c, w, steps[0], uid);
      CalmRunKeeps(c, n, steps[1..], uid);
      RecordAllConcat(h, c.capacity, now, later);
    }
  }

  lemma StepKeeps(c: M.Config, w: World, step: Step, uid: string)
    requires M.Sound(c) && M.DistinctKeys(c) && Inv(c, w) && uid in c.users && LetGo(w, uid) && Calm(c, w, step, uid)
    ensures var n := Next(c, w, step);
            && Inv(c, n) && LetGo(n, uid)
            && M.Logical(c, View(n.second, n.data), uid)
               == RecordAll(M.Logical(c, View(w.second, w.data), uid), c.capacity, AddedLine(w, step, uid))
  {
    hide Next, Inv, LetGo, Calm, M.Logical;
    match step {
      case First(r) =>
        FirstStep(c, w, r, uid);
        NoLines(M.Logical(c, View(w.second, w.data), uid), c.capacity);
      case Second(r) =>
        SecondStep(c, w, r, uid);
    }
  }

  /** A logout of the user whose save goes through leaves the whole history in the store. */
  lemma LogoutLetsGo(c: M.Config, w: World, uid: string)
    requires M.Sound(c) && M.DistinctKeys(c) && Inv(c, w) && uid in c.users && uid !in Names(w.second.live)
    ensures var n := Next(c, w, First(UidLogout(uid, true)));
            && Inv(c, n) && LetGo(n, uid)
            && M.Logical(c, View(n.second, n.data), uid) == M.Logical(c, View(w.first, w.data), uid)
  {
    hide Names, M.Stored, M.Inv;
    var st := View(w.first, w.data);
    var n := Next(c, w, First(UidLogout(uid, true)));
    StopInv(c, st, uid, true);
    StopExact(c, st, uid, true);
    FirstUnmoved(c, w.second, w.data, n.data);
    assert M.Meaning(c, st)[uid] == M.Logical(c, st, uid);
    assert M.Meaning(c, M.Stop(c, st, uid, true))[uid] == M.Logical(c, M.Stop(c, st, uid, true), uid);
    StoppedIsAway(c, st, uid, true);
  }

  lemma StoppedIsAway(c: M.Config, st: M.State, uid: string, saved: bool)
    requires M.Sound(c) && M.Inv(c, st)
    ensures uid !in Names(M.Stop(c, st, uid, saved).live)
  {
    hide IndexOf;
    var k := IndexOf(st.live, uid);
    if k < |st.live| {
      NamesRemoveAt(st.live, k);
      NoDupRemoveAt(Names(st.live), k);
      assert Names(st.live)[k] == uid;
    }
  }

  /**
   * Hand-over without loss. After `UidLogout` on the first server, through any calm run of requests to
   * both servers, the first server turns the user's uploads away, and the second one's history of the
   * user is what the first one's was, followed by the commands that the second one accepted.
   */
  lemma HandOverWithoutLoss(c: M.Config, w: World, steps: seq<Step>, uid: string)
    requires M.Sound(c) && M.DistinctKeys(c) && Inv(c, w) && uid in c.users && uid !in Names(w.second.live)
    requires CalmRun(c, Next(c, w, First(UidLogout(uid, true))), steps, uid)
    ensures var n := Next(c, w, First(UidLogout(uid, true)));
            var r := After(c, n, steps);
            && M.Logical(c, View(r.second, r.data), uid)
               == RecordAll(M.Logical(c, View(w.first, w.data), uid), c.capacity, Lines(c, n, steps, uid))
            && uid !in Names(r.first.live)
            && forall addr, token, line, net :: !Admitted(r.first, Upload(uid, addr, token, line, net))
  {
    hide Next, Inv, M.Logical, Names, Lines, After;
    LogoutLetsGo(c, w, uid);
    CalmRunKeeps(c, Next(c, w, First(UidLogout(uid, true))), steps, uid);
  }

  /** Right after the hand-over the second server answers a search as the first would have before it. */
  lemma SameAnswers(c: M.Config, w: World, uid: string, q: string, net1: M.Net, net2: M.Net)
    requires M.Sound(c) && M.DistinctKeys(c) && Inv(c, w) && uid in c.users && uid !in Names(w.second.live)
    requires Safe(c, View(w.first, w.data), M.Find(uid, q, net1))
    requires var n := Next(c, w, First(UidLogout(uid, true)));
             Safe(c, View(n.second, n.data), M.Find(uid, q, net2))
    ensures var n := Next(c, w, First(UidLogout(uid, true)));
            M.Step(c, View(n.second, n.data), M.Find(uid, q, net2)).1
              == M.Step(c, View(w.first, w.data), M.Find(uid, q, net1)).1
  {
    hide Next, M.Logical, Names, M.Step, Safe;
    LogoutLetsGo(c, w, uid);
    var n := Next(c, w, First(UidLogout(uid, true)));
    var a, b := View(w.first, w.data), View(n.second, n.data);
    StepSimulates(c, a, M.Find(uid, q, net1));
    StepSimulates(c, b, M.Find(uid, q, net2));
    assert M.Meaning(c, a)[uid] == M.Logical(c, a, uid) && M.Meaning(c, b)[uid] == M.Logical(c, b, uid);
  }
}
