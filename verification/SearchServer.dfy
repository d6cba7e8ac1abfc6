/** The search server's handlers: logins guard the recorder manager. */
module SearchServers {
  import opened Sequences
  import opened Fates
  import opened Storage
  import opened TokenCaches
  import M = Managers
  import opened RecorderManagers

  /** `earned` is the token a correct password gives, None for a wrong one. `addr` is where the client is. */
  datatype Request =
    | Login(uid: string, earned: Option<string>, addr: string)
    | Logout(uid: string, addr: string)
    | Upload(uid: string, addr: string, token: string, line: string, net: M.Net)
    | Search(uid: string, addr: string, token: string, q: string, net: M.Net)
    | UidLogout(uid: string, saved: bool)
    | Ticker(tick: M.Event)

  datatype Response = Response(code: int, token: string, found: seq<string>)

  datatype Server = Server(tokens: Table, live: M.Live, stopped: M.Live)

  function View(s: Server, data: Store): M.State {
    M.State(s.live, s.stopped, data)
  }

  function With(s: Server, st: M.State): Server {
    s.(live := st.live, stopped := st.stopped)
  }

  /** Whether a request gets past the login check, if it has one. */
  predicate Admitted(s: Server, r: Request) {
    match r
    case Upload(uid, addr, token, _, _) => Checked(s.tokens, uid, token, addr)
    case Search(uid, addr, token, q, _) => uid == "" || q != "" || Checked(s.tokens, uid, token, addr)
    case _ => true
  }

  /** What a request asks of the recorder manager, if it gets there. */
  function Demand(s: Server, r: Request): Option<M.Event> {
    if !Admitted(s, r) then None
    else
      match r
      case Upload(uid, _, _, line, net) => Some(M.Add(uid, line, net))
      case Search(uid, _, _, q, net) => Some(M.Find(uid, q, net))
      case UidLogout(uid, saved) => Some(M.StopOne(uid, saved))
      case Ticker(tick) => if tick.Tick? || tick.LateTick? then Some(tick) else None
      case _ => None
  }

  function Tokens(s: Server, r: Request): Table {
    match r
    case Login(uid, earned, addr) => if earned.Some? then Updated(s.tokens, uid, earned.value, addr) else s.tokens
    case Logout(uid, addr) => Revoked(s.tokens, uid, addr)
    case UidLogout(uid, _) => Revoked(s.tokens, uid, "")
    case _ => s.tokens
  }

  function Handled(c: M.Config, s: Server, data: Store, r: Request): (Server, Store)
    requires M.Sound(c)
  {
    var guarded := s.(tokens := Tokens(s, r));
    match Demand(s, r)
    case None => (guarded, data)
    case Some(e) =>
      var st := M.Step(c, View(s, data), e).0;
      (With(guarded, st), st.data)
  }

  function ResponseTo(c: M.Config, s: Server, data: Store, r: Request): Response
    requires M.Sound(c)
  {
    match r
    case Login(_, earned, _) => if earned.Some? then Response(200, earned.value, []) else Response(403, "", [])
    case Upload(_, _, _, line, _) =>
      Response(if !Admitted(s, r) then 403 else if line == "" then 503 else 200, "", [])
    case Search(uid, _, _, q, net) =>
      if !Admitted(s, r) then Response(403, "", [])
      else
        var out := M.Step(c, View(s, data), M.Find(uid, q, net)).1;
        Response(200, "", if out.Answered? then out.found else [])
    case _ => Response(200, "", [])
  }

  lemma OneExtra(addr: string)
    ensures LoginInfo([addr]) == addr && LoginInfo([]) == ""
  {
    assert [addr][..0] == [];
  }

  class SearchServer {
    const auth: TokenCache
    const mgr: RecorderManager

    ghost predicate Valid()
      reads this, auth, mgr, mgr.Repr
    {
      mgr.Valid() && auth !in mgr.Repr
    }

    ghost function Now(): Server
      requires Valid()
      reads this, auth, mgr, mgr.Repr, mgr.store
    {
      var st := mgr.View();
      Server(auth.loginCache, st.live, st.stopped)
    }

    constructor (c: M.Config, store: EtcdStore)
      requires M.Sound(c)
      ensures Valid() && Now() == Server(map[], [], []) && mgr.c == c && mgr.store == store
    {
      auth := new TokenCache();
      mgr := new RecorderManager(c, store);
    }

    method HandleLogin(uid: string, earned: Option<string>, addr: string) returns (resp: Response)
      requires Valid()
      modifies auth
      ensures Valid()
      ensures var r := Login(uid, earned, addr);
              && (Now(), mgr.store.data) == Handled(mgr.c, old(Now()), old(mgr.store.data), r)
              && resp == ResponseTo(mgr.c, old(Now()), old(mgr.store.data), r)
    {
      hide RecorderManager.Valid, RecorderManager.View;
      OneExtra(addr);
      resp := Response(403, "", []);
      if earned.Some? {
        auth.UpdateTokenCache(uid, earned.value, [addr]);
        resp := Response(200, earned.value, []);
      }
    }

    method HandleLogout(uid: string, addr: string) returns (code: int)
      requires Valid()
      modifies auth
      ensures Valid()
      ensures var r := Logout(uid, addr);
              && (Now(), mgr.store.data) == Handled(mgr.c, old(Now()), old(mgr.store.data), r)
              && Response(code, "", []) == ResponseTo(mgr.c, old(Now()), old(mgr.store.data), r)
    {
      hide RecorderManager.Valid, RecorderManager.View;
      OneExtra(addr);
      auth.RemoveTokenCache(uid, [addr]);
      code := 200;
    }

    method HandleUpload(uid: string, addr: string, token: string, line: string, net: M.Net) returns (code: int)
      requires Valid()
      modifies mgr.Repr, mgr.store
      ensures Valid()
      ensures var r := Upload(uid, addr, token, line, net);
              && (Now(), mgr.store.data) == Handled(mgr.c, old(Now()), old(mgr.store.data), r)
              && Response(code, "", []) == ResponseTo(mgr.c, old(Now()), old(mgr.store.data), r)
    {
      hide RecorderManager.Valid, RecorderManager.View, M.AddLine;
      OneExtra(addr);
      var ok := auth.CheckLoginState(uid, token, [addr]);
      if !ok {
        return 403;
      }
      var refused := mgr.Add(uid, line, net);
      code := if refused then 503 else 200;
    }

    method HandleSearch(uid: string, addr: string, token: string, q: string, net: M.Net) returns (resp: Response)
      requires Valid()
      modifies mgr.Repr, mgr.store
      ensures Valid()
      ensures var r := Search(uid, addr, token, q, net);
              && (Now(), mgr.store.data) == Handled(mgr.c, old(Now()), old(mgr.store.data), r)
              && resp == ResponseTo(mgr.c, old(Now()), old(mgr.store.data), r)
    {
      hide RecorderManager.Valid, RecorderManager.View, M.Step;
      OneExtra(addr);
      if uid != "" && q == "" {
        var ok := auth.CheckLoginState(uid, token, [addr]);
        if !ok {
          return Response(403, "", []);
        }
      }
      var found := mgr.Find(uid, q, net);
      resp := Response(200, "", found);
    }

    method HandleUidLogout(uid: string, fate: Fate) returns (code: int)
      requires Valid()
      modifies auth, mgr.Repr, mgr.store
      ensures Valid()
      ensures var r := UidLogout(uid, fate.Landed());
              && (Now(), mgr.store.data) == Handled(mgr.c, old(Now()), old(mgr.store.data), r)
              && Response(code, "", []) == ResponseTo(mgr.c, old(Now()), old(mgr.store.data), r)
    {
      hide RecorderManager.Valid, RecorderManager.View, M.Stop;
      OneExtra("");
      auth.RemoveTokenCache(uid, []);
      mgr.Stop(uid, fate);
      code := 200;
    }
  }
}
