/** The search server's answers by their effect on logins and histories. */
module Responses {
  import opened Sequences
  import opened Histories
  import opened Storage
  import M = Managers
  import opened Transparency
  import opened SearchServers

  /** Who passes the login check for uploads. */
  predicate MayUpload(s: Server, uid: string, token: string, addr: string) {
    uid in s.tokens && addr in s.tokens[uid] && s.tokens[uid][addr] == token
  }

  /**
   * A login answers 200 exactly for the right password. Then uploads from that address pass under the
   * token of the answer, and under no other, unless the address is empty; nobody else's admission
   * changes. Otherwise the answer is 403 and nothing changes at all.
   */
  lemma LoginExact(c: M.Config, s: Server, data: Store, uid: string, earned: Option<string>, addr: string)
    requires M.Sound(c)
    ensures var r := Login(uid, earned, addr);
            var (s', data') := Handled(c, s, data, r);
            var resp := ResponseTo(c, s, data, r);
            && (resp.code == 200 <==> earned.Some?) && (resp.code == 403 <==> earned.None?) && resp.found == []
            && (resp.code == 403 ==> s' == s && resp.token == "")
            && (resp.code == 200 && addr != "" ==>
                  forall token :: MayUpload(s', uid, token, addr) <==> token == resp.token)
            && (forall v, token, at :: (v, at) != (uid, addr) || addr == "" ==>
                  (MayUpload(s', v, token, at) <==> MayUpload(s, v, token, at)))
            && (s'.live, s'.stopped, data') == (s.live, s.stopped, data)
  {
  }

  /** The upload handler asks for nothing but that. */
  lemma AdmittedExact(s: Server, uid: string, addr: string, token: string, line: string, net: M.Net)
    ensures Admitted(s, Upload(uid, addr, token, line, net)) <==> MayUpload(s, uid, token, addr)
  {
  }

  /** A logout ends the login from that address, or every login of the user for an empty one. */
  lemma LogoutExact(c: M.Config, s: Server, data: Store, uid: string, addr: string)
    requires M.Sound(c)
    ensures var r := Logout(uid, addr);
            var (s', data') := Handled(c, s, data, r);
            && ResponseTo(c, s, data, r).code == 200
            && (forall v, token, at :: MayUpload(s', v, token, at) <==>
                  MayUpload(s, v, token, at) && !(v == uid && (addr == "" || at == addr)))
            && (s'.live, s'.stopped, data') == (s.live, s.stopped, data)
  {
  }

  /** A logout by the dash server ends every login of the user. */
  lemma UidLogoutExact(c: M.Config, s: Server, data: Store, uid: string, saved: bool)
    requires M.Sound(c)
    ensures var r := UidLogout(uid, saved);
            && ResponseTo(c, s, data, r).code == 200
            && forall v, token, at :: MayUpload(Handled(c, s, data, r).0, v, token, at) <==>
                 MayUpload(s, v, token, at) && v != uid
  {
    hide M.Step;
  }

  lemma UploadDemand(s: Server, uid: string, addr: string, token: string, line: string, net: M.Net)
    ensures var r := Upload(uid, addr, token, line, net);
            && (MayUpload(s, uid, token, addr) ==> Demand(s, r) == Some(M.Add(uid, line, net)))
            && (!MayUpload(s, uid, token, addr) ==> Demand(s, r) == None)
  {
  }

  /**
   * An upload answers 200 exactly when it is admitted and adds its command, as the newest one, to the
   * user's history; 503 exactly when it is admitted and the command is empty; else 403. Whenever it does
   * not answer 200 all histories stay as they are, and nobody else's history ever changes.
   */
  lemma UploadExact(c: M.Config, s: Server, data: Store, uid: string, addr: string, token: string, line: string,
                    net: M.Net)
    requires M.Sound(c) && M.DistinctKeys(c) && M.Inv(c, View(s, data)) && uid in c.users
    requires AccessSafe(c, View(s, data), uid, net)
    ensures var r := Upload(uid, addr, token, line, net);
            var (s', data') := Handled(c, s, data, r);
            var code := ResponseTo(c, s, data, r).code;
            var before, now := M.Meaning(c, View(s, data)), M.Meaning(c, View(s', data'));
            && (code == 200 <==> MayUpload(s, uid, token, addr) && line != "")
            && (code == 503 <==> MayUpload(s, uid, token, addr) && line == "")
            && (code == 403 <==> !MayUpload(s, uid, token, addr))
            && (code == 200 ==> now == before[uid := Take([line] + Without(before[uid], line), c.capacity)])
            && (code != 200 ==> now == before)
            && s'.tokens == s.tokens
  {
    hide M.Step, M.Inv, M.Meaning, MayUpload, AccessSafe;
    var r, st, e := Upload(uid, addr, token, line, net), View(s, data), M.Add(uid, line, net);
    UploadDemand(s, uid, addr, token, line, net);
    if MayUpload(s, uid, token, addr) {
      StepSimulates(c, st, e);
      AddIsRecorded(c, st, e);
      var after := M.Step(c, st, e).0;
      assert View(Handled(c, s, data, r).0, Handled(c, s, data, r).1) == after;
    }
  }

  lemma AddIsRecorded(c: M.Config, st: M.State, e: M.Event)
    requires M.Sound(c) && e.Add? && e.id in c.users
    ensures var m := M.Meaning(c, st);
            M.IdealStep(c, m, e).0
            == if e.s == "" then m else m[e.id := Take([e.s] + Without(m[e.id], e.s), c.capacity)]
  {
    hide M.Logical;
  }

  /**
   * A search answers 403 exactly for an empty query by a named user who may not upload from there; else
   * the answer is that of the user's history. No search changes a history or a login.
   */
  lemma SearchExact(c: M.Config, s: Server, data: Store, uid: string, addr: string, token: string, q: string,
                    net: M.Net)
    requires M.Sound(c) && M.DistinctKeys(c) && M.Inv(c, View(s, data)) && (uid in c.users || (uid == "" && q == ""))
    requires (uid == "" && q == "") || AccessSafe(c, View(s, data), uid, net)
    ensures var r := Search(uid, addr, token, q, net);
            var (s', data') := Handled(c, s, data, r);
            var resp := ResponseTo(c, s, data, r);
            var m := M.Meaning(c, View(s, data));
            && (resp.code == 403 <==> uid != "" && q == "" && !MayUpload(s, uid, token, addr))
            && (resp.code != 403 ==> resp.code == 200)
            && (resp.code == 403 ==> resp.found == [])
            && (resp.code == 200 ==> resp.found == if uid == "" && q == "" then [] else Answer(m[uid], q))
            && M.Meaning(c, View(s', data')) == m && s'.tokens == s.tokens
  {
    hide M.Step, M.Inv, M.Meaning, MayUpload, AccessSafe, Answer;
    var r, st, e := Search(uid, addr, token, q, net), View(s, data), M.Find(uid, q, net);
    SearchDemand(s, uid, addr, token, q, net);
    if Demand(s, r).Some? {
      StepSimulates(c, st, e);
      assert View(Handled(c, s, data, r).0, Handled(c, s, data, r).1) == M.Step(c, st, e).0;
    }
  }

  lemma SearchDemand(s: Server, uid: string, addr: string, token: string, q: string, net: M.Net)
    ensures var r := Search(uid, addr, token, q, net);
            Demand(s, r) == if uid != "" && q == "" && !MayUpload(s, uid, token, addr) then None
                            else Some(M.Find(uid, q, net))
  {
  }

  /** A ticker round of a live recorder, if its save is carried out, stores exactly that user's history. */
  lemma TickerExact(c: M.Config, s: Server, data: Store, uid: string, saved: bool, x: string)
    requires M.Sound(c) && M.DistinctKeys(c) && M.Inv(c, View(s, data)) && x in c.users
    ensures var (s', data') := Handled(c, s, data, Ticker(M.Tick(uid, saved)));
            && s' == s
            && M.Stored(c, data', x) == if saved && x == uid && uid in Lru.Names(s.live)
                                        then M.Logical(c, View(s, data), uid) else M.Stored(c, data, x)
  {
    hide M.Logical, M.Stored, M.Inv;
    TickSaves(c, View(s, data), uid, saved, x);
  }
}
