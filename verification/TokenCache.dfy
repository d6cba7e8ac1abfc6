/** The login tokens: per user, one token for each place the user is logged in from. */
module TokenCaches {
  type Table = map<string, map<string, string>>

  /** The place of a login: the extra arguments run together. */
  function LoginInfo(extra: seq<string>): string {
    if extra == [] then "" else LoginInfo(extra[..|extra| - 1]) + extra[|extra| - 1]
  }

  /** One argument is its own place, and further ones are written behind it. */
  lemma {:induction false} PlaceJoined(a: seq<string>, b: seq<string>, x: string)
    ensures LoginInfo(a + b) == LoginInfo(a) + LoginInfo(b) && LoginInfo([x]) == x
  {
    assert [x][..0] == [];
    if b == [] {
      assert a + b == a;
    } else {
      var k := |b| - 1;
      assert (a + b)[..|a + b| - 1] == a + b[..k];
      PlaceJoined(a, b[..k], x);
    }
  }

  predicate Checked(table: Table, uid: string, token: string, info: string) {
    uid in table && info in table[uid] && table[uid][info] == token
  }

  function Revoked(table: Table, uid: string, info: string): Table {
    if info == "" then table - {uid}
    else if uid in table then table[uid := table[uid] - {info}]
    else table
  }

  function Updated(table: Table, uid: string, token: string, info: string): Table {
    if info == "" then table
    else table[uid := (if uid in table then table[uid] else map[])[info := token]]
  }

  datatype Event = Update(uid: string, token: string, info: string) | Remove(uid: string, info: string)

  function Step(table: Table, e: Event): Table {
    match e
    case Update(uid, token, info) => Updated(table, uid, token, info)
    case Remove(uid, info) => Revoked(table, uid, info)
  }

  function Run(table: Table, es: seq<Event>): Table {
    if es == [] then table else Step(Run(table, es[..|es| - 1]), es[|es| - 1])
  }

  lemma RunSnoc(table: Table, es: seq<Event>, e: Event)
    ensures Run(table, es + [e]) == Step(Run(table, es), e)
  {
    assert (es + [e])[..|es|] == es;
  }

  /** A removal hits a login if it names the user and either the same place or none. */
  predicate Hits(e: Event, uid: string, info: string) {
    e.Remove? && e.uid == uid && (e.info == info || e.info == "")
  }

  /** The token is the one last stored for this user and place, and no removal has hit them since. */
  ghost predicate LoggedIn(es: seq<Event>, uid: string, token: string, info: string) {
    exists i :: 0 <= i < |es| && es[i] == Update(uid, token, info)
      && forall j :: i < j < |es| ==>
           !(es[j].Update? && es[j].uid == uid && es[j].info == info) && !Hits(es[j], uid, info)
  }

  lemma LoggedInStep(es: seq<Event>, e: Event, uid: string, token: string, info: string)
    ensures LoggedIn(es + [e], uid, token, info) <==>
      if e.Update? && e.uid == uid && e.info == info then e.token == token
      else LoggedIn(es, uid, token, info) && !Hits(e, uid, info)
  {
    var all := es + [e];
    if e == Update(uid, token, info) {
      assert all[|es|] == e;
    }
    if LoggedIn(es, uid, token, info) {
      var i :| 0 <= i < |es| && es[i] == Update(uid, token, info) && forall j :: i < j < |es| ==>
           !(es[j].Update? && es[j].uid == uid && es[j].info == info) && !Hits(es[j], uid, info);
      assert all[i] == es[i];
    }
    if LoggedIn(all, uid, token, info) {
      var i :| 0 <= i < |all| && all[i] == Update(uid, token, info) && forall j :: i < j < |all| ==>
           !(all[j].Update? && all[j].uid == uid && all[j].info == info) && !Hits(all[j], uid, info);
      assert all[|es|] == e;
      if i < |es| {
        assert es[i] == all[i];
        assert forall j :: i < j < |es| ==> es[j] == all[j];
      }
    }
  }

  /** After any run, a token passes exactly when it is the current one of a login from a named place. */
  lemma {:induction false} CheckedIffLoggedIn(es: seq<Event>, uid: string, token: string, info: string)
    ensures Checked(Run(map[], es), uid, token, info) <==> info != "" && LoggedIn(es, uid, token, info)
  {
    hide LoggedIn;
    if es == [] {
      NobodyYet(uid, token, info);
    } else {
      var before, e := es[..|es| - 1], es[|es| - 1];
      assert es == before + [e];
      CheckedIffLoggedIn(before, uid, token, info);
      LoggedInStep(before, e, uid, token, info);
      NoPlaceNoToken(before, uid);
    }
  }

  lemma NobodyYet(uid: string, token: string, info: string)
    ensures !LoggedIn([], uid, token, info)
  {
  }

  lemma {:induction false} NoPlaceNoToken(es: seq<Event>, uid: string)
    ensures uid in Run(map[], es) ==> "" !in Run(map[], es)[uid]
  {
    if es != [] {
      NoPlaceNoToken(es[..|es| - 1], uid);
    }
  }

  class TokenCache {
    var loginCache: Table

    constructor ()
      ensures loginCache == map[]
    {
      loginCache := map[];
    }

    method Join(extra: seq<string>) returns (info: string)
      ensures info == LoginInfo(extra)
    {
      info := "";
      for i := 0 to |extra|
        invariant info == LoginInfo(extra[..i])
      {
        assert extra[..i + 1][..i] == extra[..i];
        info := info + extra[i];
      }
      assert extra[..|extra|] == extra;
    }

    method CheckLoginState(uid: string, token: string, extra: seq<string>) returns (ok: bool)
      ensures ok <==> Checked(loginCache, uid, token, LoginInfo(extra))
    {
      var info := Join(extra);
      if uid in loginCache {
        var entry := loginCache[uid];
        if info in entry && entry[info] == token {
          return true;
        }
      }
      ok := false;
    }

    method RemoveTokenCache(uid: string, extra: seq<string>)
      modifies this
      ensures loginCache == Step(old(loginCache), Remove(uid, LoginInfo(extra)))
    {
      var info := Join(extra);
      if info == "" {
        loginCache := loginCache - {uid};
      } else if uid in loginCache {
        loginCache := loginCache[uid := loginCache[uid] - {info}];
      }
    }

    method UpdateTokenCache(uid: string, token: string, extra: seq<string>)
      modifies this
      ensures loginCache == Step(old(loginCache), Update(uid, token, LoginInfo(extra)))
    {
      var info := Join(extra);
      if info != "" {
        if uid !in loginCache {
          loginCache := loginCache[uid := map[]];
        }
        loginCache := loginCache[uid := loginCache[uid][info := token]];
      }
    }
  }
}
