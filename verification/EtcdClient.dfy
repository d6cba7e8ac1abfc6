/** The calls of the lock and the election one at a time, as one process makes them on the leased store. */
module EtcdClients {
  import opened Sequences
  import opened Fates
  import opened LeasedStore
  import P = LockProtocol

  class LeaseServer {
    var etcd: Etcd

    constructor ()
      ensures etcd == Etcd(map[], {}, 0)
    {
      etcd := Etcd(map[], {}, 0);
    }

    method GetKV(k: string, reached: bool) returns (v: Option<string>)
      ensures v == if reached && k in etcd.kv then Some(etcd.kv[k].value) else None
    {
      v := if reached && k in etcd.kv then Some(etcd.kv[k].value) else None;
    }

    /** Put under a lease if the key was never created; a put under an ended lease is an error. */
    method CreateTxn(k: string, value: string, lease: nat, fate: Fate) returns (succeeded: bool, failed: bool)
      modifies this
      ensures etcd == if fate.Lost? then old(etcd) else Create(old(etcd), k, value, lease)
      ensures failed <==> !fate.Done? || (k !in old(etcd).kv && lease !in old(etcd).alive)
      ensures succeeded <==> !failed && k !in old(etcd).kv
    {
      succeeded := k !in etcd.kv && lease in etcd.alive && fate.Done?;
      failed := !fate.Done? || (k !in etcd.kv && lease !in etcd.alive);
      if !fate.Lost? {
        etcd := Create(etcd, k, value, lease);
      }
    }

    method Revoke(lease: nat, fate: Fate) returns (failed: bool)
      modifies this
      ensures etcd == if fate.Lost? then old(etcd) else End(old(etcd), lease)
      ensures failed <==> !fate.Done? || lease !in old(etcd).alive
    {
      failed := !fate.Done? || lease !in etcd.alive;
      if !fate.Lost? {
        etcd := End(etcd, lease);
      }
    }
  }

  class LockClient {
    const server: LeaseServer
    var lockRecord: map<string, nat>

    constructor (server: LeaseServer)
      ensures this.server == server && lockRecord == map[]
    {
      this.server := server;
      lockRecord := map[];
    }

    method TryLock(lease: nat, k: string, fate: Fate) returns (locked: bool, failed: bool)
      modifies server
      ensures server.etcd == if fate.Lost? then old(server.etcd) else Create(old(server.etcd), k, "", lease)
      ensures failed <==> !fate.Done? || (k !in old(server.etcd).kv && lease !in old(server.etcd).alive)
      ensures locked <==> !failed && k !in old(server.etcd).kv
      ensures locked ==> k in server.etcd.kv && server.etcd.kv[k].lease == lease
    {
      var succeeded, err := server.CreateTxn(k, "", lease, fate);
      if err {
        return false, true;
      }
      if !succeeded {
        return false, false;
      }
      return true, false;
    }

    /** One round of the loop in `Lock`, and the record that `Lock` leaves when the round succeeds. */
    method LockRound(lease: nat, k: string, fate: Fate) returns (locked: bool, failed: bool)
      modifies this, server
      ensures server.etcd == if fate.Lost? then old(server.etcd) else Create(old(server.etcd), k, "", lease)
      ensures locked <==> fate.Done? && CanCreate(old(server.etcd), k, lease)
      ensures failed <==> !fate.Done? || (k !in old(server.etcd).kv && lease !in old(server.etcd).alive)
      ensures lockRecord == if locked then old(lockRecord)[k := lease] else old(lockRecord)
    {
      locked, failed := TryLock(lease, k, fate);
      if locked {
        lockRecord := lockRecord[k := lease];
      }
    }

    /** Reports an error whatever happens, also after a successful revocation. */
    method UnLock(k: string, fate: Fate) returns (failed: bool)
      modifies this, server
      ensures failed
      ensures (server.etcd, lockRecord) == Unlocked(old(server.etcd), old(lockRecord), k, fate)
    {
      if k in lockRecord {
        var err := server.Revoke(lockRecord[k], fate);
        if err {
          return true;
        }
        lockRecord := lockRecord - {k};
      }
      failed := true;
    }

    method IsLeader(electKey: string, id: string, reached: bool) returns (leader: bool, failed: bool)
      ensures failed <==> !reached || electKey !in server.etcd.kv
      ensures leader <==> reached && electKey in server.etcd.kv && server.etcd.kv[electKey].value == id
    {
      var info := server.GetKV(electKey, reached);
      if info.None? {
        return false, true;
      }
      return info.value == id, false;
    }

    method GetElectorID(electKey: string, reached: bool) returns (id: Option<string>)
      ensures id == if reached && electKey in server.etcd.kv then Some(server.etcd.kv[electKey].value) else None
    {
      id := server.GetKV(electKey, reached);
    }
  }

  function Unlocked(etcd: Etcd, record: map<string, nat>, k: string, fate: Fate): (Etcd, map<string, nat>) {
    if k !in record then (etcd, record)
    else
      var etcd' := if fate.Lost? then etcd else End(etcd, record[k]);
      (etcd', if fate.Done? && record[k] in etcd.alive then record - {k} else record)
  }

  /** The record of one process inside the protocol's state. */
  ghost predicate Shows(s: P.State, process: nat, record: map<string, nat>) {
    forall k :: (k in record <==> (process, k) in s.record) && (k in record ==> record[k] == s.record[(process, k)])
  }

  /** A goroutine that holds `k`, or is outside the lock, and may take its process's mutex. */
  ghost predicate MayUnlock(s: P.State, t: nat, k: string) {
    && P.FreeMutex(s, t)
    && (s.threads[t].pc.Idle? || (s.threads[t].pc.Holding? && s.threads[t].pc.k == k))
  }

  function Begin(s: P.State, t: nat, k: string): P.Action
    requires P.At(s, t)
  {
    if s.threads[t].pc.Idle? then P.BeginStray(t, k) else P.BeginUnlock(t)
  }

  /** What UnLock does once it has the mutex. */
  function UnlockRest(s: P.State, t: nat, k: string, fate: Fate): seq<P.Action>
    requires P.At(s, t)
  {
    var at := (s.threads[t].process, k);
    if at !in s.record then [P.NothingRecorded(t)]
    else if fate.Done? && s.record[at] in s.etcd.alive then [P.RevokeOk(t), P.DropRecord(t)]
    else [P.RevokeFail(t, !fate.Lost?)]
  }

  /** The protocol's steps of one call of UnLock. */
  function UnlockRun(s: P.State, t: nat, k: string, fate: Fate): seq<P.Action>
    requires P.At(s, t)
  {
    [Begin(s, t, k)] + UnlockRest(s, t, k, fate)
  }

  ghost predicate Begun(s: P.State, s': P.State, t: nat, k: string) {
    && P.At(s, t) && P.At(s', t)
    && s'.threads == s.threads[t := s'.threads[t]] && s'.threads[t].process == s.threads[t].process
    && P.Unlocks(s'.threads[t].pc) && s'.threads[t].pc.k == k && (s'.threads[t].pc.Stray? <==> s.threads[t].pc.Idle?)
    && s'.etcd == s.etcd && s'.record == s.record && s'.mutex == s.mutex[s.threads[t].process := t]
    && s.threads[t].process !in s.mutex
  }

  lemma BeginStep(s: P.State, t: nat, k: string)
    requires MayUnlock(s, t, k)
    ensures P.Enabled(s, Begin(s, t, k)) && P.Kept(s, Begin(s, t, k)) && Begun(s, P.Next(s, Begin(s, t, k)), t, k)
  {
  }

  /** What a call of UnLock by `t` makes of the state `s`. */
  ghost predicate Called(s: P.State, r: P.State, t: nat, k: string, record: map<string, nat>, fate: Fate) {
    && P.At(s, t) && r.threads == s.threads[t := P.Thread(s.threads[t].process, P.Idle)] && r.mutex == s.mutex
    && r.etcd == Unlocked(s.etcd, record, k, fate).0
    && Shows(r, s.threads[t].process, Unlocked(s.etcd, record, k, fate).1)
  }

  lemma RevokedSteps(s: P.State, s': P.State, t: nat, k: string, record: map<string, nat>)
    requires Begun(s, s', t, k) && Shows(s, s.threads[t].process, record) && k in record && record[k] in s.etcd.alive
    ensures var rest := UnlockRest(s, t, k, Done);
            P.PossibleRun(s', rest) && Called(s, P.After(s', rest), t, k, record, Done)
  {
    hide P.PossibleRun, P.After;
    assert s'.mutex - {s.threads[t].process} == s.mutex;
    P.TwoSteps(s', P.RevokeOk(t), P.DropRecord(t));
  }

  lemma UnrevokedSteps(s: P.State, s': P.State, t: nat, k: string, record: map<string, nat>, fate: Fate)
    requires Begun(s, s', t, k) && Shows(s, s.threads[t].process, record)
    requires k in record ==> !fate.Done? || record[k] !in s.etcd.alive
    ensures var rest := UnlockRest(s, t, k, fate);
            P.PossibleRun(s', rest) && Called(s, P.After(s', rest), t, k, record, fate)
  {
    hide P.PossibleRun, P.After;
    assert s'.mutex - {s.threads[t].process} == s.mutex;
    P.SingleStep(s', UnlockRest(s, t, k, fate)[0]);
  }

  /** The protocol's steps of an UnLock, taken together, are the call, whether or not the caller has locked. */
  lemma UnlockIsProtocol(s: P.State, t: nat, k: string, record: map<string, nat>, fate: Fate)
    requires MayUnlock(s, t, k) && Shows(s, s.threads[t].process, record)
    ensures P.PossibleRun(s, UnlockRun(s, t, k, fate))
    ensures Called(s, P.After(s, UnlockRun(s, t, k, fate)), t, k, record, fate)
  {
    hide P.PossibleRun, P.After, P.Next, P.Enabled, Begun, Called, UnlockRest, Begin, Shows;
    var b := Begin(s, t, k);
    BeginStep(s, t, k);
    if fate.Done? && k in record && record[k] in s.etcd.alive {
      RevokedSteps(s, P.Next(s, b), t, k, record);
    } else {
      UnrevokedSteps(s, P.Next(s, b), t, k, record, fate);
    }
    P.OneStep(s, b, UnlockRest(s, t, k, fate));
  }

  /** Once an owner has lost its key, dropping a record does not give it back. */
  lemma LostForGood(s: P.State, t: nat, u: nat)
    requires P.Enabled(s, P.DropRecord(t)) && t != u
    requires u in s.threads && P.Owner(s.threads[u].pc) && s.threads[u].pc.k !in s.etcd.kv
    ensures !P.Inv(P.Next(s, P.DropRecord(t)))
  {
    assert P.Next(s, P.DropRecord(t)).threads[u] == s.threads[u];
  }

  lemma RevokeAndDropExact(s: P.State, t: nat)
    requires P.Inv(s) && P.Enabled(s, P.RevokeOk(t))
    ensures var run := [P.RevokeOk(t), P.DropRecord(t)];
            P.PossibleRun(s, run) && (P.Inv(P.After(s, run)) <==> P.Kept(s, P.RevokeOk(t)))
  {
    hide P.Inv;
    var r, d := P.RevokeOk(t), P.DropRecord(t);
    P.TwoSteps(s, r, d);
    if P.Kept(s, r) {
      P.StepKeepsInv(s, r);
      P.StepExact(P.Next(s, r), d);
      assert P.Kept(P.Next(s, r), d);
    } else {
      var u := P.Robbed(s, r);
      LostForGood(P.Next(s, r), t, u);
    }
  }

  /**
   * A call of UnLock is harmless exactly when the caller holds the key, or nobody of its process does, or
   * the revocation does not get through.
   */
  lemma UnlockExact(s: P.State, t: nat, k: string, fate: Fate)
    requires P.Inv(s) && MayUnlock(s, t, k)
    ensures P.PossibleRun(s, UnlockRun(s, t, k, fate))
    ensures P.Inv(P.After(s, UnlockRun(s, t, k, fate))) <==>
      s.threads[t].pc.Holding? || fate.Lost? || P.NobodyHolds(s, s.threads[t].process, k)
  {
    hide P.Inv, P.PossibleRun, P.After, P.Next, P.Enabled, P.NobodyHolds;
    var p, b := s.threads[t].process, Begin(s, t, k);
    BeginStep(s, t, k);
    var s', rest := P.Next(s, b), UnlockRest(s, t, k, fate);
    P.StepKeepsInv(s, b);
    P.OneStep(s, b, rest);
    RestEnabled(s, s', t, k, fate);
    if s.threads[t].pc.Idle? {
      SameHolders(s, s', t, k);
    }
    if (p, k) !in s.record {
      NotRecordedNotHeld(s, p, k);
    }
    if |rest| == 2 {
      RevokeAndDropExact(s', t);
    } else {
      P.SingleStep(s', rest[0]);
      P.StepExact(s', rest[0]);
    }
  }

  lemma RestEnabled(s: P.State, s': P.State, t: nat, k: string, fate: Fate)
    requires Begun(s, s', t, k)
    ensures P.Enabled(s', UnlockRest(s, t, k, fate)[0])
  {
  }

  lemma SameHolders(s: P.State, s': P.State, t: nat, k: string)
    requires Begun(s, s', t, k) && s.threads[t].pc.Idle?
    ensures P.NobodyHolds(s, s.threads[t].process, k) == P.NobodyHolds(s', s.threads[t].process, k)
  {
    assert forall u :: u in s.threads && u != t ==> s'.threads[u] == s.threads[u];
    assert forall u :: u in s'.threads && u != t ==> s.threads[u] == s'.threads[u];
  }

  lemma NotRecordedNotHeld(s: P.State, process: nat, k: string)
    requires P.Inv(s) && (process, k) !in s.record
    ensures P.NobodyHolds(s, process, k)
  {
  }

  /** The protocol's steps of one round of `Lock`: won and recorded, lost, or ended by an error. */
  function RoundRun(s: P.State, t: nat, fate: Fate): seq<P.Action>
    requires P.At(s, t) && s.threads[t].pc.Trying?
  {
    var k, l := s.threads[t].pc.k, s.threads[t].pc.l;
    if fate.Done? && k in s.etcd.kv then [P.TryLose(t)]
    else if fate.Done? && l in s.etcd.alive then [P.TryWin(t), P.WriteRecord(t)]
    else [P.TryFail(t, fate != Lost)]
  }

  /** They are the call: the goroutine holds the key, tries again, or is out of `Lock`. */
  lemma RoundIsProtocol(s: P.State, t: nat, record: map<string, nat>, fate: Fate)
    requires P.FreeMutex(s, t) && s.threads[t].pc.Trying? && Shows(s, s.threads[t].process, record)
    ensures P.PossibleRun(s, RoundRun(s, t, fate))
    ensures var r := P.After(s, RoundRun(s, t, fate));
            var p, k, l := s.threads[t].process, s.threads[t].pc.k, s.threads[t].pc.l;
            var locked := fate == Done && CanCreate(s.etcd, k, l);
            && r.mutex == s.mutex
            && r.threads == (if locked then s.threads[t := P.Thread(p, P.Holding(k, l))]
                             else if fate == Done && k in s.etcd.kv then s.threads
                             else s.threads[t := P.Thread(p, P.Idle)])
            && r.etcd == (if fate == Lost then s.etcd else Create(s.etcd, k, "", l))
            && Shows(r, p, if locked then record[k := l] else record)
  {
    hide P.PossibleRun, P.After;
    var k, l := s.threads[t].pc.k, s.threads[t].pc.l;
    if fate.Done? && k in s.etcd.kv {
      P.SingleStep(s, P.TryLose(t));
    } else if fate.Done? && l in s.etcd.alive {
      P.TwoSteps(s, P.TryWin(t), P.WriteRecord(t));
    } else {
      P.SingleStep(s, P.TryFail(t, fate != Lost));
    }
  }
}
