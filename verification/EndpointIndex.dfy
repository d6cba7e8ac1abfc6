/** Which server a user is assigned to: a forward key per user and a reverse key per server and user. */
module EndpointIndex {
  import opened Sequences
  import opened Fates

  type Table = map<string, string>

  function ForwardKey(uid: string): string {
    "/mysh/dash/uid/" + uid + "/endpoint"
  }

  function ReverseKey(ep: string, uid: string): string {
    "/mysh/dash/endpoint/" + ep + "/uids/" + uid
  }

  /** Server addresses are host and port; user ids may contain anything. */
  predicate Plain(ep: string) {
    '/' !in ep
  }

  lemma ForwardKeysDiffer(a: string, b: string)
    requires ForwardKey(a) == ForwardKey(b)
    ensures a == b
  {
    var head := "/mysh/dash/uid/";
    assert a == ForwardKey(a)[|head|..|head| + |a|];
    assert b == ForwardKey(b)[|head|..|head| + |b|];
  }

  lemma ForwardIsNotReverse(a: string, ep: string, b: string)
    ensures ForwardKey(a) != ReverseKey(ep, b)
  {
    assert ForwardKey(a)[11] == 'u' && ReverseKey(ep, b)[11] == 'e';
  }

  /** The address ends at the first slash, so the reverse key determines both of its parts. */
  lemma ReverseKeysDiffer(e: string, a: string, f: string, b: string)
    requires Plain(e) && Plain(f) && ReverseKey(e, a) == ReverseKey(f, b)
    ensures e == f && a == b
  {
    var head, mid := "/mysh/dash/endpoint/", "/uids/";
    var k := ReverseKey(e, a);
    assert k[|head|..] == e + mid + a;
    assert k == ReverseKey(f, b) && k[|head|..] == f + mid + b;
    assert k[|head| + |e|] == '/' && k[|head| + |f|] == '/';
    assert forall i :: 0 <= i < |e| ==> e[i] == k[|head| + i];
    assert forall i :: 0 <= i < |f| ==> f[i] == k[|head| + i];
    assert |e| == |f|;
    assert a == k[|head| + |e| + |mid|..] && b == k[|head| + |f| + |mid|..];
  }

  /** An address with a slash shares keys: what looks like its own `/uids/` part may belong to the user. */
  lemma SlashedAddressesCollide(e: string, a: string, x: string)
    ensures ReverseKey(e + "/uids/" + a, x) == ReverseKey(e, a + "/uids/" + x)
    ensures ReverseKey(e, "uids/" + a) == ReverseKey(e + "/uids", a)
  {
    var head, mid := "/mysh/dash/endpoint/", "/uids/";
    assert head + (e + mid + a) + mid + x == head + e + mid + (a + mid + x);
    assert head + e + mid + ("uids/" + a) == head + (e + "/uids") + mid + a;
  }

  // ----- The listing of the users of a server -----

  /** What the second verb of the pattern becomes, as it is formatted with the server alone. */
  const MISSING := "%!v(MISSING)"

  function ListPrefix(ep: string): string {
    "/mysh/dash/endpoint/" + ep + "/uids/" + MISSING
  }

  /**
   * Of all assignments the listing of a server finds only its own users whose id begins with that very
   * text; only for them does a migration send cleanings to the proxies.
   */
  lemma ListedExact(ep: string, e: string, uid: string)
    requires Plain(ep) && Plain(e)
    ensures ListPrefix(ep) <= ReverseKey(e, uid) <==> e == ep && MISSING <= uid
  {
    var head, mid := "/mysh/dash/endpoint/", "/uids/";
    var k := ReverseKey(e, uid);
    if e == ep && MISSING <= uid {
      assert k == head + e + mid + MISSING + uid[|MISSING|..];
    }
    if ListPrefix(ep) <= k {
      var l := ListPrefix(ep);
      assert forall i :: 0 <= i < |ep| ==> ep[i] == l[|head| + i] == k[|head| + i];
      assert forall i :: 0 <= i < |e| ==> e[i] == k[|head| + i];
      assert l[|head| + |ep|] == '/' && k[|head| + |e|] == '/';
      assert |e| == |ep|;
      assert k[|head| + |e| + |mid|..] == uid && l[|head| + |e| + |mid|..] == MISSING;
    }
  }

  lemma ListedUser(table: Table, ep: string, uid: string)
    requires Agree(table) && Plain(ep)
    ensures (exists e :: Plain(e) && ReverseKey(e, uid) in table && ListPrefix(ep) <= ReverseKey(e, uid))
      <==> Assigned(table, uid, ep) && MISSING <= uid
  {
    hide ReverseKey, ForwardKey, Plain, ListPrefix;
    forall e | Plain(e)
      ensures ListPrefix(ep) <= ReverseKey(e, uid) <==> e == ep && MISSING <= uid
    {
      ListedExact(ep, e, uid);
    }
  }

  // ----- The multi-key transaction -----

  const OP_PUT := 0
  const OP_DEL := 1

  datatype KV = KV(op: int, key: string, value: string)
  datatype TxnOp = OpPut(key: string, value: string) | OpDelete(key: string)

  /** Entries with any other operation are left out of the transaction. */
  function Compiled(kvs: seq<KV>): seq<TxnOp> {
    if kvs == [] then []
    else
      var kv := kvs[|kvs| - 1];
      Compiled(kvs[..|kvs| - 1])
      + (if kv.op == OP_PUT then [OpPut(kv.key, kv.value)] else if kv.op == OP_DEL then [OpDelete(kv.key)] else [])
  }

  /** Entries are compiled one by one, in order; one that is neither put nor delete leaves nothing. */
  lemma {:induction false} CompiledJoined(a: seq<KV>, b: seq<KV>, kv: KV)
    ensures Compiled(a + b) == Compiled(a) + Compiled(b)
    ensures Compiled([kv]) ==
      if kv.op == 0 then [OpPut(kv.key, kv.value)] else if kv.op == 1 then [OpDelete(kv.key)] else []
  {
    assert [kv][..0] == [];
    if b == [] {
      assert a + b == a;
    } else {
      var k := |b| - 1;
      assert (a + b)[..|a + b| - 1] == a + b[..k];
      CompiledJoined(a, b[..k], kv);
    }
  }

  /** The operations of one transaction, in order. */
  function Applied(table: Table, ops: seq<TxnOp>): Table {
    if ops == [] then table
    else
      var before := Applied(table, ops[..|ops| - 1]);
      match ops[|ops| - 1]
      case OpPut(k, v) => before[k := v]
      case OpDelete(k) => before - {k}
  }

  function Outcome(table: Table, ops: seq<TxnOp>, fate: Fate): Table {
    if fate.Lost? then table else Applied(table, ops)
  }

  function AddOps(uid: string, ep: string): seq<TxnOp> {
    [OpPut(ForwardKey(uid), ep), OpPut(ReverseKey(ep, uid), "")]
  }

  function UpdateOps(uid: string, source: string, target: string): seq<TxnOp> {
    [OpPut(ForwardKey(uid), target), OpDelete(ReverseKey(source, uid)), OpPut(ReverseKey(target, uid), "")]
  }

  lemma AddApplied(table: Table, uid: string, ep: string)
    ensures Applied(table, AddOps(uid, ep)) == table[ForwardKey(uid) := ep][ReverseKey(ep, uid) := ""]
  {
    hide ForwardKey, ReverseKey;
    var ops := AddOps(uid, ep);
    assert ops[..1] == [ops[0]] && ops[..1][..0] == [];
    assert Applied(table, ops[..1]) == table[ForwardKey(uid) := ep];
  }

  lemma UpdateApplied(table: Table, uid: string, source: string, target: string)
    ensures Applied(table, UpdateOps(uid, source, target))
         == (table[ForwardKey(uid) := target] - {ReverseKey(source, uid)})[ReverseKey(target, uid) := ""]
  {
    hide ForwardKey, ReverseKey;
    var ops := UpdateOps(uid, source, target);
    assert ops[..2][..1] == [ops[0]] && ops[..2][..1][..0] == [];
    assert Applied(table, ops[..2][..1]) == table[ForwardKey(uid) := target];
    assert Applied(table, ops[..2]) == table[ForwardKey(uid) := target] - {ReverseKey(source, uid)};
  }

  // ----- Agreement of the two indexes -----

  predicate Assigned(table: Table, uid: string, ep: string) {
    ForwardKey(uid) in table && table[ForwardKey(uid)] == ep
  }

  /** The reverse key of a server and a user exists exactly when the user is assigned to that server. */
  ghost predicate Agree(table: Table) {
    && (forall uid, ep :: Plain(ep) ==> (ReverseKey(ep, uid) in table <==> Assigned(table, uid, ep)))
    && (forall uid :: ForwardKey(uid) in table ==> Plain(table[ForwardKey(uid)]))
  }

  /** `addEpInfo` keeps the indexes in agreement exactly when the user has no other server yet. */
  lemma AddExact(table: Table, uid: string, ep: string)
    requires Agree(table) && Plain(ep)
    ensures Agree(Applied(table, AddOps(uid, ep))) <==> ForwardKey(uid) !in table || table[ForwardKey(uid)] == ep
  {
    hide ForwardKey, ReverseKey, Plain, Applied, AddOps;
    AddApplied(table, uid, ep);
    KeysDiffer(uid);
    var r := Applied(table, AddOps(uid, ep));
    if ForwardKey(uid) in table && table[ForwardKey(uid)] != ep {
      var was := table[ForwardKey(uid)];
      assert ReverseKey(was, uid) in r && !Assigned(r, uid, was);
    }
  }

  /** `updateEpInfo` does so exactly when the user is unassigned or assigned to one of the two servers. */
  lemma UpdateExact(table: Table, uid: string, source: string, target: string)
    requires Agree(table) && Plain(source) && Plain(target) && source != target
    ensures Agree(Applied(table, UpdateOps(uid, source, target))) <==>
      ForwardKey(uid) !in table || table[ForwardKey(uid)] == source || table[ForwardKey(uid)] == target
  {
    hide ForwardKey, ReverseKey, Plain, Applied, UpdateOps;
    UpdateApplied(table, uid, source, target);
    KeysDiffer(uid);
    var r := Applied(table, UpdateOps(uid, source, target));
    if ForwardKey(uid) in table && table[ForwardKey(uid)] != source && table[ForwardKey(uid)] != target {
      var was := table[ForwardKey(uid)];
      assert ReverseKey(was, uid) in r && !Assigned(r, uid, was);
    }
  }

  /** The keys of one user against all others. */
  lemma KeysDiffer(uid: string)
    ensures forall v :: ForwardKey(v) == ForwardKey(uid) ==> v == uid
    ensures forall v, e, u :: ForwardKey(v) != ReverseKey(e, u)
    ensures forall e, v, f, u :: Plain(e) && Plain(f) && ReverseKey(e, v) == ReverseKey(f, u) ==> e == f && v == u
  {
    hide ForwardKey, ReverseKey;
    forall v | ForwardKey(v) == ForwardKey(uid)
      ensures v == uid
    {
      ForwardKeysDiffer(v, uid);
    }
    forall v, e, u
      ensures ForwardKey(v) != ReverseKey(e, u)
    {
      ForwardIsNotReverse(v, e, u);
    }
    forall e, v, f, u | Plain(e) && Plain(f) && ReverseKey(e, v) == ReverseKey(f, u)
      ensures e == f && v == u
    {
      ReverseKeysDiffer(e, v, f, u);
    }
  }

  /** Two first assignments of one user that both found it unassigned agree only on the same server. */
  lemma ConcurrentAssignmentsExact(table: Table, uid: string, b: string, c: string)
    requires Agree(table) && ForwardKey(uid) !in table && Plain(b) && Plain(c)
    ensures Agree(Applied(Applied(table, AddOps(uid, b)), AddOps(uid, c))) <==> b == c
  {
    hide ForwardKey, ReverseKey, Plain, Applied, AddOps;
    AddExact(table, uid, b);
    AddApplied(table, uid, b);
    KeysDiffer(uid);
    AddExact(Applied(table, AddOps(uid, b)), uid, c);
  }

  /** Two migrations of one user that both read the same old server leave a stale reverse key if they differ. */
  lemma ConcurrentMigrationsExact(table: Table, uid: string, a: string, b: string, c: string)
    requires Agree(table) && Assigned(table, uid, a) && Plain(b) && Plain(c) && a != b && a != c
    ensures Agree(Applied(Applied(table, UpdateOps(uid, a, b)), UpdateOps(uid, a, c))) <==> b == c
  {
    hide ForwardKey, ReverseKey, Plain, Applied, UpdateOps;
    UpdateExact(table, uid, a, b);
    UpdateApplied(table, uid, a, b);
    KeysDiffer(uid);
    UpdateExact(Applied(table, UpdateOps(uid, a, b)), uid, a, c);
  }

  // ----- One query for a user's server -----

  /** What a query learns from outside: the ring's node, the new server's health, and which calls get through. */
  datatype World = World(readable: bool, node: Option<string>, healthy: bool, listed: bool, cleaned: bool)

  datatype Decision =
    | Fail
    | Stay(ep: string)
    | Allocate(ep: string)
    | Migrate(source: string, target: string)

  /** What a query decides from the forward entry that it read. */
  function Decide(entry: Option<string>, w: World): Decision {
    if !w.readable then Fail
    else if entry.None? then (if w.node.None? then Fail else Allocate(w.node.value))
    else if w.node.None? then Fail
    else if w.node.value == entry.value then Stay(entry.value)
    else if !w.healthy then Stay(entry.value)
    else if !w.listed || !w.cleaned then Fail
    else Migrate(entry.value, w.node.value)
  }

  function Entry(table: Table, uid: string): Option<string> {
    if ForwardKey(uid) in table then Some(table[ForwardKey(uid)]) else None
  }

  function OpsOf(uid: string, d: Decision): seq<TxnOp> {
    match d
    case Allocate(ep) => AddOps(uid, ep)
    case Migrate(source, target) => UpdateOps(uid, source, target)
    case _ => []
  }

  function Settled(table: Table, uid: string, d: Decision, fate: Fate): Table {
    Outcome(table, OpsOf(uid, d), fate)
  }

  /** A query answers without error only once its transaction is known to be done. */
  function Answered(d: Decision, fate: Fate): Option<string> {
    match d
    case Fail => None
    case Stay(ep) => Some(ep)
    case Allocate(ep) => if fate.Done? then Some(ep) else None
    case Migrate(_, ep) => if fate.Done? then Some(ep) else None
  }

  predicate PlainWorld(w: World) {
    w.node.Some? ==> Plain(w.node.value)
  }

  /** Settling a decision that still fits the table keeps agreement, and a successful answer is the entry. */
  lemma SettledAgrees(table: Table, uid: string, d: Decision, fate: Fate)
    requires Agree(table)
    requires d.Stay? ==> Assigned(table, uid, d.ep)
    requires d.Allocate? ==> Plain(d.ep) && Entry(table, uid) == None
    requires d.Migrate? ==> Plain(d.target) && Plain(d.source) && d.source != d.target && Assigned(table, uid, d.source)
    ensures Agree(Settled(table, uid, d, fate))
    ensures Answered(d, fate).Some? ==> Assigned(Settled(table, uid, d, fate), uid, Answered(d, fate).value)
    ensures forall v :: v != uid ==> Entry(Settled(table, uid, d, fate), v) == Entry(table, v)
  {
    hide ForwardKey, ReverseKey, Plain, Agree, Applied, AddOps, UpdateOps;
    KeysDiffer(uid);
    match d {
      case Fail => NoOps(table);
      case Stay(_) => NoOps(table);
      case Allocate(ep) =>
        AddExact(table, uid, ep);
        AddApplied(table, uid, ep);
      case Migrate(source, target) =>
        UpdateExact(table, uid, source, target);
        UpdateApplied(table, uid, source, target);
    }
  }

  lemma NoOps(table: Table)
    ensures Applied(table, []) == table
  {
  }

  // ----- What a query is for -----

  /**
   * A user is put on the ring's node if it has no server yet, or if the node is another one, healthy, and
   * the users of the old server were listed and their caches cleaned.
   */
  predicate Moves(at: Option<string>, w: World) {
    w.readable && w.node.Some? && (at.None? || (w.node != at && w.healthy && w.listed && w.cleaned))
  }

  /**
   * From the user's old server `at` to its new one `now`, with the answer `resp`. A transaction whose reply
   * was lost has moved the user, but is not answered; a node that is the old server, or that fails its
   * health check, leaves the user where it is, and that is the answer.
   */
  predicate Served(at: Option<string>, w: World, fate: Fate, now: Option<string>, resp: Option<string>) {
    && now == (if Moves(at, w) && (fate == Done || fate == DoneUnheard) then w.node else at)
    && (resp.Some? <==>
          w.readable && w.node.Some? && (if Moves(at, w) then fate == Done else w.node == at || !w.healthy))
    && (resp.Some? ==> resp == now)
  }

  lemma SettledEntry(table: Table, uid: string, d: Decision, fate: Fate)
    ensures Entry(Settled(table, uid, d, fate), uid) ==
      if fate == Lost || d.Fail? || d.Stay? then Entry(table, uid)
      else if d.Allocate? then Some(d.ep)
      else Some(d.target)
    ensures fate == Lost || d.Fail? || d.Stay? ==> Settled(table, uid, d, fate) == table
  {
    hide ForwardKey, ReverseKey, Plain, Applied, AddOps, UpdateOps;
    KeysDiffer(uid);
    match d {
      case Fail => NoOps(table);
      case Stay(_) => NoOps(table);
      case Allocate(ep) => AddApplied(table, uid, ep);
      case Migrate(source, target) => UpdateApplied(table, uid, source, target);
    }
  }

  lemma QueryServes(table: Table, uid: string, w: World, fate: Fate)
    ensures var at, d := Entry(table, uid), Decide(Entry(table, uid), w);
            && Served(at, w, fate, Entry(Settled(table, uid, d, fate), uid), Answered(d, fate))
            && (!Moves(at, w) || fate == Lost ==> Settled(table, uid, d, fate) == table)
  {
    hide Entry, Settled;
    SettledEntry(table, uid, Decide(Entry(table, uid), w), fate);
  }

  // ----- Queries of different users at the same time -----

  /** Each user's query is between its read and its transaction, or not running. */
  datatype Calls = Calls(table: Table, pending: map<string, Decision>)

  datatype Event = Read(uid: string, w: World) | Commit(uid: string, fate: Fate)

  /** One query per user at a time: a read only when none is pending. */
  predicate Enabled(s: Calls, e: Event) {
    match e
    case Read(uid, w) => uid !in s.pending && PlainWorld(w)
    case Commit(uid, _) => uid in s.pending
  }

  function Next(s: Calls, e: Event): Calls
    requires Enabled(s, e)
  {
    match e
    case Read(uid, w) => s.(pending := s.pending[uid := Decide(Entry(s.table, uid), w)])
    case Commit(uid, fate) => Calls(Settled(s.table, uid, s.pending[uid], fate), s.pending - {uid})
  }

  /** What a pending query read is still what the table says. */
  ghost predicate Fits(s: Calls, uid: string)
    requires uid in s.pending
  {
    var d := s.pending[uid];
    && (d.Stay? ==> Assigned(s.table, uid, d.ep))
    && (d.Allocate? ==> Plain(d.ep) && Entry(s.table, uid) == None)
    && (d.Migrate? ==> Plain(d.target) && Plain(d.source) && d.source != d.target && Assigned(s.table, uid, d.source))
  }

  ghost predicate Inv(s: Calls) {
    Agree(s.table) && forall uid :: uid in s.pending ==> Fits(s, uid)
  }

  lemma DecideFits(table: Table, uid: string, w: World)
    requires Agree(table) && PlainWorld(w)
    ensures var d := Decide(Entry(table, uid), w);
            && (d.Stay? ==> Assigned(table, uid, d.ep))
            && (d.Allocate? ==> Plain(d.ep) && Entry(table, uid) == None)
            && (d.Migrate? ==>
                  Plain(d.target) && Plain(d.source) && d.source != d.target && Assigned(table, uid, d.source))
  {
    hide ForwardKey, ReverseKey, Plain;
  }

  lemma StepKeepsInv(s: Calls, e: Event)
    requires Inv(s) && Enabled(s, e)
    ensures Inv(Next(s, e))
    ensures e.Commit? && Answered(s.pending[e.uid], e.fate).Some? ==>
              Assigned(Next(s, e).table, e.uid, Answered(s.pending[e.uid], e.fate).value)
  {
    hide ForwardKey, Plain, Agree, Decide, Settled;
    match e {
      case Read(uid, w) =>
        DecideFits(s.table, uid, w);
      case Commit(uid, fate) =>
        SettledAgrees(s.table, uid, s.pending[uid], fate);
        var r := Next(s, e);
        forall v | v in r.pending
          ensures Fits(r, v)
        {
          assert Entry(r.table, v) == Entry(s.table, v);
          assert Fits(s, v);
        }
    }
  }

  ghost predicate PossibleRun(s: Calls, run: seq<Event>)
    decreases run
  {
    run == [] || (Enabled(s, run[0]) && PossibleRun(Next(s, run[0]), run[1..]))
  }

  function After(s: Calls, run: seq<Event>): Calls
    requires PossibleRun(s, run)
    decreases run
  {
    if run == [] then s else After(Next(s, run[0]), run[1..])
  }

  lemma {:induction false} RunKeepsInv(s: Calls, run: seq<Event>)
    requires Inv(s) && PossibleRun(s, run)
    ensures Inv(After(s, run))
    decreases run
  {
    hide Enabled, Next, Inv;
    if run != [] {
      StepKeepsInv(s, run[0]);
      RunKeepsInv(Next(s, run[0]), run[1..]);
    }
  }

  /**
   * From an empty table, whatever the ring, the health checks and lost replies do, and however queries
   * of different users interleave, the two indexes agree at every moment, and whenever a query answers,
   * its answer is the entry that it leaves in the store.
   */
  lemma IndexesAgree(run: seq<Event>, uid: string, fate: Fate)
    requires PossibleRun(Calls(map[], map[]), run)
    ensures var s := After(Calls(map[], map[]), run);
            && Agree(s.table)
            && (uid in s.pending && Answered(s.pending[uid], fate).Some? ==>
                  Assigned(Next(s, Commit(uid, fate)).table, uid, Answered(s.pending[uid], fate).value))
  {
    hide Next, Agree, Fits, Answered;
    EmptyAgrees();
    RunKeepsInv(Calls(map[], map[]), run);
    var s := After(Calls(map[], map[]), run);
    if uid in s.pending {
      StepKeepsInv(s, Commit(uid, fate));
    }
  }

  lemma EmptyAgrees()
    ensures Inv(Calls(map[], map[]))
  {
  }

  // ----- The store and the server -----

  class DashStore {
    var table: Table

    constructor ()
      ensures table == map[]
    {
      table := map[];
    }

    method GetKV(k: string) returns (v: Option<string>)
      ensures v == if k in table then Some(table[k]) else None
    {
      v := if k in table then Some(table[k]) else None;
    }

    /** Its atomicity is that of the one transaction; the lock around it may have failed. */
    method AtomicMultiKVOp(kvs: seq<KV>, fate: Fate) returns (failed: bool)
      modifies this
      ensures table == Outcome(old(table), Compiled(kvs), fate)
      ensures failed == !fate.Done?
    {
      var ops: seq<TxnOp> := [];
      for i := 0 to |kvs|
        invariant ops == Compiled(kvs[..i])
      {
        assert kvs[..i + 1][..i] == kvs[..i];
        var kv := kvs[i];
        if kv.op == OP_PUT {
          ops := ops + [OpPut(kv.key, kv.value)];
        } else if kv.op == OP_DEL {
          ops := ops + [OpDelete(kv.key)];
        }
      }
      assert kvs[..|kvs|] == kvs;
      failed := Commit(ops, fate);
    }

    method Commit(ops: seq<TxnOp>, fate: Fate) returns (failed: bool)
      modifies this
      ensures table == Outcome(old(table), ops, fate)
      ensures failed == !fate.Done?
    {
      if !fate.Lost? {
        var i := 0;
        while i < |ops|
          invariant i <= |ops| && table == Applied(old(table), ops[..i])
        {
          assert ops[..i + 1][..i] == ops[..i];
          match ops[i] {
            case OpPut(k, v) => table := table[k := v];
            case OpDelete(k) => table := table - {k};
          }
          i := i + 1;
        }
        assert ops[..i] == ops;
      }
      failed := !fate.Done?;
    }
  }

  class DashServer {
    const store: DashStore
    /** Users whose queries have to wait. */
    var paused: set<string>

    constructor (store: DashStore)
      ensures this.store == store && paused == {}
    {
      this.store := store;
      paused := {};
    }

    method AddEpInfo(uid: string, ep: string, fate: Fate) returns (failed: bool)
      modifies store
      ensures store.table == Outcome(old(store.table), AddOps(uid, ep), fate) && failed == !fate.Done?
    {
      var kvs := [KV(OP_PUT, ForwardKey(uid), ep), KV(OP_PUT, ReverseKey(ep, uid), "")];
      assert Compiled(kvs) == AddOps(uid, ep) by {
        hide ForwardKey, ReverseKey;
        assert kvs[..1][..0] == [] && Compiled(kvs[..1]) == [OpPut(ForwardKey(uid), ep)];
      }
      failed := store.AtomicMultiKVOp(kvs, fate);
    }

    method UpdateEpInfo(uid: string, source: string, target: string, fate: Fate) returns (failed: bool)
      modifies store
      ensures store.table == Outcome(old(store.table), UpdateOps(uid, source, target), fate) && failed == !fate.Done?
    {
      hide ForwardKey, ReverseKey, Applied;
      var kvs := [KV(OP_PUT, ForwardKey(uid), target), KV(OP_DEL, ReverseKey(source, uid), ""),
                  KV(OP_PUT, ReverseKey(target, uid), "")];
      assert kvs[..2][..1][..0] == [] && kvs[..2][..1] == [kvs[0]];
      assert Compiled(kvs[..2][..1]) == [OpPut(ForwardKey(uid), target)];
      assert Compiled(kvs[..2]) == [OpPut(ForwardKey(uid), target), OpDelete(ReverseKey(source, uid))];
      assert kvs[..|kvs| - 1] == kvs[..2] && Compiled(kvs) == UpdateOps(uid, source, target);
      failed := store.AtomicMultiKVOp(kvs, fate);
    }

    method AllocEndpoint(uid: string, node: Option<string>, fate: Fate) returns (ep: Option<string>)
      modifies store
      ensures node.None? ==> ep == None && store.table == old(store.table)
      ensures node.Some? ==> store.table == Outcome(old(store.table), AddOps(uid, node.value), fate)
                             && ep == if fate.Done? then node else None
    {
      if node.None? {
        return None;
      }
      var failed := AddEpInfo(uid, node.value, fate);
      ep := if failed then None else node;
    }

    /** None is an error. The call starts once the user is not paused and leaves it so. */
    method UidEndpoint(uid: string, w: World, fate: Fate) returns (resp: Option<string>)
      requires uid !in paused && Agree(store.table) && PlainWorld(w)
      modifies store, this
      ensures var d := Decide(Entry(old(store.table), uid), w);
              store.table == Settled(old(store.table), uid, d, fate) && resp == Answered(d, fate)
      ensures Served(Entry(old(store.table), uid), w, fate, Entry(store.table, uid), resp)
      ensures !Moves(Entry(old(store.table), uid), w) || fate == Lost ==> store.table == old(store.table)
      ensures Agree(store.table) && (resp.Some? ==> Assigned(store.table, uid, resp.value))
      ensures forall v :: v != uid ==> Entry(store.table, v) == Entry(old(store.table), v)
      ensures paused == old(paused)
    {
      hide ForwardKey, ReverseKey, Agree, Applied, AddOps, UpdateOps, Plain;
      DecideFits(store.table, uid, w);
      SettledAgrees(store.table, uid, Decide(Entry(store.table, uid), w), fate);
      QueryServes(store.table, uid, w, fate);
      resp := Query(uid, w, fate);
    }

    method Query(uid: string, w: World, fate: Fate) returns (resp: Option<string>)
      requires uid !in paused
      modifies store, this
      ensures var d := Decide(Entry(old(store.table), uid), w);
              store.table == Settled(old(store.table), uid, d, fate) && resp == Answered(d, fate)
      ensures paused == old(paused)
    {
      hide ForwardKey, ReverseKey, Applied, AddOps, UpdateOps;
      NoOps(store.table);
      if !w.readable {
        return None;
      }
      var cur := store.GetKV(ForwardKey(uid));
      if cur.None? {
        resp := AllocEndpoint(uid, w.node, fate);
        return resp;
      }
      if w.node.None? {
        return None;
      }
      if w.node.value != cur.value {
        if !w.healthy {
          return cur;
        }
        paused := paused + {uid};
        if !w.listed || !w.cleaned {
          paused := paused - {uid};
          return None;
        }
        var failed := UpdateEpInfo(uid, cur.value, w.node.value, fate);
        paused := paused - {uid};
        return if failed then None else w.node;
      }
      resp := cur;
    }
  }
}
