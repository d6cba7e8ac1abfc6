/**
 * The recorder manager on values: an LRU of live histories over a store of saved ones, and the
 * plain map of histories that it is meant to be.
 */
module Managers {
  import opened Sequences
  import opened Histories
  import opened Fates
  import opened Lru
  import opened Storage

  type Live = seq<Entry<seq<string>>>

  /** Lines per recorder, recorders per manager, the users, and where each user's history is stored. */
  datatype Config = Config(capacity: nat, slots: nat, users: set<string>, key: string -> string)

  predicate Sound(c: Config) {
    c.capacity >= 1 && c.slots >= 1
  }

  predicate DistinctKeys(c: Config) {
    forall a, b :: a in c.users && b in c.users && c.key(a) == c.key(b) ==> a == b
  }

  /** `stopped` are the recorders taken out of service; their tickers may still fire. */
  datatype State = State(live: Live, stopped: Live, data: Store)

  /** Whether the store answered the load, and what became of the save. */
  datatype Net = Net(loaded: bool, save: Fate)

  function Stored(c: Config, data: Store, id: string): (h: seq<string>)
    ensures History(h, c.capacity)
  {
    Decoded(data, c.key(id), c.capacity)
  }

  function Saved(c: Config, data: Store, r: Entry<seq<string>>, saved: bool): Store {
    if saved then data[c.key(r.key.text) := ListBlob(r.value)] else data
  }

  /** `tryRun`: load the history if its recorder is not live, pushing out the oldest when full. */
  function EnsureLive(c: Config, st: State, id: string, net: Net): (r: State)
    requires Sound(c)
    ensures id in Names(r.live)
  {
    if id in Names(st.live) then st
    else
      var lines := if net.loaded then Stored(c, st.data, id) else [];
      var live := Added(st.live, c.slots, StringKey(id), lines);
      if |st.live| == c.slots then
        var victim := st.live[|st.live| - 1];
        State(live, st.stopped + [victim], Saved(c, st.data, victim, net.save.Landed()))
      else State(live, st.stopped, st.data)
  }

  lemma LiveIsKept(c: Config, st: State, id: string, net: Net)
    requires Sound(c) && id in Names(st.live)
    ensures EnsureLive(c, st, id, net) == st
  {
  }

  /** The recorder of `id`, made live and moved to the front. */
  function Access(c: Config, st: State, id: string, net: Net): (r: State)
    requires Sound(c)
    ensures r.live != [] && Sprint(r.live[0].key) == id
  {
    var made := EnsureLive(c, st, id, net);
    made.(live := Refreshed(made.live, StringKey(id)))
  }

  function Put(live: Live, lines: seq<string>): Live
    requires live != []
  {
    live[0 := Entry(live[0].key, lines)]
  }

  function AddLine(c: Config, st: State, id: string, s: string, net: Net): State
    requires Sound(c)
  {
    var r := Access(c, st, id, net);
    r.(live := Put(r.live, Record(r.live[0].value, c.capacity, s)))
  }

  function Stop(c: Config, st: State, id: string, saved: bool): State {
    var k := IndexOf(st.live, id);
    if k < |st.live| then
      State(RemoveAt(st.live, k), st.stopped + [st.live[k]], Saved(c, st.data, st.live[k], saved))
    else st
  }

  datatype Event =
    | Add(id: string, s: string, net: Net)
    | Find(id: string, q: string, net: Net)
    | StopOne(id: string, saved: bool)
    | Tick(id: string, saved: bool)
    | LateTick(j: nat, saved: bool)

  datatype Output = Nothing | Accepted | Refused | Answered(found: seq<string>)

  function Step(c: Config, st: State, e: Event): (State, Output)
    requires Sound(c)
  {
    match e
    case Add(id, s, net) => (AddLine(c, st, id, s, net), if s == "" then Refused else Accepted)
    case Find(id, q, net) =>
      if id == "" && q == "" then (st, Answered([]))
      else
        var r := Access(c, st, id, net);
        (r, Answered(Answer(r.live[0].value, q)))
    case StopOne(id, saved) => (Stop(c, st, id, saved), Nothing)
    case Tick(id, saved) =>
      var k := IndexOf(st.live, id);
      (if k < |st.live| then st.(data := Saved(c, st.data, st.live[k], saved)) else st, Nothing)
    case LateTick(j, saved) =>
      (if j < |st.stopped| then st.(data := Saved(c, st.data, st.stopped[j], saved)) else st, Nothing)
  }

  function Run(c: Config, st: State, es: seq<Event>): State
    requires Sound(c)
    decreases es
  {
    if es == [] then st else Run(c, Step(c, st, es[0]).0, es[1..])
  }

  function Outputs(c: Config, st: State, es: seq<Event>): seq<Output>
    requires Sound(c)
    decreases es
  {
    if es == [] then [] else [Step(c, st, es[0]).1] + Outputs(c, Step(c, st, es[0]).0, es[1..])
  }

  // ----- What the manager is meant to be -----

  type Ideal = map<string, seq<string>>

  function IdealStep(c: Config, m: Ideal, e: Event): (Ideal, Output)
    requires Sound(c) && m.Keys == c.users && UsersOnly(c, e)
  {
    match e
    case Add(id, s, _) => (m[id := Record(m[id], c.capacity, s)], if s == "" then Refused else Accepted)
    case Find(id, q, _) => (m, Answered(if id == "" && q == "" then [] else Answer(m[id], q)))
    case _ => (m, Nothing)
  }

  predicate UsersOnly(c: Config, e: Event) {
    match e
    case Add(id, _, _) => id in c.users
    case Find(id, q, _) => id in c.users || (id == "" && q == "")
    case _ => true
  }

  /** The history of `id` that the state stands for. */
  function Logical(c: Config, st: State, id: string): seq<string> {
    match Looked(st.live, StringKey(id))
    case Some(h) => h
    case None => Stored(c, st.data, id)
  }

  function Meaning(c: Config, st: State): (m: Ideal)
    ensures m.Keys == c.users
  {
    map id | id in c.users :: Logical(c, st, id)
  }

  ghost predicate Inv(c: Config, st: State) {
    && Filed(st.live, c.slots)
    && (forall i :: 0 <= i < |st.live| ==>
          Sprint(st.live[i].key) in c.users && History(st.live[i].value, c.capacity))
    && (forall j :: 0 <= j < |st.stopped| ==>
          Sprint(st.stopped[j].key) in c.users && History(st.stopped[j].value, c.capacity))
  }
}
