/** The proxy's endpoint cache, whose entries go stale after thirty seconds and are then deleted lazily. */
module StalingCaches {
  import opened Sequences

  /** Thirty seconds, in the nanoseconds that times are counted in. */
  const LIFETIME := 30_000_000_000

  datatype Node = Node(val: string, deadline: int)

  type Cache = map<string, Node>

  /** A lookup: a stale entry is not returned, and is deleted. */
  function Got(cache: Cache, key: string, now: int): Option<string> {
    if key in cache && now < cache[key].deadline then Some(cache[key].val) else None
  }

  function AfterGet(cache: Cache, key: string, now: int): Cache {
    if key in cache && now >= cache[key].deadline then cache - {key} else cache
  }

  datatype Event = Put(key: string, val: string, now: int) | Get(key: string, now: int) | Del(key: string, now: int)

  function Step(cache: Cache, e: Event): Cache {
    match e
    case Put(k, v, now) => cache[k := Node(v, now + LIFETIME)]
    case Get(k, now) => AfterGet(cache, k, now)
    case Del(k, _) => cache - {k}
  }

  function Run(cache: Cache, es: seq<Event>): Cache {
    if es == [] then cache else Step(Run(cache, es[..|es| - 1]), es[|es| - 1])
  }

  predicate Clocked(es: seq<Event>) {
    forall i, j :: 0 <= i < j < |es| ==> es[i].now <= es[j].now
  }

  /** What a cache that never deletes stale entries would hold: the last Put since the last Del. */
  function LastPut(es: seq<Event>, key: string): Option<Event> {
    if es == [] then None
    else
      var e := es[|es| - 1];
      if e.key == key && e.Put? then Some(e)
      else if e.key == key && e.Del? then None
      else LastPut(es[..|es| - 1], key)
  }

  /** The answer read off the history alone. */
  function Expected(es: seq<Event>, key: string, now: int): Option<string> {
    match LastPut(es, key)
    case Some(Put(_, val, at)) => if now < at + LIFETIME then Some(val) else None
    case _ => None
  }

  /** Some lookup since the last Put came when its entry was stale already, and deleted it. */
  predicate Late(es: seq<Event>, key: string) {
    if es == [] then false
    else
      var before, e := es[..|es| - 1], es[|es| - 1];
      if e.key != key then Late(before, key)
      else if e.Get? then Late(before, key) || (LastPut(before, key).Some? && Stale(LastPut(before, key).value, e.now))
      else false
  }

  predicate Stale(put: Event, now: int) {
    put.now + LIFETIME <= now
  }

  /** The cache holds the last Put since the last Del, unless a late lookup has deleted it. */
  lemma {:induction false} EntryIsLastPut(es: seq<Event>, key: string)
    ensures var cache, last := Run(map[], es), LastPut(es, key);
            && (last.Some? ==> last.value.Put?)
            && (key in cache <==> last.Some? && !Late(es, key))
            && (key in cache ==> cache[key] == Node(last.value.val, last.value.now + LIFETIME))
  {
    if es != [] {
      EntryIsLastPut(es[..|es| - 1], key);
    }
  }

  /**
   * On any sequence of times whatever, a lookup answers as if nothing were ever deleted on expiry, except
   * exactly when a late lookup came since the Put and yet the present time is before its deadline.
   */
  lemma LazyExpiryExact(es: seq<Event>, key: string, now: int)
    ensures Got(Run(map[], es), key, now) == Expected(es, key, now) <==>
      !(Late(es, key) && LastPut(es, key).Some? && !Stale(LastPut(es, key).value, now))
  {
    EntryIsLastPut(es, key);
  }

  lemma {:induction false} LateIsPast(es: seq<Event>, key: string)
    requires Clocked(es) && Late(es, key) && LastPut(es, key).Some?
    ensures Stale(LastPut(es, key).value, es[|es| - 1].now)
  {
    var before, e := es[..|es| - 1], es[|es| - 1];
    if Late(before, key) {
      LateIsPast(before, key);
    }
  }

  /** Times that never decrease, as those of a monotonic clock, rule the exception out. */
  lemma LazyExpiryIsUnobservable(es: seq<Event>, key: string, now: int)
    requires Clocked(es) && (es == [] || es[|es| - 1].now <= now)
    ensures Got(Run(map[], es), key, now) == Expected(es, key, now)
  {
    LazyExpiryExact(es, key, now);
    if Late(es, key) && LastPut(es, key).Some? {
      LateIsPast(es, key);
    }
  }

  /** A value is found for the thirty seconds after its Put, whatever happened before, and not later. */
  lemma FreshForThirtySeconds(es: seq<Event>, key: string, val: string, at: int, now: int)
    ensures Got(Run(map[], es + [Put(key, val, at)]), key, now) == if now - at < 30_000_000_000 then Some(val) else None
  {
    assert (es + [Put(key, val, at)])[..|es|] == es;
  }

  class StalingCache {
    var cache: Cache

    constructor ()
      ensures cache == map[]
    {
      cache := map[];
    }

    method PutAt(key: string, val: string, now: int)
      modifies this
      ensures cache == Step(old(cache), Put(key, val, now))
    {
      var node := Node(val, now + LIFETIME);
      cache := cache[key := node];
    }

    method GetAt(key: string, now: int) returns (val: Option<string>)
      modifies this
      ensures val == Got(old(cache), key, now) && cache == Step(old(cache), Get(key, now))
    {
      val := None;
      if key in cache {
        var node := cache[key];
        if now < node.deadline {
          return Some(node.val);
        }
        cache := cache - {key};
      }
    }

    method DelAt(key: string, now: int)
      modifies this
      ensures cache == Step(old(cache), Del(key, now))
    {
      cache := cache - {key};
    }
  }
}
