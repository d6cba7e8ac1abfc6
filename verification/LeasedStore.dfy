/** The store as the lock and the election see it: keys attached to leases, changed by atomic transactions. */
module LeasedStore {

  datatype Held = Held(value: string, lease: nat)

  /** A key lives exactly as long as its lease; `next` is the first lease number never granted. */
  datatype Etcd = Etcd(kv: map<string, Held>, alive: set<nat>, next: nat)

  ghost predicate Sound(e: Etcd) {
    && (forall k :: k in e.kv ==> e.kv[k].lease in e.alive)
    && (forall l :: l in e.alive ==> l < e.next)
  }

  function Grant(e: Etcd): Etcd {
    e.(alive := e.alive + {e.next}, next := e.next + 1)
  }

  /** The transaction of `tryLock` and `Elect`: put under a lease if the key was never created. */
  predicate CanCreate(e: Etcd, k: string, lease: nat) {
    k !in e.kv && lease in e.alive
  }

  function Create(e: Etcd, k: string, value: string, lease: nat): Etcd {
    if CanCreate(e, k, lease) then e.(kv := e.kv[k := Held(value, lease)]) else e
  }

  /** Revocation and expiry alike: the lease ends and its keys go with it. */
  function End(e: Etcd, lease: nat): Etcd {
    e.(alive := e.alive - {lease}, kv := map k | k in e.kv && e.kv[k].lease != lease :: e.kv[k])
  }

  lemma StaysSound(e: Etcd, k: string, value: string, lease: nat)
    requires Sound(e)
    ensures Sound(Grant(e)) && Sound(Create(e, k, value, lease)) && Sound(End(e, lease))
  {
  }
}
