# A verified model of mysh

mysh keeps each user's shell history on a server and lets any number of servers, proxies and dash
servers share the work through etcd. This project models its four connected parts and proves what they
promise.

**Histories.** A recorder is an LRU cache of commands (`Lru.dfy` over the linked ring of
`LinkedLists.dfy`, `Recorder.dfy`). A persistent recorder loads its list from the store and saves it on
every tick and when it is stopped (`PersistentRecorder.dfy`). The recorder manager is an LRU cache of
such recorders; a recorder that is pushed out is flushed, and loaded again on the next access
(`RecorderManager.dfy`). The classes work on the heap and are proved against `Managers.dfy`, the same
manager on values; `Relabeling.dfy` carries the proofs from one to the other. `Transparency.dfy` proves
that the whole two-level structure cannot be told apart from a plain map of bounded histories, and says
exactly which failed loads, failed saves, late ticks and shared keys would show. `Recency.dfy` says which
recorders stay live, `Histories.dfy` what a history is, `StorageKeys.dfy` where it is stored.

**Lock and election.** `LeasedStore.dfy` is etcd as the lock sees it. `LockProtocol.dfy` and
`Election.dfy` are protocols over it, with every interleaving of any number of processes, goroutines and
electors; `LockFlow.dfy` says in which order one goroutine goes through `Lock` and `UnLock`, and
`EtcdClient.dfy` has the single calls.

**Endpoints.** `EndpointIndex.dfy` has the forward and reverse keys of the dash server under concurrent
queries, `Placement.dfy` where a run of queries leaves each user, `ProxyAccounting.dfy` one proxy's request
counter, lock and recursive retry, `ProxyFlow.dfy` the order in which one goroutine goes through them,
`ProxyNetwork.dfy` any number of proxies and dash servers waiting for each other (`Tallies.dfy` adds up what
is left to do), `QueryFlow.dfy` the order in which one query goes through its handler, `StalingCache.dfy` a
proxy's expiring cache.

**Logins and hand-over.** `TokenCache.dfy`, `SearchServer.dfy`, `Responses.dfy` and `HandOver.dfy` have the
login check, the request handlers, what their answers mean, and the move of a user from one server to
another.

Parameters stand for what comes from outside: `Fate` for what becomes of a call to etcd (carried out, lost
on the way, or carried out with the reply lost) and `Net` for a load and a save together, `World` for the
hash ring, health checks and listings, `now` for the clock, `earned` for the password check. Strings are
sequences of Unicode characters, which is what valid UTF-8 decodes to; sizes are parameters where the
source has 10000 lines and 100000 recorders.

Where code and comments disagree the code is modelled: `Contains` refreshes recency, `Keys` returns
`Len` empty slots and then the newest key over and over, `UnLock` reports an error even when it succeeded.

Expectations that are false of the code, each with its exact condition:

- transparency: users who share a storage key (`TransparentIffDistinctKeys`, in terms of the ids
  `TransparentIffDistinctPlaces`), failed loads and saves (`EnsureLiveExact`, `StopExact`), a stopped
  recorder's ticker that fires late (`LateTickExact`).
- mutual exclusion: a ten-second lease that expires anywhere between the won transaction and the
  revocation, and `AtomicMultiKVOp` unlocking after a failed lock while somebody of its process holds the
  key. `StepExact` and `ExclusionExact` say that these two are the exact condition: a run without them
  keeps exclusion, and any run with one of them can be continued peacefully to two owners.
  `ExpiryBreaksExclusion` and `StrayUnlockBreaksExclusion` give the continuations, `UnlockExact` the same
  for one call of `UnLock`.
- the endpoint indexes agree: two migrations of one user may overlap, and so may two first assignments
  when the ring changes in between (`AddExact` and `UpdateExact` say which commit keeps agreement,
  `ConcurrentAssignmentsExact` and `ConcurrentMigrationsExact` which pairs do).
- the proxies always get on: `uidEndpoint` keeps the cache lock while the dash server works on the query,
  and that query may be paused behind another one or wait for the caches of all registered proxies. Without
  a broken connection, a failed call or a dead dash server, a lock can be released again exactly when the
  waiting that starts at its holder does not close on itself (`ReleasableExact`, `FinishableExact`,
  `HeldForever`); with all proxies registered that happens exactly on the runs on which a migration finds
  a user in its listing (`KnottedIffListed`), and `ListedUser` says which users those are.

The times in the staling cache are Go times with a monotonic reading, so they never decrease under the
cache's mutex; `LazyExpiryExact` covers arbitrary times as well.

## Model

| member | source | states |
|---|---|---|
| Lru.Cache.Valid | lru/lru.go:59-69 | the map files the list's elements under distinct names, at most `capacity` of them, and the ring's links are well formed (the invariant of every cache method) |
| Lru.Cache.Bijection | lru/lru.go:59-69 | each element is filed under the printed form of the key it carries now, and nothing else is filed, even after a hit replaced that key |
| Lru.Cache.NewLRU | lru/lru.go:47-57 | a cache exactly for capacities of at least one, otherwise the panic |
| Lru.Cache.Add | lru/lru.go:89-132 | the duplicate-free most-recent-first sequence after an add, and the one value that the eviction functions get |
| Lru.Cache.CommonGet | lru/lru.go:134-165 | the value filed under the printed key; a peek leaves the order, a get moves the entry to the front |
| Lru.Cache.Get | lru/lru.go:167-171 | a found entry becomes the most recent one |
| Lru.Cache.Contains | lru/lru.go:173-178 | tells whether the key is cached, and does refresh its recency |
| Lru.Cache.Peek | lru/lru.go:180-184 | the cached value, changing nothing |
| Lru.Cache.Remove | lru/lru.go:186-204 | removes exactly the entry with that printed key and tells whether there was one |
| Lru.Cache.RemoveOldest | lru/lru.go:206-224 | splits off the last entry |
| Lru.Cache.GetOldest | lru/lru.go:226-239 | the last entry, if any |
| Lru.Cache.Filter | lru/lru.go:71-87 | keys and values of the kept entries, newest first; fails exactly when some key is not a string |
| Lru.Cache.Keys | lru/lru.go:241-256 | as coded: `Len` empty slots, then the newest key once per entry |
| Lru.Cache.Len | lru/lru.go:258-261 | the number of entries |
| Lru.Cache.Purge | lru/lru.go:263-268 | an empty, well-formed cache |
| LinkedLists.LinkedList.Remove | lru/lru.go:107-110 | takes one element out of the ring and keeps the rest linked in order |
| LinkedLists.LinkedList.MoveToFront | lru/lru.go:105 | the element first, all others in their old order |
| LinkedLists.LinkedList.MoveBeforeFront | lru/lru.go:155-157 | the same through `MoveBefore` with the front as mark |
| LinkedLists.LinkedList.PushFront | lru/lru.go:123-126 | a new element in front of the old ring |
| LruLaws.AddedLaw | lru/lru.go:106-128 | a miss on a full cache forgets exactly the last entry; every other lookup is unchanged |
| LruLaws.AddedHitLaw | lru/lru.go:100-105 | a hit rewrites one value and changes no other lookup |
| LruLaws.RefreshedLaw | lru/lru.go:155-157 | moving to the front changes no lookup |
| LruLaws.RemoveAtLaw | lru/lru.go:195-199 | removing an entry changes no other lookup |
| Recorders.Lookup | recorder/recorder.go:49-52 | a hit exactly when the query is non-empty and occurs in the indexed text |
| Recorders.Recorder.Add | recorder/recorder.go:81-95 | refuses exactly the empty command; otherwise the command is recorded as the newest, once, within capacity |
| Recorders.Recorder.Find | recorder/recorder.go:49-55 | the commands of the list that contain the query, in list order |
| Recorders.Recorder.List | recorder/recorder.go:57-62 | all commands, newest first |
| Recorders.KeptIsAnswer | recorder/recorder.go:49-55 | when every entry carries the index of its own key, filtering by index lookup is filtering by containment |
| Recorders.RefreshedIsRecord | recorder/recorder.go:86-89 | refreshing a command through `Contains` is recording it again, and keeps every index with its key |
| Recorders.AddedIsRecord | recorder/recorder.go:91-92 | adding an absent command, with eviction, is recording it, and files it with its own index |
| Histories.StackTheorem | recorder/recorder.go:81-95 | after any commands from any history the list is the newest distinct non-empty ones, then the history, cut to capacity |
| Histories.SmallerIsPrefix | recorder/recorder.go:39-43 | a smaller recorder lists a prefix of what a larger one lists on the same commands |
| Histories.RoundTrip | recorder/recorder.go:227-246 | a saved history loads back unchanged, in the same order |
| Histories.ReloadIsLoaded | recorder/recorder.go:299-303 | re-adding a stored list backwards gives its repeat-free prefix within capacity, of the part behind the last empty string |
| Histories.EmptyQuery | recorder/recorder.go:49-55 | the empty query finds nothing |
| PersistentRecorders.PersistentRecorder.Run | recorder/recorder.go:200-218 | the recorder is initialised, holds the stored history if the load got through, and its goroutine runs |
| PersistentRecorders.PersistentRecorder.InitOrLoad | recorder/recorder.go:278-307 | what is loaded and when an error is reported, for missing, empty, garbled and partly empty values |
| PersistentRecorders.PersistentRecorder.Replay | recorder/recorder.go:299-303 | the backwards loop leaves the loadable part in stored order and fails exactly at an empty string |
| PersistentRecorders.LoadableStops | recorder/recorder.go:299-303 | an empty stored command hides everything older than it |
| PersistentRecorders.PersistentRecorder.Sync | recorder/recorder.go:227-246 | the whole list is in the store exactly if the save was carried out, also when its reply was lost |
| PersistentRecorders.PersistentRecorder.Stop | recorder/recorder.go:220-225 | flushes, and sends on an empty channel, so that the send cannot block |
| PersistentRecorders.PersistentRecorder.Tick | recorder/recorder.go:205-217 | a ticker round saves the present list, also after a stop that was not received yet |
| PersistentRecorders.PersistentRecorder.TakeStop | recorder/recorder.go:211-213 | receiving the stop message ends the goroutine |
| PersistentRecorders.PersistentRecorder.Add | recorder/recorder.go:248-259 | records into the inner recorder and nothing else |
| PersistentRecorders.PersistentRecorder.Find | recorder/recorder.go:261-268 | the inner recorder's answer |
| PersistentRecorders.PersistentRecorder.List | recorder/recorder.go:270-276 | the inner recorder's list |
| Storage.EtcdStore.PutKV | lib/etcd/etcd.go:42-49 | the value is stored exactly if the call was carried out; an error does not tell whether it was |
| Storage.EtcdStore.GetKV | lib/etcd/etcd.go:51-65 | the value, or which of the two errors |
| RecorderManagers.RecorderManager.TryRun | recorder/recorder.go:362-380 | the manager's view afterwards: loaded before the eviction, the oldest recorder flushed and out |
| RecorderManagers.RecorderManager.Admit | recorder/recorder.go:373-376 | the new recorder is filed and exactly the pushed-out one is stopped, once |
| RecorderManagers.RecorderManager.Add | recorder/recorder.go:396-405 | the view after an add; the recorder is there after `tryRun`, so the type assertion holds |
| RecorderManagers.RecorderManager.Find | recorder/recorder.go:407-422 | the view and the answer of a search, including the early return on two empty strings |
| RecorderManagers.RecorderManager.Stop | recorder/recorder.go:382-394 | the view after a stop, unchanged when the recorder is not live |
| RecorderManagers.RecorderManager.Tick | recorder/recorder.go:205-217 | any started recorder's ticker round is a tick of a live recorder or a late tick of a retired one |
| RecorderManagers.RecorderManager.TakeStop | recorder/recorder.go:211-213 | only a retired recorder has a stop message to take, and taking it changes nothing visible |
| RecorderManagers.RecorderManager.LifeCycle | recorder/recorder.go:173-225 | every started recorder is initialised and either live once and never stopped, or retired once and stopped once |
| Transparency.EnsureLiveExact | recorder/recorder.go:362-380 | making a recorder live changes no user's history exactly when the load and the eviction's save lose nothing |
| Transparency.StopExact | recorder/recorder.go:382-394 | a stop changes no history exactly when its save goes through or was not needed |
| Transparency.TickMeaning | recorder/recorder.go:205-217 | a tick of a live recorder is invisible, saved or not |
| Transparency.TickSaves | recorder/recorder.go:205-217 | it stores exactly that user's history, if the save is carried out |
| Transparency.LateTickExact | recorder/recorder.go:220-225 | a tick after the stop is invisible exactly when it is not carried out, the user is live again, or the store has that history anyway |
| Transparency.AddLineMeaning | recorder/recorder.go:396-405 | an add changes one user's history, by recording the command |
| Transparency.StepSimulates | recorder/recorder.go:362-422 | each safe event is one step of the plain map, with the same answer |
| Transparency.RunSimulates | recorder/recorder.go:362-422 | over every safe run the manager gives the plain map's answers and ends in the plain map's state |
| Transparency.TransparentIffDistinctKeys | recorder/recorder.go:173-182 | no run gives the two-level cache away exactly when different users have different storage keys |
| Transparency.HistoryOfRun | recorder/recorder.go:362-422 | after any safe run a history is the newest distinct commands, then what was stored, cut to capacity |
| StorageKeys.SameKeyExact | recorder/recorder.go:173-182 | two ids share a storage key exactly when their parts, empty ones and dots dropped and double dots taken back, lead to the same place |
| StorageKeys.TransparentIffDistinctPlaces | recorder/recorder.go:173-182 | the histories of a set of users are transparent exactly when no two of their ids lead to the same place |
| StorageKeys.PlainKey | recorder/recorder.go:173-182 | an id that is a proper file name is stored right under the prefix |
| StorageKeys.PlainUsersAreTransparent | recorder/recorder.go:173-182 | users with such ids never share a key, so their histories are transparent |
| StorageKeys.DottedUserIsNot | recorder/recorder.go:173-182 | path cleaning gives `./x` the key of `x` for every id `x`, and the two users see each other's commands |
| StorageKeys.UpUserIsNot | recorder/recorder.go:173-182 | so do `a/../x` and `x` for every name `a` and every id `x` |
| StorageKeys.UpTakesBack | recorder/recorder.go:177 | `..` takes back the name before it, anywhere in an id |
| StorageKeys.DotSaysNothing | recorder/recorder.go:177 | a dot, or nothing, between two slashes changes no key |
| StorageKeys.NameGoesDeeper | recorder/recorder.go:177 | a name behind a slash is one more part of the key |
| StorageKeys.UpLeavesData | recorder/recorder.go:177 | an id that goes up once is stored under `/mysh`, one that goes up further under the root, and there it stays |
| Recency.StaysLive | recorder/recorder.go:362-422 | a touched recorder that is not stopped stays live while fewer than `slots` others are touched |
| Recency.LiveByLastTouch | recorder/recorder.go:400-405 | the live recorders are always listed by their last touch |
| Recency.EvictsOldest | lru/lru.go:106-120 | a touch evicts only when the recorder is new and all slots are taken, and then exactly the one touched longest ago, stopped once |
| LeasedStore.StaysSound | lib/etcd/etcd.go:152-171 | every key lives on a lease that is alive, through grants, creations and endings |
| LockProtocol.StepKeepsInv | lib/etcd/etcd.go:149-211 | each kept step of any goroutine, stray unlocks included, keeps owners in the store under their own lease and recorded by their process |
| LockProtocol.StepExact | lib/etcd/etcd.go:149-211 | a step keeps the invariant exactly when it neither expires an owner's lease nor is a stray revocation of a key held in the process |
| LockProtocol.MutualExclusion | lib/etcd/etcd.go:149-272 | in every interleaving of kept steps, with stray unlocks, one goroutine at most owns a key, and UnLock revokes the lease its own Lock got |
| LockProtocol.ExclusionExact | lib/etcd/etcd.go:149-272 | a run is kept exactly when no beginning of it can be continued, without another lease ending, to two owners of one key |
| LockProtocol.ExpiryBreaksExclusion | lib/etcd/etcd.go:173-196 | leases are never renewed: once the lease of any owner expires, any goroutine outside the lock can own the same key |
| LockProtocol.StrayUnlockBreaksExclusion | lib/etcd/etcd.go:268-272 | the unlock after a failed lock, when somebody of the process holds the key, can be followed by two owners |
| LockProtocol.HolderIsRecorded | lib/etcd/etcd.go:198-211 | a holder's UnLock always finds a record for its key |
| LockFlow.FlowExact | lib/etcd/etcd.go:152-211 | after any run a goroutine can take exactly the steps that follow its own last one, told by its steps alone, and that store, record and mutex allow |
| LockFlow.KeepsTrying | lib/etcd/etcd.go:182-190 | through any run without an error of its own a goroutine in `Lock` goes on trying until it wins |
| LockFlow.WinsWhenFree | lib/etcd/etcd.go:152-190 | until then it can win exactly when the key is free and its lease lives |
| LockFlow.WinsAfterRevocation | lib/etcd/etcd.go:182-205 | in particular right after the owner's revocation |
| EtcdClients.LockClient.TryLock | lib/etcd/etcd.go:152-171 | success puts the key under the caller's lease; a refusal without error means somebody has it |
| EtcdClients.LockClient.LockRound | lib/etcd/etcd.go:182-195 | one round of the loop in `Lock`: exactly a won round leaves the record |
| EtcdClients.RoundIsProtocol | lib/etcd/etcd.go:182-195 | such a round, with any fate, is a run of the protocol's steps: the key held and recorded, another try, or out of `Lock` |
| EtcdClients.LockClient.UnLock | lib/etcd/etcd.go:198-211 | always reports an error; what is revoked and what stays recorded, also for lost calls |
| EtcdClients.LockClient.IsLeader | lib/etcd/etcd.go:82-90 | true exactly when the key is there and names the elector; an error exactly when it is not read |
| EtcdClients.LockClient.GetElectorID | lib/etcd/etcd.go:92-100 | the elector that the key names |
| EtcdClients.UnlockIsProtocol | lib/etcd/etcd.go:198-211 | an UnLock call, by a holder or after a failed lock and with any fate, is a run of the protocol's steps, with the same store and record |
| EtcdClients.UnlockExact | lib/etcd/etcd.go:198-272 | such a call is harmless exactly when the caller holds the key, nobody of its process does, or the revocation is lost |
| Election.StepKeepsInv | lib/etcd/etcd.go:102-147 | the key names a started elector and sits on that elector's one lease; ended leases never return |
| Election.LeaderStays | lib/etcd/etcd.go:102-147 | whoever leads keeps leading as long as its lease lives |
| Election.NeverAgain | lib/etcd/etcd.go:121-126 | an elector whose lease has ended never leads again |
| Election.TermsNeverOverlap | lib/etcd/etcd.go:82-147 | once another elector leads, the first one's lease has ended and it never leads later |
| Election.RenewingLeaderStays | lib/etcd/etcd.go:109-111 | a leader that renews before each deadline leads at every later moment |
| Election.FreshLeaseLives | lib/etcd/etcd.go:104-111 | the lease of `Elect` lives for its whole time, and longer if it is renewed in time |
| Election.ElectorExact | lib/etcd/etcd.go:102-147 | `Elect` runs from its start to its first error, on one lease |
| Election.ReturnedIsSilent | lib/etcd/etcd.go:123-126 | an `Elect` that has returned takes no further step, so it never creates the key again |
| Election.ErrorMayLead | lib/etcd/etcd.go:121-126 | a transaction that took effect makes its elector lead although `Elect` returns the error; a lost one changes nothing |
| Election.TriesUntilError | lib/etcd/etcd.go:109-147 | until then it can create the key exactly when it is free and the lease lives |
| EndpointIndex.ForwardKeysDiffer | cons/cons.go:38 | forward keys of different users differ, whatever the ids contain |
| EndpointIndex.ReverseKeysDiffer | cons/cons.go:39 | a reverse key determines server and user when addresses have no slash |
| EndpointIndex.SlashedAddressesCollide | cons/cons.go:39 | two families of assignments with a slash in an address or an id whose reverse keys are equal |
| EndpointIndex.ListedExact | cons/cons.go:39 | the two-verb pattern formatted with one argument lists exactly the server's users whose id starts with `%!v(MISSING)` |
| EndpointIndex.ListedUser | server/server.go:606-611 | a migration sends a cleaning for an assigned user exactly if it has such an id |
| EndpointIndex.AddExact | server/server.go:449-461 | `addEpInfo` keeps both indexes in agreement exactly when the user has no other server |
| EndpointIndex.UpdateExact | server/server.go:484-499 | `updateEpInfo` does exactly when the user is unassigned or on one of the two servers |
| EndpointIndex.ConcurrentAssignmentsExact | server/server.go:501-514 | two overlapping first assignments of one user agree exactly when they choose the same server |
| EndpointIndex.ConcurrentMigrationsExact | server/server.go:589-628 | two overlapping migrations of one user from the same server agree exactly when they go to the same one |
| EndpointIndex.SettledAgrees | server/server.go:568-634 | a decision that still fits the table keeps agreement, touches no other user, and a successful answer is the forward entry |
| EndpointIndex.QueryServes | server/server.go:568-634 | from the user's server and what the query meets: which server the user has afterwards, also when the reply was lost, and whether and what it answers |
| EndpointIndex.StepKeepsInv | server/server.go:568-634 | what a pending query read stays true while queries of other users commit |
| EndpointIndex.IndexesAgree | server/server.go:449-634 | over every interleaving of queries of different users the indexes agree, and an answer is the entry left in the store |
| Placement.PlaceOfRun | server/server.go:501-634 | after any run of queries a user is on the node of the last one that landed and was its first assignment, or met another, healthy node with listing and cleaning done |
| EndpointIndex.CompiledJoined | lib/etcd/etcd.go:274-282 | entries become operations one by one, in order; an entry that is neither put nor delete is skipped |
| EndpointIndex.DashStore.AtomicMultiKVOp | lib/etcd/etcd.go:268-290 | all puts and deletes in order or none of them; other operations are skipped |
| EndpointIndex.DashServer.AddEpInfo | server/server.go:449-461 | the two puts of an assignment in one transaction |
| EndpointIndex.DashServer.UpdateEpInfo | server/server.go:484-499 | the put, delete and put of a migration in one transaction |
| EndpointIndex.DashServer.AllocEndpoint | server/server.go:501-514 | the ring's node, answered only once it is known to be stored |
| EndpointIndex.DashServer.UidEndpoint | server/server.go:568-634 | the user is moved, kept or refused as `QueryServes` says; agreement kept, other users untouched, a successful answer equals the stored entry, nobody left paused |
| ProxyAccounting.StepKeepsInv | server/server.go:912-924 | counter and lock state match the goroutines through every step |
| ProxyAccounting.CounterIsExact | server/server.go:1013-1049 | in every interleaving with recursive retries the counter is the number of counted calls, never negative, zero at rest, and nobody waiting for or holding the lock for writing is counted |
| ProxyAccounting.OthersRunOut | server/server.go:979-1049 | while one goroutine stays under the write lock, for whatever reason, the others can take only boundedly many steps besides arrivals |
| ProxyAccounting.CleaningWaitEnds | server/server.go:912-924 | while a cleaning waits the others can take only boundedly many steps, and then the counter is zero |
| ProxyAccounting.WaitingShrinks | server/server.go:1013-1049 | each such step, unwinding of retries included, brings the rest closer to the lock |
| ProxyFlow.FlowExact | server/server.go:912-1049 | after any run a goroutine can take exactly the steps that follow its own last one: asked again after `NoLeader` only, dropped and begun anew after a connection error only, back from a call only after a finished deal or an error for good; `depth` counts its retries that have not returned |
| ProxyNetwork.StepKeepsInv | server/server.go:568-634 | awaited cleanings are under way at the right proxy, whoever is paused has a query that will resume it, and every proxy keeps its count and lock |
| QueryFlow.FlowExact | server/server.go:568-634 | after any run from rest a query can take exactly the steps that follow its own last one and that pauses and cleanings allow |
| ProxyNetwork.KnotStays | server/server.go:843-869 | queries that wait only for each other keep doing so through every step that is no failure |
| ProxyNetwork.ReleasableExact | server/server.go:979-1001 | a proxy's lock can be released without a failure exactly when it is not kept for queries that wait only for each other |
| ProxyNetwork.FinishableExact | server/server.go:568-634 | a query can be finished without a failure exactly when it is in no such knot |
| ProxyNetwork.HeldForever | server/server.go:979-1001 | otherwise the lock is held in every later state of every run without a failure |
| ProxyNetwork.BrokenConnectionReleases | server/server.go:991-996 | an error from the connection to the dash server releases it, whatever the query waits for, and ends the call; the query goes on |
| ProxyNetwork.HeardIsReply | server/server.go:568-634 | what the asking proxy hears is how its query ended, and its goroutine goes on accordingly |
| ProxyNetwork.KnottedIffListed | server/server.go:589-618 | with all proxies registered, a run from rest without failures ties a knot exactly when a migration on it has a user in its listing |
| ProxyNetwork.SweepTellsAll | server/server.go:606-618 | a migration that ends without a failure has sent every listed key to every registered proxy |
| ProxyNetwork.CrashExact | server/server.go:568-634 | a knot survives the death of a dash server exactly when none of its queries was there |
| ProxyNetwork.AskerBlocksItself | server/server.go:606-611 | a registered proxy whose query migrates a user and finds one listed is locked by its own query |
| ProxyNetwork.ProxiesBlockEachOther | server/server.go:568-611 | two proxies asking for one user lock each other, also one that gets no cleaning at all, and also when neither waits for a cleaning of its own |
| StalingCaches.LazyExpiryExact | server/server.go:53-92 | on any times, a lookup gives the last put since the last delete if it is younger than thirty seconds, except exactly when a late lookup came in between and the time is before the deadline again |
| StalingCaches.LazyExpiryIsUnobservable | server/server.go:53-92 | on times that never decrease there is no exception |
| StalingCaches.FreshForThirtySeconds | server/server.go:63-73 | a value is found for thirty seconds after its put, whatever was before, and not later |
| StalingCaches.StalingCache.PutAt | server/server.go:63-73 | the cache after a put |
| StalingCaches.StalingCache.GetAt | server/server.go:75-86 | the fresh value or none, a stale entry being deleted |
| StalingCaches.StalingCache.DelAt | server/server.go:88-92 | the cache after a delete |
| TokenCaches.CheckedIffLoggedIn | auth/auth.go:23-81 | a token passes exactly when the place is named, it is the last one stored for user and place, and no removal has hit them since |
| TokenCaches.PlaceJoined | auth/auth.go:23-41 | the extra arguments, written one behind the other, are the place |
| TokenCaches.TokenCache.CheckLoginState | auth/auth.go:23-41 | whether that very token is stored for the user at the joined place |
| TokenCaches.TokenCache.RemoveTokenCache | auth/auth.go:43-59 | one place, or the whole user when no place is named |
| TokenCaches.TokenCache.UpdateTokenCache | auth/auth.go:61-81 | the token is stored unless no place is named |
| SearchServers.SearchServer.HandleLogin | server/server.go:222-238 | a correct password stores its token and answers with it, a wrong one answers 403 and changes nothing |
| SearchServers.SearchServer.HandleLogout | server/server.go:240-252 | forgets the login of that address |
| SearchServers.SearchServer.HandleUpload | server/server.go:197-220 | 403 without touching the recorders unless logged in, 503 for an empty command |
| SearchServers.SearchServer.HandleSearch | server/server.go:178-195 | only an empty query for a named user is checked; the answer is the manager's |
| SearchServers.SearchServer.HandleUidLogout | server/server.go:134-146 | all logins of the user gone, its recorder flushed and out |
| Responses.LoginExact | server/server.go:222-238 | 200 exactly for the right password, and then uploads from that address pass under exactly the answered token; 403 changes nothing |
| Responses.LogoutExact | server/server.go:240-252 | exactly the logins from that address, or all of the user for an empty one, are over |
| Responses.UidLogoutExact | server/server.go:134-146 | exactly the logins of that user are over |
| Responses.UploadExact | server/server.go:197-220 | 200 exactly when the command is added as the newest of the user's history, 503 exactly when it is admitted and empty, 403 exactly when it is not admitted |
| Responses.SearchExact | server/server.go:178-195 | 403 exactly for an empty query of a named user who is not logged in from there, otherwise the answer from its history; nothing changes |
| Responses.TickerExact | recorder/recorder.go:205-217 | a ticker round of a live recorder stores exactly that user's history and changes nothing else |
| HandOver.UploadNeedsLogin | server/server.go:197-252 | after any run an upload reaches the recorders exactly under the last login from that address, not logged out since |
| HandOver.LogoutLetsGo | server/server.go:134-146 | a saved logout leaves the whole history in the store and neither recorder nor login behind |
| HandOver.FirstStep | server/server.go:134-252 | afterwards no request to the first server touches the user's history, and its uploads get 403 |
| HandOver.SecondStep | server/server.go:178-220 | the second server extends the history by exactly what it admits, and answers searches from it |
| HandOver.HandOverWithoutLoss | server/server.go:134-252 | through any calm run on both servers, with harmless late ticks, the second one has the first one's history, then its own accepted commands |
| HandOver.SameAnswers | server/server.go:178-195 | right after the hand-over the second server answers as the first would have |

## Left out

- gRPC, TLS, HTTP, the etcd and MySQL clients, logging and generated protobuf code: plumbing.
- `lib/etcd/etcd.go` `Lock` and `Elect`: their retry loops may run for ever, so they are steps of the protocols (`TryLose`, `Lose`, `KeepAlive`) and not loops of a method; `Register`, the controller and the watch code are not modelled.
- `doProxy`, `uidEndpoint`, `CleanUidCache` and the waiting in `UidEndpoint` are steps of protocols for the same reason; which endpoint is cached is not tracked there, the counter is unbounded where the source has 32 bits, and the sleeps have no length.
- Lock keys, the elected key and the endpoint keys are written by nobody but the modelled code.
- The hash ring is an arbitrary answer per query. A query's listing of users and its cleaning of proxy caches are outcomes of `World` in `UidEndpoint`; which users are listed is `ListedUser`, what queries and cleanings wait for is in `ProxyNetwork.dfy`. That queries of one user do not overlap is an assumption of `IndexesAgree`.
- In `ProxyNetwork.dfy` the registered proxies stay the same through a run, proxies do not die, and calls to etcd and to the search servers come back.
- `cleanUidCache` also pauses the listed key itself (`server/server.go:333-334`). Only a user whose id is that very key could be paused by it; such a user is not modelled.
- JSON is a lossless codec on valid UTF-8, the suffix array a lookup with its documented contract; bytes that are not valid UTF-8 are not represented.
- File-backed recorders: the manager never builds them.
- The mutexes of `lru`, `recorder` and `auth`: every method runs as a whole, as it does under its mutex; a ticker round is one step between calls.
- Several requests at once inside one search server: the hand-over is proved for handlers that run one at a time.
- Passwords, hashing and token generation: tokens are opaque.
- The terminal front end, `util/client`, `util.Retry`, `dash` and `db`: user interface and plumbing.
- Lru.Cache.Add: does not run the eviction functions inside the call, because functions that modify other objects are not passed around here; it returns their argument, and the manager applies `Stop` to it right after the call, which the store and the recorder cannot tell apart.
- EndpointIndex.DashStore.AtomicMultiKVOp: is the transaction only, because the `Lock` and `UnLock` around it may wait for ever; they are steps of `LockProtocol.dfy`, also after a failed `Lock`.
- EndpointIndex.DashServer.UidEndpoint: does not send the `UidLogout` to the old server, because its result is ignored and it touches no index; what it does there is in `HandOver.dfy`.
- LinkedLists.LinkedList.MoveBeforeFront: `MoveBefore` only with the front element as its mark, because the cache uses no other.
