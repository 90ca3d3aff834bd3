# groupcache: routing, and the get/remove protocol of a cluster

A Dafny model of a groupcache cluster, with proofs. It covers the routing table that every node keeps (a ring of
40 virtual nodes per peer beside a map from peer to client), the membership calls that change it, and the protocol
of gets and removes that runs over it: two caches, single flights, requests to the owner, and the fallback when a
request fails.

## Layout

| file | contents |
|---|---|
| `VNodes.dfy` | names of virtual nodes, printed and parsed back, down to the decimal digits |
| `HashRing.dfy` | the ring as a sorted sequence; the wrapping lookup is the smallest clockwise distance |
| `Routing.dfy` | routing tables as values; ring and map in step; the laws of ownership |
| `RoutingTable.dfy` | the routing table as an object updated in place by loops |
| `Membership.dfy` | membership calls that do not overlap, and whole histories of them |
| `Interleaving.dfy` | membership calls that do overlap: guard and write as separate events |
| `NodeState.dfy`, `Serving.dfy` | the state of one node; a whole get or remove as a function of it |
| `Groupcache.dfy` | one node as an object: membership, get and remove, proved against the functions above |
| `Cluster.dfy` | any number of nodes, tasks, flights and requests, as a machine that takes one atomic step at a time |
| `Alone.dfy` | the steps of the machine make up the calls of `Serving.dfy` |
| `Structure.dfy`, `Forwarding.dfy` | the invariant of the machine; forwarding does not loop, nothing deadlocks, all work ends |
| `Answers.dfy` | where values and errors come from |
| `Ownership.dfy`, `Loads.dfy` | who caches and who loads |
| `SecondLoad.dfy`, `TwoLoads.dfy` | exactly when a key is loaded although it is cached, and twice at once |
| `Staleness.dfy`, `StaleRuns.dfy`, `FormerViews.dfy`, `Removal.dfy` | when a removal takes effect, exactly, also after views have changed |
| `RemoveAnswers.dfy` | why a remove fails, and that nothing else makes it fail |
| `Metrics.dfy`, `Counting.dfy`, `Deeds.dfy` | conservation of the exported counters; what each of them counts |

Routing laws and cluster theorems are stated for any scheme of virtual nodes that is `Sound`: they can be told
apart, read back, and no two have the same hash. `RoutingTable.NamesAreSound` shows this of the printed names the
program uses, given a hasher without collisions on them, and `RoutingTable.CollisionsCanBeAvoided` that such hashers exist.

## What is assumed

- The ring (a dependency) keeps its entries sorted by a 64-bit hash, `add` keeps duplicates, `remove` takes out one
  entry with the hash it is given, lookups take the first entry at or after the hash of the key and wrap around.
  The hasher is the same on all nodes; names of virtual nodes and keys go through the same one; no two virtual
  nodes of IPv4 peers share a hash.
- A single flight (a dependency) runs at most one closure per key and node at a time, and whoever joins gets a copy of its
  result.
- The caches (a dependency) are maps that may lose any entry at any moment and start empty; an entry of the hot cache is
  not served once its time to live has passed.
- The client for a peer reaches the node whose own address is that peer. Encoding and decoding a value returns it.
- Steps happen one after another, and a step is what the program does between two points where another task can get in
  between. The clock, which the time to live refers to, passes as it likes between steps, or not at all.

Some fields are not in the program and only let the theorems speak of the past: which load a value came from and
when the loader was called for it, which task made a load, when an entry was made, when a task was called, what it deleted and
when, the request a task serves, the flight it joined, whether it hit a cache, sent a request or saw it fail, and two counts without a metric (joined flights, and gets whose lookup led
nowhere).

## Main results

- **No loops, no deadlock, and an end.** However much the tables of the nodes disagree, and whatever replaces them while
  requests are under way, a forwarded call visits no node twice; no cycle of waiting arises across nodes and
  flights; some task that an unfinished one waits for can go on; and the steps of all tasks are bounded in advance.
  All that is needed is that each node keeps its own virtual nodes on its ring
  (`Forwarding`). Every interleaving of membership calls that never remove the node itself provides it
  (`Interleaving.InterleavingsAreFair`).
- **Coherence.** Every cached or returned value came from a load of its key; with loaders that are functions of the
  key, all caches and answers agree with them. A get fails only because the loader of its own node failed, called by the get
  itself or by the flight it joined; for this only the table of that node has to be in step (`Answers`).
- **Counters.** Each exported counter is the number of the events it is named after: gets, served gets, hits, local loads and
  their errors, remote loads and their errors (`Counting`, `Deeds`).
- **Connections.** A lookup returns the connection that the table holds for the owner, which is the one that the call obtained
  that connected it, for as long as it stays connected (`Membership.LookupsUseConnection`).
- **Removal.** A remove fails only if the last request of its chain was lost, or a lookup there led nowhere
  (`RemoveAnswers`). A remove that returns Ok has deleted the key on every node of its chain, and the last of them, while the
  remove ran there, owned the key in its own view (`Removal`). From any state in which the nodes agree on the owner from then
  on, whatever their views were before: gets that start a time to live later return values loaded since if and only if the key
  is *gone*, that is, out of all main caches, carried by no flight, and served by no hot cache that a request can still reach.
  If it is not gone, some get returns an old value however late it starts (`FormerViews.GoneExactly`).
- **Loads.** A key that its owner has cached can be loaded there again, while it stays cached, if and only if some get is
  past its probe and has not called the loader (`SecondLoad.SecondLoadExactly`). In a cluster that agrees on the owner a key can be
  loaded twice at once, with no further failure, if and only if a request for it has failed (`TwoLoads.TwoLoadsExactly`), or,
  where views changed before, a former table sent a get to its own node (`TwoLoads.TwoLoadsAfterChange`).
- **Routing.** The wrapping lookup finds the member nearest to the key. The ring is a function of the current
  membership, whatever calls led to it; nodes with equal membership agree on every key; a change of membership
  moves only the keys it must (`Routing`, `Membership`).

## Where a natural claim fails

- *Ring and map always stay in step.* Not when membership calls overlap, because each looks before it connects and
  writes later: two overlapping additions and a removal leave a peer on the ring without a client
  (`OverlappingAddsStrandPeer`), and a node passed in as its own peer can lose its whole ring
  (`OverlappingRemovesEmptyRing`). `WriteKeepsSyncExactly` gives the condition for one write: no peer that it adds is
  connected by then, and it removes the node itself only while the node is connected to itself.
- *A key in the main cache is not loaded again.* The cache is probed before the flight is joined and not again inside it;
  `SecondLoadHappens` is a run from start-up that loads twice without any failure or removal, and `SecondLoadExactly` the condition.
- *One load in the whole cluster* (readme.md, line 32). A node whose request fails loads for itself, beside the owner:
  `LostRequestDoublesLoads` is such a run from start-up. So does a node that was already loading a key when its table was
  replaced: `MovedKeyDoublesLoads` is a run without any request. Nothing else leads there (`NoTwoUnlessAstray`); the conditions
  are those of `TwoLoadsExactly` and `TwoLoadsAfterChange`. `OneLoadPerNode` always holds.
- *After a remove, gets are fresh.* Not while a flight that has called the loader runs across it, and not on a former owner,
  whose main cache is served first and never cleared from elsewhere: in `FormerOwnerServes` a node caches a key, another node
  becomes the owner in the view of both and removes the key, and gets on the former owner return that value however late they
  start. `GoneExactly` is the
  condition; where views never changed, it comes down to that of `DroppedExactly`.
- readme.md, lines 45-47, has the hot cache looked up first. The code looks into the main cache first, and so does the model.

## Model

| member | source | states |
|---|---|---|
| VNodes.ParseSocketInvertsShow | groupcache/src/routing.rs:103-106 | parsing the printed address of any IPv4 peer gives that peer back |
| VNodes.OctetsAreCanonical | groupcache/src/routing.rs:103-104 | a string is read as an octet if and only if it is the decimal text of that number, without leading zeros |
| VNodes.PortsMayHaveLeadingZeros | groupcache/src/routing.rs:103-104 | a leading zero changes nothing in what is read as a port |
| VNodes.NameSplits | groupcache/src/routing.rs:87-91 | the first underscore of a name separates exactly the printed address from the printed index |
| VNodes.NamesAreDistinct | groupcache/src/routing.rs:87-91 | two names are equal exactly if peer and index are |
| VNodes.NameOfLocalhost | groupcache/src/routing.rs:87-91 | one name spelled out: address, port, underscore and index in decimal |
| VNodes.AsPeer | groupcache/src/routing.rs:103-106 | both unwraps succeed on every virtual node, and the result is a peer it was named after |
| VNodes.AsPeerInvertsNewVNode | groupcache/src/routing.rs:86-106 | the peer read back from a virtual node is the one it was made for |
| VNodes.VNodesForPeer | groupcache/src/routing.rs:93-101 | the loop yields the names of the peer with the indices from 0 on, in order |
| HashRing.DistanceIsModular | groupcache/src/routing.rs:48-54 | the clockwise distance is the difference of hashes modulo 2^64 |
| HashRing.GetIsClosest | groupcache/src/routing.rs:48-54 | on a sorted ring the wrapping lookup returns an entry at the smallest clockwise distance from the key, and fails exactly on the empty ring |
| HashRing.AddPutsOne | groupcache/src/routing.rs:60-64 | adding puts one more copy of a virtual node on the ring and changes no other |
| HashRing.AddKeepsSorted | groupcache/src/routing.rs:60-64 | adding keeps the ring sorted |
| HashRing.RemoveTakesOne | groupcache/src/routing.rs:68-72 | removing takes out exactly one copy, and nothing if there is none |
| HashRing.RemoveKeepsSorted | groupcache/src/routing.rs:68-72 | removing keeps the ring sorted |
| HashRing.SortedRingsAgree | groupcache/src/routing.rs:9-12 | a sorted ring is determined by how often each virtual node is on it |
| Routing.AddVNodesEffect | groupcache/src/routing.rs:60-64 | the loop over 40 virtual nodes adds one copy of each of them and touches those of no other peer |
| Routing.RemoveVNodesEffect | groupcache/src/routing.rs:68-72 | the loop takes away one copy of each where there is one, and touches those of no other peer |
| Routing.WithLocalPeerIsSynced | groupcache/src/routing.rs:20-35 | a new table has one copy of each of the node's own virtual nodes and nothing else |
| Routing.AddPeerKeepsSync | groupcache/src/routing.rs:60-66 | adding a peer keeps ring and map in step if and only if the peer was not connected |
| Routing.RemovePeerKeepsSync | groupcache/src/routing.rs:68-74 | removing a peer keeps ring and map in step if and only if it was connected or is not the node itself |
| Routing.SyncedRingIsCanonical | groupcache/src/routing.rs:60-74 | two tables in step with the same connected peers have the same ring |
| Routing.DistancesDiffer | groupcache/src/routing.rs:48-54 | no two peers are equally far from a key, so a key has one nearest peer |
| Routing.RouteIsClosest | groupcache/src/routing.rs:41-54 | the peer found has a virtual node on the ring and is no farther from the key than anything else on it |
| Routing.RouteDescends | groupcache/src/routing.rs:41-54 | on any table with the node on its own ring, a lookup returns the node itself or a peer strictly nearer to the key |
| Routing.LookupFindsOwner | groupcache/src/routing.rs:41-58 | on a table in step the lookup finds the nearest member, with the client that the map holds for it, and without one only if it is the node itself |
| Routing.OwnerIsUnique | groupcache/src/routing.rs:48-54 | a membership has one owner for a key |
| Routing.SameMembersSameOwner | groupcache/src/routing.rs:41-54 | nodes with equal membership route every key to the same peer |
| Routing.NestedViewsNeedOneHop | groupcache/src/routing.rs:41-54 | a node that a key is forwarded to owns it in its own view if that view is part of the sender's |
| Routing.AddMovesKeysOnlyToNewPeer | groupcache/src/routing.rs:60-66 | adding a peer changes the owner of a key to that peer or not at all |
| Routing.RemoveMovesOnlyOwnedKeys | groupcache/src/routing.rs:68-74 | removing a peer changes exactly the owners of the keys it owned |
| Routing.AddThenRemoveRestores | groupcache/src/routing.rs:60-74 | adding and removing again gives back the very same table |
| RoutingTable.CollisionsCanBeAvoided | groupcache/src/routing.rs:81-91 | a hasher without collisions on the names of virtual nodes exists |
| RoutingTable.NamesAreSound | groupcache/src/routing.rs:81-107 | without collisions, printed names meet all that the routing laws ask for |
| RoutingTable.KeyNamedAfterVNode | groupcache/src/routing.rs:48-54 | a key spelled like a virtual node on the ring belongs to the peer of that virtual node |
| RoutingTable.RoutingState.WithLocalPeer | groupcache/src/routing.rs:20-35 | the constructor's loop builds the table of a lone node, in step if hashes do not collide |
| RoutingTable.RoutingState.LookupPeer | groupcache/src/routing.rs:41-58 | whatever the table, the client that is returned is the one held for the peer, if any is; on a table in step the peer is the owner |
| RoutingTable.RoutingState.AddPeer | groupcache/src/routing.rs:60-66 | the new table is the old one with the peer added; it stays in step if and only if the peer was not connected |
| RoutingTable.RoutingState.RemovePeer | groupcache/src/routing.rs:68-74 | the new table is the old one with the peer removed; it stays in step if and only if the peer was connected or is not the node itself |
| Membership.SetAllEffect | groupcache/src/groupcache_inner.rs:241-295 | afterwards connected are the old peers that stay, on their old connections, and the new ones that answered, on their new ones; ring and map are in step |
| Membership.OpKeepsSync | groupcache/src/groupcache_inner.rs:224-376 | every membership call keeps ring and map in step, whatever connections do |
| Membership.SettledSetIsIdle | groupcache/src/groupcache_inner.rs:245-258 | asking for the membership that is already reached touches nothing |
| Membership.HistoryKeepsSync | groupcache/src/groupcache_inner.rs:224-376 | after any sequence of calls ring and map are in step |
| Membership.HistoryEqualsRebuild | groupcache/src/groupcache_inner.rs:224-376 | after any sequence of calls the ring equals one built from scratch from the current peers, connected in any order |
| Membership.HistoriesAgree | groupcache/src/groupcache_inner.rs:224-376 | two nodes whose histories end in the same membership route every key to the same peer |
| Membership.LookupsNeverFail | groupcache/src/groupcache_inner.rs:125-127 | after any sequence of calls lookups succeed and remote owners come with a client, so the errors marked unreachable are |
| Membership.OpConnections | groupcache/src/groupcache_inner.rs:224-295 | every call leaves peers on the connections they have and puts new ones on the connection it obtained for them |
| Membership.LookupsUseConnection | groupcache/src/routing.rs:41-66 | once a call has connected a peer, lookups of its keys return the connection of that call, through any later calls that keep the peer |
| Membership.HistoriesAreFair | groupcache/src/groupcache_inner.rs:224-376 | if the connections that calls obtain reach their peers, every table that arises is one that the cluster theorems allow |
| Membership.RingSize | groupcache/src/routing.rs:7-12 | a table in step has 40 virtual nodes for the node itself and 40 for each connected peer |
| Interleaving.WriteExact | groupcache/src/groupcache_inner.rs:269-295 | what one late write does to the copies of every virtual node and to the map |
| Interleaving.WriteConnections | groupcache/src/groupcache_inner.rs:278-288 | a late write puts each peer that connected on its new connection, even if it was connected meanwhile |
| Interleaving.WriteKeepsSyncExactly | groupcache/src/groupcache_inner.rs:225-236 | a late write keeps ring and map in step if and only if no peer it adds is connected by then, and it does not remove the node itself unless connected |
| Interleaving.WriteKeepsOnRingExactly | groupcache/src/routing.rs:68-74 | a late write takes a peer off the ring if and only if it removes the peer while there is a single copy of its virtual nodes |
| Interleaving.InterleavingsStayEven | groupcache/src/groupcache_inner.rs:224-266 | in every interleaving all 40 virtual nodes of a peer are on the ring equally often, and every connected peer is on it |
| Interleaving.NodeStaysOnItsRing | groupcache/src/groupcache_inner.rs:224-266 | in every interleaving from start-up the node stays on its ring as long as no call is going to remove it, even if it is added as its own peer |
| Interleaving.InterleavingsAreFair | groupcache/src/groupcache_inner.rs:224-266 | so every table that arises is one that the cluster theorems allow |
| Interleaving.OverlappingAddsStrandPeer | groupcache/src/groupcache_inner.rs:225-236 | two overlapping additions and a removal: a lookup returns the peer without a client |
| Interleaving.OverlappingRemovesEmptyRing | groupcache/src/groupcache_inner.rs:363-373 | a node added as its own peer and removed by two overlapping calls: every lookup fails |
| Serving.GetFailsExactly | groupcache/src/groupcache_inner.rs:78-150 | on a table in step a get fails if and only if nothing is cached and the load it needs, its own or that of the flight it joins, fails |
| Serving.GetIsRemembered | groupcache/src/groupcache_inner.rs:78-137 | what a get loaded or was sent is served from the cache by the next get, which is counted as a get and a hit and changes nothing else |
| Serving.GetTakesCourse | groupcache/src/groupcache_inner.rs:78-161 | every get is answered by a cache, nowhere, by the flight it joins, by its own load, by the owner or by the load that replaces a failed request; for each of these which counters move and which do not, what is returned, and what is cached |
| Serving.CourseIsUnique | groupcache/src/groupcache_inner.rs:78-137 | a get takes only one of these courses |
| Serving.FallbackIsForgotten | groupcache/src/groupcache_inner.rs:134-137 | a get whose request failed leaves both caches and the flights as they were |
| Serving.GetTouchesOneKey | groupcache/src/groupcache_inner.rs:78-137 | a get leaves the table, the flights and all other keys alone, and both caches if it hits |
| Serving.RemovedIsLoadedAnew | groupcache/src/groupcache_inner.rs:184-205 | after a remove on the owner the next get returns the outcome of a new load |
| Serving.RemoveSparesFormerOwner | groupcache/src/groupcache_inner.rs:195-201 | a remove on a node that does not own the key leaves its main cache alone, and the key is still served from it |
| Serving.CallsKeepPlacement | groupcache/src/groupcache_inner.rs:119-137 | the main cache holds only keys the node owns, the hot cache only keys it does not |
| Groupcache.GroupcacheInner.constructor | groupcache/src/groupcache_inner.rs:42-68 | a new node is alone on its ring, with empty caches, no flights and all counters zero |
| Groupcache.GroupcacheInner.GetDeduped | groupcache/src/groupcache_inner.rs:114-139 | a value loaded for an own key is in the main cache afterwards, a reply in the hot cache, and an error changes neither; other keys, flights and table are untouched, caches keep only what belongs there, and the counters account for one get |
| Groupcache.GroupcacheInner.GetDedupedInstrumented | groupcache/src/groupcache_inner.rs:99-112 | a get that finds a flight returns its result and changes no cache; otherwise it leaves no flight behind and its value is remembered; the counters account for one get |
| Groupcache.GroupcacheInner.GetInternal | groupcache/src/groupcache_inner.rs:78-97 | on a table in step a get fails if and only if loading fails; which counters move, hits among them, what is returned and what is cached, for each way in which it can be answered; other keys, flights and table are untouched, and caches keep only what belongs there |
| Groupcache.GroupcacheInner.RemoveInternal | groupcache/src/groupcache_inner.rs:184-205 | Ok if and only if the node owns the key or the request sent to the owner succeeded, and each error tells its reason; afterwards the key is out of the hot cache, and out of the main cache if the node owns it; nothing else changes |
| Groupcache.GroupcacheInner.ServeGet | groupcache/src/http.rs:13-27 | the request is counted once as served and once as get; on a table in step there is no reply if and only if loading fails; a cached key is answered; the node is left as by a get |
| Groupcache.GroupcacheInner.ServeRemove | groupcache/src/http.rs:29-39 | succeeds if and only if the node owns the key or the request it sends on succeeds; leaves the node as a remove does |
| Groupcache.GroupcacheInner.ConnectToNewPeers | groupcache/src/groupcache_inner.rs:298-330 | one result for each new peer, reporting how its attempt went, or an error if and only if some attempt could not be joined |
| Groupcache.GroupcacheInner.UpdateRoutingTable | groupcache/src/groupcache_inner.rs:269-295 | one write adds the peers that connected, then removes the listed ones; each failed connection is reported once, in the order of the results |
| Groupcache.GroupcacheInner.SetPeers | groupcache/src/groupcache_inner.rs:241-266 | for every target and every outcome of connecting: who is connected afterwards and on which connection, which error is returned when, that it names each refused peer once and no other, and that an attempt that cannot be joined changes nothing |
| Groupcache.GroupcacheInner.AddPeer | groupcache/src/groupcache_inner.rs:224-239 | a connected or refused peer leaves the whole table as it was, another is added on the connection just made; ring and map stay in step |
| Groupcache.GroupcacheInner.RemovePeer | groupcache/src/groupcache_inner.rs:362-376 | exactly the peer is disconnected, an unknown one changes nothing; ring and map stay in step |
| Groupcache.ReportsAreExact | groupcache/src/groupcache_inner.rs:278-288 | if each peer has one result, each refused one is reported once, and no other |
| Alone.GetAlone | groupcache/src/groupcache_inner.rs:78-137 | the steps of a get during which nothing else moves leave the node and the answer of `Serving.Get`, for gets that need no reply |
| Alone.JoinAlone | groupcache/src/groupcache_inner.rs:104-111 | the same for a get up to its joining a flight |
| Alone.RequestAlone | groupcache/src/groupcache_inner.rs:119-128 | the same for a get up to its request going out |
| Alone.ReplyAlone | groupcache/src/groupcache_inner.rs:129-133 | the same for such a get from the reply on |
| Alone.RemoveAlone | groupcache/src/groupcache_inner.rs:184-205 | the same for a remove without a reply |
| Alone.RemoveRequestAlone | groupcache/src/groupcache_inner.rs:184-202 | the same for a remove up to its request going out |
| Alone.RemoveReplyAlone | groupcache/src/groupcache_inner.rs:202-204 | the same for such a remove from the reply on, which ends with Ok if and only if the reply is no error |
| Structure.ActionKeepsInv | groupcache/src/groupcache_inner.rs:78-222 | every step keeps flights and running closures in one-to-one correspondence and every request aimed at a nearer peer |
| Structure.RunsKeepInv | groupcache/src/groupcache_inner.rs:78-222 | so does every run |
| Forwarding.ForwardingIsLoopFree | groupcache/src/groupcache_inner.rs:119-128 | a chain of forwarded gets or removes visits no node twice and has fewer hops than there are nodes, whatever the views |
| Forwarding.NoCircularWait | groupcache/src/groupcache_inner.rs:104-111 | no task waits for itself through any chain of requests and joined flights |
| Forwarding.SomeTaskCanGoOn | groupcache/src/groupcache_inner.rs:90-138 | whatever an unfinished task waits for, some task behind it, on the same node or one nearer to the key, can go on |
| Forwarding.ActionWork | groupcache/src/groupcache_inner.rs:78-222 | every step of a task lowers the work left in the cluster, including what it hands to other nodes |
| Forwarding.WorkIsBounded | groupcache/src/groupcache_inner.rs:78-222 | in every run the steps of all tasks are bounded by the calls made and the number of nodes |
| Forwarding.EveryTaskCanFinish | groupcache/src/groupcache_inner.rs:78-222 | from every reachable state steps of tasks alone finish all of them, whatever loaders return |
| Answers.RunsAreCoherent | groupcache/src/groupcache_inner.rs:78-182 | in every run each cached value, flight result, reply and answer came from a load of its key, and each error has its cause |
| Answers.ClusterAgreesWithLoader | readme.md:34 | if the loaders are a function of the key, all caches and all answers agree with it |
| Answers.StartUpIsCoherent | groupcache/src/groupcache_inner.rs:42-68 | clusters at start-up satisfy the invariants that the theorems start from |
| Answers.FailuresAreMasked | readme.md:49 | if the table of its own node is in step a get returns an error only because the loader of that node failed for the key, called by the get or the flight it joined, whatever requests fail and whatever the other tables are |
| Ownership.RunsStayPlaced | groupcache/src/groupcache_inner.rs:114-139 | while tables do not change, each node caches in the main cache only keys it owns and in the hot cache only others |
| Ownership.CachesAreDisjoint | groupcache/src/groupcache_inner.rs:114-139 | so no node holds a key in both caches |
| Ownership.SameMembershipMeansOneOwner | groupcache/src/routing.rs:41-54 | tables in step with equal membership have one owner for each key, the nearest member |
| Ownership.OneMainCachePerKey | groupcache/src/groupcache_inner.rs:119-123 | with agreed views a key is in no main cache but that of its owner |
| Ownership.AgreedViewsNeedOneHop | groupcache/src/groupcache_inner.rs:119-128 | with agreed views a request is served by the owner and not forwarded again |
| Ownership.OneLoadPerNode | groupcache/src/groupcache_inner.rs:99-112 | at any moment at most one load of a key runs on a node |
| Ownership.OneOwnLoadPerCluster | readme.md:32 | with agreed views at most one load of a key runs in the cluster besides those that follow a failed request |
| Loads.OneLoadPerCluster | readme.md:32 | with agreed views and no failures at most one load of a key runs in the cluster, and on its owner |
| TwoLoads.TwoLoadsExactly | readme.md:32 | with agreed views, two loads of a key can come to run at once with no further failure if and only if a get of the key has fallen back on its own loader, is about to, or waits for an answer that is an error |
| TwoLoads.LostRequestDoublesLoads | groupcache/src/groupcache_inner.rs:134-137 | a run from start-up with agreed views in which a request is lost and two loads of a key run at once |
| TwoLoads.NoTwoUnlessAstray | groupcache/src/groupcache_inner.rs:119-137 | whatever the views were before they agreed: with no further failure two loads of a key never run at once unless some get on another node than the owner has fallen back or was routed to its own node by a former table |
| TwoLoads.TwoLoadsAfterChange | groupcache/src/groupcache_inner.rs:119-137 | two loads can come to run at once if and only if there is such a get, as long as neither it nor the owner's flight waits for another node by a former table |
| TwoLoads.MovedKeyDoublesLoads | groupcache/src/groupcache_inner.rs:119-123 | a run from start-up, without any request, in which a key moves to a new owner while the old one loads it, and two loads can run at once |
| Loads.SecondLoadsProbedEarlier | groupcache/src/groupcache_inner.rs:78-123 | a flight for a key that its node has cached belongs to a get that missed the main cache before the key was put there |
| SecondLoad.SecondLoadHappens | groupcache/src/groupcache_inner.rs:80-110 | a run from start-up, of two gets and nothing else, in which a key is loaded a second time while it is cached |
| SecondLoad.SecondLoadExactly | groupcache/src/groupcache_inner.rs:78-123 | while a key stays in its owner's main cache, the loader can be called for it there once more if and only if some get on the node is past its probe of that cache and has neither joined a flight nor called the loader |
| Staleness.StalenessIsBounded | groupcache/tests/integration_test.rs:254-284 | from any state on, once views agree and the key is gone, a get that starts a time to live later, or on a node whose hot cache did not serve the key, returns a value for which the loader was called since |
| Staleness.PlacedAndDroppedMeansGone | groupcache/src/groupcache_inner.rs:119-137 | where tables have not changed, a key is gone once its owner's main cache lacks it and no flight has called the loader for it |
| Staleness.NoFlightNoValue | groupcache/src/groupcache_inner.rs:119-137 | no flight carries a value for a key for which no flight runs |
| FormerViews.GoneExactly | groupcache/src/groupcache_inner.rs:80-137 | whatever the views were before, no get that starts a time to live later returns an old value if and only if the key is gone; if it is not, then for every delay some get that starts so much later does |
| FormerViews.FormerOwnerServes | groupcache/src/groupcache_inner.rs:80-83 | a run in which a node caches a value, and a new owner then removes the key with Ok; for every delay a get called so much later on the former owner can return that value |
| StaleRuns.DroppedExactly | groupcache/src/groupcache_inner.rs:119-137 | where tables have not changed, no get that starts a time to live later returns an old value if and only if the owner has dropped the key and no flight carries a value for it; otherwise, for every delay, some get does |
| StaleRuns.CachedKeyIsServed | groupcache/src/groupcache_inner.rs:80-83 | for every delay, a get called so much later on a node with the key in its main cache can return the value that is there now |
| StaleRuns.CarriedValueIsServed | groupcache/src/groupcache_inner.rs:104-133 | for every delay, a get called so much later on the node of a flight that carries a value can join the flight and return its value |
| RemoveAnswers.RemovesFailForAReason | groupcache/src/groupcache_inner.rs:184-222 | in every run from start-up a remove that ends with an error is the first of a chain of failed removes at whose end a request was lost, or a lookup found no peer or no connection |
| RemoveAnswers.RemovesFailByLoss | groupcache/src/groupcache_inner.rs:184-222 | with tables in step the last request of that chain was lost |
| RemoveAnswers.RemovesSucceed | groupcache/src/http.rs:29-39 | with tables in step and no request lost, every remove that finishes, forwarded or not, returns Ok |
| Removal.RemovesReachOwners | groupcache/src/groupcache_inner.rs:184-222 | in every run from start-up a remove that returned Ok deleted the key during the call from the hot caches of a chain of different nodes and from the main cache of the last one, whose own table, while the remove ran there, sent the key to the node itself |
| Removal.RemovedMeansFresh | groupcache/tests/integration_test.rs:254-284 | from start-up: when a remove clears the owner while no flight for the key runs, the loader was called since for whatever a get returns that starts a time to live later, or at once on a node whose hot cache did not serve the key |
| Removal.OwnerIsFreshAtOnce | groupcache/src/groupcache_inner.rs:188-197 | the owner is such a node when a remove clears it |
| Metrics.RunsStayBalanced | groupcache/src/groupcache_inner.rs:79-160 | in every state the counters of a node and its gets still under way balance |
| Metrics.GetsAreConserved | groupcache/src/groupcache_inner.rs:79-160 | on a quiet node whose own table is in step: gets are hits, joins, local loads and remote loads, less remote load errors (what each of these counts is the subject of `Counting` and `Deeds`) |
| Metrics.ServedNeverExceedSent | groupcache/src/http.rs:14 | in every run the cluster serves no more remote gets than remote loads were counted |
| Counting.CountersAreExact | groupcache/src/groupcache_inner.rs:79-149 | in every run: gets begun, those of them begun for other nodes, calls of the loader and failed calls of the loader are each counted exactly once |
| Deeds.HitsAndRequestsAreExact | groupcache/src/groupcache_inner.rs:80-161 | in every run: hits are the gets that a cache answered, joins those that joined a flight, remote loads the requests sent by gets, and remote load errors those of them that were lost or answered with an error |

## Left out

- Transport, encryption, endpoints and actual connecting: only whether a connection or a request succeeds; a request arrives at most once.
- The insides of the ring, the caches, the single flight and the serializer: their contracts are listed under "What is assumed". Evictions are arbitrary, so capacities play no part.
- Caches that the application fills before it hands them over.
- The builder, the options other than the time to live, and the text of errors.
- Service discovery: only that its membership calls come one after another.
- IPv6 addresses.
- Cancelled futures, panics in loaders, and poisoned locks. A loader that never returns is a step that is never taken.
- Distinct virtual nodes with equal hashes.
- Groupcache.GroupcacheInner.GetInternal: runs without interruption; the loader's outcome, the reply and the result of a joined flight are given by its environment. What interleaved gets do is proved of `Cluster`, and `Alone` ties the two together.
- Groupcache.GroupcacheInner.RemoveInternal: runs without interruption, as `GetInternal` does; so do `ServeGet` and `ServeRemove`.
- TwoLoads.TwoLoadsAfterChange: says nothing of a get that is bound for its own node but behind a flight there, nor of an owner whose flight still waits for the node that a former table sent it to; then whether two loads can overlap depends on who waits for whom. `NoTwoUnlessAstray` covers these states too.
- Groupcache.GroupcacheInner.SetPeers: runs without interruption; overlapping calls are the subject of `Interleaving`. Its errors name the peers and not the reasons.
- Membership changes as steps of `Cluster`: there a table is replaced as a whole by any table that has the node on its own ring, which covers every write that the membership calls make.
