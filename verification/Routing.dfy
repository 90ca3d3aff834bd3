/**
 The routing table of one node as a value: a ring holding the virtual nodes of every peer next to a map
 from connected peer to client, and the laws of the owner that a lookup on it returns.

 The laws hold for any naming scheme of virtual nodes that is sound; `RoutingTable` supplies the scheme the
 program uses, printed socket addresses, and shows that it is sound.
 */
module Routing {
  import opened Wrappers
  import opened VNodes
  import opened HashRing

  /** How virtual nodes are made, read back and hashed; keys are hashed by the same hasher. */
  datatype Scheme<!T> = Scheme(vnode: (Peer, VNodeId) -> T, owner: T -> Peer, hash: T -> u64, keyHash: string -> u64)

  /** A connection; `target` is the peer that answers on it. */
  datatype Client = Client(target: Peer, conn: nat)

  datatype Table<T> = Table(ring: seq<T>, peers: map<Peer, Client>)

  datatype Route = EmptyRing | Found(peer: Peer, client: Option<Client>)

  /** Virtual nodes can be told apart and read back, and no two have the same hash. */
  ghost predicate Sound<T(!new)>(sch: Scheme<T>) {
    && NoCollisions(sch.hash)
    && (forall p: Peer, i: VNodeId :: sch.owner(sch.vnode(p, i)) == p)
    && (forall p: Peer, i: VNodeId, j: VNodeId | sch.vnode(p, i) == sch.vnode(p, j) :: i == j)
    && (forall v: T :: IsVNode(sch, v))
  }

  ghost predicate IsVNode<T>(sch: Scheme<T>, v: T) {
    exists i: VNodeId :: v == sch.vnode(sch.owner(v), i)
  }

  // ------------------------------------------------------- tables as values

  function AddVNodes<T>(sch: Scheme<T>, ring: seq<T>, p: Peer, num: nat): seq<T>
    requires num <= VNODES_PER_PEER
  {
    if num == 0 then ring else Add(sch.hash, AddVNodes(sch, ring, p, num - 1), sch.vnode(p, num - 1))
  }

  function RemoveVNodes<T>(sch: Scheme<T>, ring: seq<T>, p: Peer, num: nat): seq<T>
    requires num <= VNODES_PER_PEER
  {
    if num == 0 then ring else Remove(sch.hash, RemoveVNodes(sch, ring, p, num - 1), sch.vnode(p, num - 1))
  }

  function WithLocalPeer<T>(sch: Scheme<T>, me: Peer): Table<T> {
    Table(AddVNodes(sch, [], me, VNODES_PER_PEER), map[])
  }

  function AddPeer<T>(sch: Scheme<T>, t: Table<T>, p: Peer, client: Client): Table<T> {
    Table(AddVNodes(sch, t.ring, p, VNODES_PER_PEER), t.peers[p := client])
  }

  function RemovePeer<T>(sch: Scheme<T>, t: Table<T>, p: Peer): Table<T> {
    Table(RemoveVNodes(sch, t.ring, p, VNODES_PER_PEER), t.peers - {p})
  }

  function LookupPeer<T>(sch: Scheme<T>, t: Table<T>, key: string): Route {
    match Get(sch.hash, t.ring, sch.keyHash(key))
    case None => EmptyRing
    case Some(v) =>
      var p := sch.owner(v);
      Found(p, if p in t.peers then Some(t.peers[p]) else None)
  }

  predicate RoutesTo<T>(sch: Scheme<T>, t: Table<T>, key: string, p: Peer) {
    var r := LookupPeer(sch, t, key);
    r.Found? && r.peer == p
  }

  /** The client that comes with a peer is the one the table holds for it, if it holds any. */
  predicate HandsOut<T>(t: Table<T>, r: Route) {
    r.Found? ==>
      && (r.client.Some? <==> r.peer in t.peers)
      && (r.client.Some? ==> r.client.value == t.peers[r.peer])
  }

  lemma LookupHandsOut<T>(sch: Scheme<T>, t: Table<T>, key: string)
    ensures HandsOut(t, LookupPeer(sch, t, key))
  {
  }

  // ------------------------------------------------- copies of virtual nodes

  function OneIf(b: bool): nat {
    if b then 1 else 0
  }

  /** The number of copies of virtual node `i` of `p` on the ring. */
  ghost function Copies<T>(sch: Scheme<T>, ring: seq<T>, p: Peer, i: VNodeId): nat {
    multiset(ring)[sch.vnode(p, i)]
  }

  lemma VNodesAreDistinct<T(!new)>(sch: Scheme<T>, p: Peer, i: VNodeId, q: Peer, j: VNodeId)
    requires Sound(sch)
    ensures sch.vnode(p, i) == sch.vnode(q, j) <==> p == q && i == j
  {
    assert sch.owner(sch.vnode(p, i)) == p && sch.owner(sch.vnode(q, j)) == q;
  }

  /** The loop that adds the virtual nodes of `p` puts in one more copy of each, and touches no other. */
  lemma {:induction false} AddVNodesEffect<T(!new)>(sch: Scheme<T>, ring: seq<T>, p: Peer, num: nat, q: Peer,
                                                    i: VNodeId)
    requires Sound(sch) && num <= VNODES_PER_PEER
    ensures Copies(sch, AddVNodes(sch, ring, p, num), q, i) == Copies(sch, ring, q, i) + OneIf(q == p && i < num)
  {
    hide Add;
    if num > 0 {
      AddVNodesEffect(sch, ring, p, num - 1, q, i);
      AddPutsOne(sch.hash, AddVNodes(sch, ring, p, num - 1), sch.vnode(p, num - 1));
      VNodesAreDistinct(sch, p, num - 1, q, i);
    }
  }

  lemma {:induction false} AddVNodesKeepsSorted<T>(sch: Scheme<T>, ring: seq<T>, p: Peer, num: nat)
    requires num <= VNODES_PER_PEER && Sorted(sch.hash, ring)
    ensures Sorted(sch.hash, AddVNodes(sch, ring, p, num))
  {
    if num > 0 {
      AddVNodesKeepsSorted(sch, ring, p, num - 1);
      AddKeepsSorted(sch.hash, AddVNodes(sch, ring, p, num - 1), sch.vnode(p, num - 1));
    }
  }

  lemma {:induction false} RemoveVNodesKeepsSorted<T>(sch: Scheme<T>, ring: seq<T>, p: Peer, num: nat)
    requires num <= VNODES_PER_PEER && Sorted(sch.hash, ring)
    ensures Sorted(sch.hash, RemoveVNodes(sch, ring, p, num))
  {
    if num > 0 {
      RemoveVNodesKeepsSorted(sch, ring, p, num - 1);
      RemoveKeepsSorted(sch.hash, RemoveVNodes(sch, ring, p, num - 1), sch.vnode(p, num - 1));
    }
  }

  /** The loop that removes the virtual nodes of `p` takes out one copy of each if there is one. */
  lemma {:induction false} RemoveVNodesEffect<T(!new)>(sch: Scheme<T>, ring: seq<T>, p: Peer, num: nat, q: Peer,
                                                       i: VNodeId)
    requires Sound(sch) && num <= VNODES_PER_PEER && Sorted(sch.hash, ring)
    ensures Copies(sch, RemoveVNodes(sch, ring, p, num), q, i)
         == Copies(sch, ring, q, i) - OneIf(q == p && i < num && Copies(sch, ring, q, i) > 0)
  {
    hide Remove, Sorted;
    if num > 0 {
      RemoveVNodesEffect(sch, ring, p, num - 1, q, i);
      RemoveVNodesKeepsSorted(sch, ring, p, num - 1);
      RemoveTakesOne(sch.hash, RemoveVNodes(sch, ring, p, num - 1), sch.vnode(p, num - 1));
      VNodesAreDistinct(sch, p, num - 1, q, i);
    }
  }

  /** Two sorted rings with the same copies of every virtual node are the same sequence. */
  lemma RingsAgree<T(!new)>(sch: Scheme<T>, a: seq<T>, b: seq<T>)
    requires Sound(sch) && Sorted(sch.hash, a) && Sorted(sch.hash, b)
    requires forall p: Peer, i: VNodeId :: Copies(sch, a, p, i) == Copies(sch, b, p, i)
    ensures a == b
  {
    forall v: T ensures multiset(a)[v] == multiset(b)[v] {
      assert IsVNode(sch, v);
      var i: VNodeId :| v == sch.vnode(sch.owner(v), i);
      assert Copies(sch, a, sch.owner(v), i) == Copies(sch, b, sch.owner(v), i);
    }
    SortedRingsAgree(sch.hash, a, b);
  }

  // ---------------------------------------------------------- the table invariant

  /** One copy of each virtual node of a connected peer, and one more of each of the node's own. */
  ghost predicate Synced<T>(sch: Scheme<T>, me: Peer, t: Table<T>) {
    && Sorted(sch.hash, t.ring)
    && forall p: Peer, i: VNodeId ::
        Copies(sch, t.ring, p, i) == OneIf(p in t.peers) + OneIf(p == me)
  }

  lemma WithLocalPeerIsSynced<T(!new)>(sch: Scheme<T>, me: Peer)
    requires Sound(sch)
    ensures Synced(sch, me, WithLocalPeer(sch, me))
  {
    var none: seq<T> := [];
    AddVNodesKeepsSorted(sch, none, me, VNODES_PER_PEER);
    forall p: Peer, i: VNodeId
      ensures Copies(sch, AddVNodes(sch, none, me, VNODES_PER_PEER), p, i) == OneIf(p == me)
    {
      AddVNodesEffect(sch, none, me, VNODES_PER_PEER, p, i);
    }
  }

  /** Adding a peer keeps ring and map in step exactly when the peer was not connected yet. */
  lemma AddPeerKeepsSync<T(!new)>(sch: Scheme<T>, me: Peer, t: Table<T>, p: Peer, client: Client)
    requires Sound(sch) && Synced(sch, me, t)
    ensures Synced(sch, me, AddPeer(sch, t, p, client)) <==> p !in t.peers
  {
    var t' := AddPeer(sch, t, p, client);
    AddVNodesKeepsSorted(sch, t.ring, p, VNODES_PER_PEER);
    forall q: Peer, i: VNodeId
      ensures Copies(sch, t'.ring, q, i) == OneIf(q in t.peers) + OneIf(q == me) + OneIf(q == p)
    {
      AddVNodesEffect(sch, t.ring, p, VNODES_PER_PEER, q, i);
    }
    assert Copies(sch, t'.ring, p, 0) == OneIf(p in t.peers) + OneIf(p == me) + 1;
  }

  /** Removing a peer keeps ring and map in step exactly when it was connected or is not the node itself. */
  lemma RemovePeerKeepsSync<T(!new)>(sch: Scheme<T>, me: Peer, t: Table<T>, p: Peer)
    requires Sound(sch) && Synced(sch, me, t)
    ensures Synced(sch, me, RemovePeer(sch, t, p)) <==> p in t.peers || p != me
  {
    var t' := RemovePeer(sch, t, p);
    RemoveVNodesKeepsSorted(sch, t.ring, p, VNODES_PER_PEER);
    forall q: Peer, i: VNodeId
      ensures Copies(sch, t'.ring, q, i)
           == OneIf(q in t.peers) + OneIf(q == me) - OneIf(q == p && (q in t.peers || q == me))
    {
      RemoveVNodesEffect(sch, t.ring, p, VNODES_PER_PEER, q, i);
    }
    assert Copies(sch, t'.ring, p, 0) == OneIf(p in t.peers) + OneIf(p == me) - OneIf(p in t.peers || p == me);
  }

  /** Ring and map in step leave no freedom: the ring is a function of who is connected. */
  lemma SyncedRingIsCanonical<T(!new)>(sch: Scheme<T>, me: Peer, t: Table<T>, u: Table<T>)
    requires Sound(sch) && Synced(sch, me, t) && Synced(sch, me, u)
    requires t.peers.Keys == u.peers.Keys
    ensures t.ring == u.ring
  {
    forall p: Peer, i: VNodeId ensures Copies(sch, t.ring, p, i) == Copies(sch, u.ring, p, i) {
      assert p in t.peers <==> p in u.peers;
    }
    RingsAgree(sch, t.ring, u.ring);
  }

  // -------------------------------------------------------- distance to a peer

  /** The smallest clockwise distance from the key to one of the first `num` virtual nodes of `p`. */
  ghost function MinDistance<T>(sch: Scheme<T>, p: Peer, key: string, num: nat): nat
    requires 0 < num <= VNODES_PER_PEER
  {
    var d := Distance(sch.keyHash(key), sch.hash(sch.vnode(p, num - 1)));
    if num == 1 then d
    else
      var m := MinDistance(sch, p, key, num - 1);
      if d < m then d else m
  }

  ghost function PeerDistance<T>(sch: Scheme<T>, p: Peer, key: string): nat {
    MinDistance(sch, p, key, VNODES_PER_PEER)
  }

  /** `p` lies closer to the key, clockwise, than `q`. */
  ghost predicate Nearer<T>(sch: Scheme<T>, key: string, p: Peer, q: Peer) {
    PeerDistance(sch, p, key) < PeerDistance(sch, q, key)
  }

  lemma {:induction false} MinDistanceIsMin<T>(sch: Scheme<T>, p: Peer, key: string, num: nat)
    requires 0 < num <= VNODES_PER_PEER
    ensures exists i: VNodeId ::
          i < num && MinDistance(sch, p, key, num) == Distance(sch.keyHash(key), sch.hash(sch.vnode(p, i)))
    ensures forall i: VNodeId | i < num ::
          MinDistance(sch, p, key, num) <= Distance(sch.keyHash(key), sch.hash(sch.vnode(p, i)))
  {
    var d := Distance(sch.keyHash(key), sch.hash(sch.vnode(p, num - 1)));
    assert num == 1 || d < MinDistance(sch, p, key, num - 1) ==> MinDistance(sch, p, key, num) == d;
    if num > 1 {
      MinDistanceIsMin(sch, p, key, num - 1);
    }
  }

  lemma MinDistanceWitness<T>(sch: Scheme<T>, p: Peer, key: string) returns (i: VNodeId)
    ensures PeerDistance(sch, p, key) == Distance(sch.keyHash(key), sch.hash(sch.vnode(p, i)))
  {
    hide MinDistance;
    MinDistanceIsMin(sch, p, key, VNODES_PER_PEER);
    i :| PeerDistance(sch, p, key) == Distance(sch.keyHash(key), sch.hash(sch.vnode(p, i)));
  }

  lemma PeerDistanceBound<T>(sch: Scheme<T>, p: Peer, key: string, i: VNodeId)
    ensures PeerDistance(sch, p, key) <= Distance(sch.keyHash(key), sch.hash(sch.vnode(p, i)))
  {
    hide MinDistance;
    MinDistanceIsMin(sch, p, key, VNODES_PER_PEER);
  }

  /** No two peers are equally far from a key, so `Nearer` orders the peers linearly. */
  lemma DistancesDiffer<T(!new)>(sch: Scheme<T>, key: string, p: Peer, q: Peer)
    requires Sound(sch) && p != q
    ensures PeerDistance(sch, p, key) != PeerDistance(sch, q, key)
  {
    hide PeerDistance;
    var i := MinDistanceWitness(sch, p, key);
    var j := MinDistanceWitness(sch, q, key);
    VNodesAreDistinct(sch, p, i, q, j);
    if PeerDistance(sch, p, key) == PeerDistance(sch, q, key) {
      DistanceIsInjective(sch.keyHash(key), sch.hash(sch.vnode(p, i)), sch.hash(sch.vnode(q, j)));
    }
  }

  // -------------------------------------------------------- the owner of a key

  /** All that forwarding needs: a node has its own virtual nodes on its ring and its connections reach their peers. */
  ghost predicate OnOwnRing<T>(sch: Scheme<T>, me: Peer, t: Table<T>) {
    && Sorted(sch.hash, t.ring)
    && (forall i: VNodeId :: sch.vnode(me, i) in t.ring)
    && (forall p | p in t.peers :: t.peers[p].target == p)
  }

  /** The peer a lookup returns has a virtual node on the ring and is at most as far as any other on it. */
  lemma RouteIsClosest<T(!new)>(sch: Scheme<T>, t: Table<T>, key: string, q: Peer, j: VNodeId) returns (i: VNodeId)
    requires Sound(sch) && Sorted(sch.hash, t.ring)
    requires sch.vnode(q, j) in t.ring
    ensures LookupPeer(sch, t, key).Found?
    ensures var p := LookupPeer(sch, t, key).peer;
            && sch.vnode(p, i) in t.ring
            && PeerDistance(sch, p, key) <= Distance(sch.keyHash(key), sch.hash(sch.vnode(q, j)))
  {
    hide PeerDistance;
    GetIsClosest(sch.hash, t.ring, sch.keyHash(key));
    var v := Get(sch.hash, t.ring, sch.keyHash(key)).value;
    assert IsVNode(sch, v);
    i :| v == sch.vnode(sch.owner(v), i);
    PeerDistanceBound(sch, sch.owner(v), key, i);
  }

  /** Whoever else is on the ring of a node, a lookup returns the node itself or a peer strictly nearer to the key. */
  lemma RouteDescends<T(!new)>(sch: Scheme<T>, me: Peer, t: Table<T>, key: string)
    requires Sound(sch) && OnOwnRing(sch, me, t)
    ensures LookupPeer(sch, t, key).Found?
    ensures LookupPeer(sch, t, key).peer != me ==> Nearer(sch, key, LookupPeer(sch, t, key).peer, me)
    ensures LookupPeer(sch, t, key).client.Some? ==>
          LookupPeer(sch, t, key).client.value.target == LookupPeer(sch, t, key).peer
  {
    hide PeerDistance;
    var j := MinDistanceWitness(sch, me, key);
    var i := RouteIsClosest(sch, t, key, me, j);
    if LookupPeer(sch, t, key).peer != me {
      DistancesDiffer(sch, key, LookupPeer(sch, t, key).peer, me);
    }
  }

  ghost function Members<T>(me: Peer, t: Table<T>): set<Peer> {
    {me} + t.peers.Keys
  }

  /** The reference definition of ownership: the member nearest to the key. */
  ghost predicate IsOwner<T>(sch: Scheme<T>, members: set<Peer>, key: string, p: Peer) {
    p in members && forall q | q in members && q != p :: Nearer(sch, key, p, q)
  }

  lemma OnRingIffMember<T(!new)>(sch: Scheme<T>, me: Peer, t: Table<T>, p: Peer, i: VNodeId)
    requires Synced(sch, me, t)
    ensures sch.vnode(p, i) in t.ring <==> p in Members(me, t)
  {
    assert Copies(sch, t.ring, p, i) == OneIf(p in t.peers) + OneIf(p == me);
    assert sch.vnode(p, i) in t.ring <==> sch.vnode(p, i) in multiset(t.ring);
  }

  /**
   On a synced table the wrapping lookup finds the nearest member, together with its client unless that is the node
   itself.
   */
  lemma LookupFindsOwner<T(!new)>(sch: Scheme<T>, me: Peer, t: Table<T>, key: string)
    requires Sound(sch) && Synced(sch, me, t)
    ensures LookupPeer(sch, t, key).Found?
    ensures IsOwner(sch, Members(me, t), key, LookupPeer(sch, t, key).peer)
    ensures LookupPeer(sch, t, key).client.None? ==> LookupPeer(sch, t, key).peer == me
    ensures HandsOut(t, LookupPeer(sch, t, key))
  {
    hide PeerDistance;
    OnRingIffMember(sch, me, t, me, 0);
    var i := RouteIsClosest(sch, t, key, me, 0);
    var p := LookupPeer(sch, t, key).peer;
    OnRingIffMember(sch, me, t, p, i);
    forall q | q in Members(me, t) && q != p ensures Nearer(sch, key, p, q) {
      var j := MinDistanceWitness(sch, q, key);
      OnRingIffMember(sch, me, t, q, j);
      var _ := RouteIsClosest(sch, t, key, q, j);
      DistancesDiffer(sch, key, p, q);
    }
  }

  lemma OwnerIsUnique<T>(sch: Scheme<T>, members: set<Peer>, key: string, p: Peer, q: Peer)
    requires IsOwner(sch, members, key, p) && IsOwner(sch, members, key, q)
    ensures p == q
  {
    hide PeerDistance;
  }

  /** Nodes with the same membership send every key to the same peer, however they came by that membership. */
  lemma SameMembersSameOwner<T(!new)>(sch: Scheme<T>, a: Peer, ta: Table<T>, b: Peer, tb: Table<T>, key: string)
    requires Sound(sch) && Synced(sch, a, ta) && Synced(sch, b, tb)
    requires Members(a, ta) == Members(b, tb)
    ensures LookupPeer(sch, ta, key).Found?
    ensures RoutesTo(sch, tb, key, LookupPeer(sch, ta, key).peer)
  {
    hide PeerDistance;
    LookupFindsOwner(sch, a, ta, key);
    LookupFindsOwner(sch, b, tb, key);
    OwnerIsUnique(sch, Members(a, ta), key, LookupPeer(sch, ta, key).peer, LookupPeer(sch, tb, key).peer);
  }

  /** A peer with a narrower view to which a key is forwarded owns that key in its own view: one hop suffices. */
  lemma NestedViewsNeedOneHop<T(!new)>(sch: Scheme<T>, a: Peer, ta: Table<T>, b: Peer, tb: Table<T>, key: string)
    requires Sound(sch) && Synced(sch, a, ta) && Synced(sch, b, tb)
    requires Members(b, tb) <= Members(a, ta)
    requires RoutesTo(sch, ta, key, b)
    ensures RoutesTo(sch, tb, key, b)
  {
    hide PeerDistance;
    LookupFindsOwner(sch, a, ta, key);
    LookupFindsOwner(sch, b, tb, key);
    OwnerIsUnique(sch, Members(b, tb), key, b, LookupPeer(sch, tb, key).peer);
  }

  // -------------------------------------------------------- minimal disruption

  /** Connecting to a peer moves keys only to that peer. */
  lemma AddMovesKeysOnlyToNewPeer<T(!new)>(sch: Scheme<T>, me: Peer, t: Table<T>, p: Peer, client: Client, key: string)
    requires Sound(sch) && Synced(sch, me, t) && p !in t.peers
    ensures LookupPeer(sch, t, key).Found?
    ensures var t' := AddPeer(sch, t, p, client);
            RoutesTo(sch, t', key, LookupPeer(sch, t, key).peer) || RoutesTo(sch, t', key, p)
  {
    hide PeerDistance;
    var t' := AddPeer(sch, t, p, client);
    AddPeerKeepsSync(sch, me, t, p, client);
    LookupFindsOwner(sch, me, t, key);
    LookupFindsOwner(sch, me, t', key);
    var after := LookupPeer(sch, t', key).peer;
    if after != p {
      OwnerIsUnique(sch, Members(me, t), key, LookupPeer(sch, t, key).peer, after);
    }
  }

  /** Disconnecting from another peer moves exactly the keys that peer owned. */
  lemma RemoveMovesOnlyOwnedKeys<T(!new)>(sch: Scheme<T>, me: Peer, t: Table<T>, p: Peer, key: string)
    requires Sound(sch) && Synced(sch, me, t) && p in t.peers
    ensures LookupPeer(sch, t, key).Found?
    ensures RoutesTo(sch, RemovePeer(sch, t, p), key, LookupPeer(sch, t, key).peer) <==>
          LookupPeer(sch, t, key).peer != p || p == me
  {
    hide PeerDistance;
    var t' := RemovePeer(sch, t, p);
    RemovePeerKeepsSync(sch, me, t, p);
    LookupFindsOwner(sch, me, t, key);
    LookupFindsOwner(sch, me, t', key);
    var before := LookupPeer(sch, t, key).peer;
    if before in Members(me, t') {
      OwnerIsUnique(sch, Members(me, t'), key, before, LookupPeer(sch, t', key).peer);
    }
  }

  /** Connecting and disconnecting again restores the table, and with it the route of every key. */
  lemma AddThenRemoveRestores<T(!new)>(sch: Scheme<T>, me: Peer, t: Table<T>, p: Peer, client: Client)
    requires Sound(sch) && Synced(sch, me, t) && p !in t.peers
    ensures RemovePeer(sch, AddPeer(sch, t, p, client), p) == t
  {
    var added := AddPeer(sch, t, p, client);
    AddPeerKeepsSync(sch, me, t, p, client);
    RemovePeerKeepsSync(sch, me, added, p);
    assert RemovePeer(sch, added, p).peers == t.peers;
    SyncedRingIsCanonical(sch, me, RemovePeer(sch, added, p), t);
  }

  lemma SyncedIsOnOwnRing<T(!new)>(sch: Scheme<T>, me: Peer, t: Table<T>)
    requires Synced(sch, me, t) && forall p | p in t.peers :: t.peers[p].target == p
    ensures OnOwnRing(sch, me, t)
  {
    forall i: VNodeId ensures sch.vnode(me, i) in t.ring {
      OnRingIffMember(sch, me, t, me, i);
    }
  }
}
