/**
 The routing table as the program keeps it: one object whose ring and map are updated in place, with one
 loop over the virtual nodes of a peer per update. Every method is proved against the functions of `Routing`,
 instantiated with virtual nodes that are printed socket addresses.
 */
module RoutingTable {
  import opened VNodes
  import opened HashRing
  import opened Routing

  /** Virtual nodes as printed socket addresses; names and keys go through the same hasher. */
  function Names(hash: string -> u64): Scheme<VNode> {
    Scheme((p: Peer, i: VNodeId) => NewVNode(p, i), (v: VNode) => AsPeer(v), (v: VNode) => hash(v), hash)
  }

  /** No two virtual nodes of IPv4 peers share a hash. */
  ghost predicate Collisionless(hash: string -> u64) {
    forall u: VNode, v: VNode | hash(u) == hash(v) :: u == v
  }

  /** Every IPv4 virtual node has a number of its own, and all numbers fit in 64 bits. */
  function Number(p: Peer, id: VNodeId): u64 {
    ((((p.a * 256 + p.b) * 256 + p.c) * 256 + p.d) * 65536 + p.port) * 40 + id
  }

  lemma NumbersDiffer(p: Peer, i: VNodeId, q: Peer, j: VNodeId)
    requires Number(p, i) == Number(q, j)
    ensures p == q && i == j
  {
    var p2, q2 := p.a * 256 + p.b, q.a * 256 + q.b;
    var p3, q3 := p2 * 256 + p.c, q2 * 256 + q.c;
    var p4, q4 := p3 * 256 + p.d, q3 * 256 + q.d;
    assert p4 * 65536 + p.port == q4 * 65536 + q.port && i == j;
    assert p4 == q4 && p3 == q3 && p2 == q2;
  }

  /** Numbers a virtual node from its printed name. */
  function NumberOfName(s: string): u64 {
    match (ParseSocket(Before(s, '_')), After(s, '_'))
    case (Some(p), Some(index)) =>
      (match ParseNat(index)
       case Some(id) => if id < VNODES_PER_PEER then Number(p, id) else 0
       case None => 0)
    case _ => 0
  }

  /** Hashers without collisions on virtual nodes exist, so the laws below speak of something. */
  lemma CollisionsCanBeAvoided()
    ensures Collisionless(NumberOfName)
  {
    forall u: VNode, v: VNode | NumberOfName(u) == NumberOfName(v) ensures u == v {
      var p: Peer, i: VNodeId :| u == VNodeName(p, i);
      var q: Peer, j: VNodeId :| v == VNodeName(q, j);
      NameHasItsNumber(p, i);
      NameHasItsNumber(q, j);
      NumbersDiffer(p, i, q, j);
    }
  }

  lemma NameHasItsNumber(p: Peer, i: VNodeId)
    ensures NumberOfName(VNodeName(p, i)) == Number(p, i)
  {
    NameSplits(p, i);
    ParseSocketInvertsShow(p);
    ParseNatInvertsDecimal(i);
  }

  /** The printed names satisfy all that the routing laws ask for, given a hasher without collisions on them. */
  lemma NamesAreSound(hash: string -> u64)
    requires Collisionless(hash)
    ensures Sound(Names(hash))
  {
    var sch := Names(hash);
    forall u: VNode, v: VNode | sch.hash(u) == sch.hash(v) ensures u == v {
      assert hash(u) == hash(v);
    }
    forall p: Peer, i: VNodeId ensures sch.owner(sch.vnode(p, i)) == p {
      AsPeerInvertsNewVNode(p, i);
    }
    forall p: Peer, i: VNodeId, j: VNodeId | sch.vnode(p, i) == sch.vnode(p, j) ensures i == j {
      NamesAreDistinct(p, i, p, j);
    }
    forall v: VNode ensures IsVNode(sch, v) {
      VNodeIsNamed(sch, v);
    }
  }

  lemma VNodeIsNamed(sch: Scheme<VNode>, v: VNode)
    requires sch == Names(sch.keyHash)
    ensures IsVNode(sch, v)
  {
    var p := AsPeer(v);
    var i: VNodeId :| v == VNodeName(p, i);
    assert v == sch.vnode(sch.owner(v), i);
  }

  /** A key spelled like a virtual node on the ring belongs to the peer of that virtual node. */
  lemma KeyNamedAfterVNode(hash: string -> u64, t: Table<VNode>, p: Peer, i: VNodeId)
    requires Collisionless(hash) && Sorted(Names(hash).hash, t.ring) && NewVNode(p, i) in t.ring
    ensures RoutesTo(Names(hash), t, VNodeName(p, i), p)
  {
    hide VNodeName;
    var sch, key := Names(hash), VNodeName(p, i);
    GetIsClosest(sch.hash, t.ring, hash(key));
    var v := Get(sch.hash, t.ring, hash(key)).value;
    assert Distance(hash(key), sch.hash(v)) <= Distance(hash(key), sch.hash(NewVNode(p, i))) == 0;
    DistanceIsInjective(hash(key), hash(v), hash(key));
    AsPeerInvertsNewVNode(p, i);
  }

  lemma LookupIsRight(hash: string -> u64, t: Table<VNode>, key: string)
    ensures HandsOut(t, Routing.LookupPeer(Names(hash), t, key))
    ensures var r := Routing.LookupPeer(Names(hash), t, key);
            forall me | Collisionless(hash) && Synced(Names(hash), me, t) ::
              r.Found? && IsOwner(Names(hash), Members(me, t), key, r.peer) && (r.client.None? ==> r.peer == me)
  {
    hide Names, Synced, IsOwner, Collisionless;
    LookupHandsOut(Names(hash), t, key);
    forall me | Collisionless(hash) && Synced(Names(hash), me, t)
      ensures var r := Routing.LookupPeer(Names(hash), t, key);
              r.Found? && IsOwner(Names(hash), Members(me, t), key, r.peer) && (r.client.None? ==> r.peer == me)
    {
      NamesAreSound(hash);
      LookupFindsOwner(Names(hash), me, t, key);
    }
  }

  class RoutingState {
    const hash: string -> u64
    var ring: seq<VNode>
    var peers: map<Peer, Client>

    function Value(): Table<VNode>
      reads this
    {
      Table(ring, peers)
    }

    constructor WithLocalPeer(hash: string -> u64, peer: Peer)
      ensures this.hash == hash
      ensures Value() == Routing.WithLocalPeer(Names(hash), peer)
      ensures Collisionless(hash) ==> Synced(Names(hash), peer, Value())
    {
      hide VNodeName, HashRing.Add, HashRing.Remove;
      var vnodes := VNodesForPeer(peer, VNODES_PER_PEER);
      var filled: seq<VNode> := [];
      for i := 0 to |vnodes|
        invariant filled == AddVNodes(Names(hash), [], peer, i)
      {
        filled := HashRing.Add(Names(hash).hash, filled, vnodes[i]);
      }
      this.hash := hash;
      this.ring := filled;
      this.peers := map[];
      if Collisionless(hash) {
        NamesAreSound(hash);
        WithLocalPeerIsSynced(Names(hash), peer);
      }
    }

    function Peers(): set<Peer>
      reads this
    {
      peers.Keys
    }

    predicate ContainsPeer(peer: Peer)
      reads this
    {
      peer in peers
    }

    function LookupPeer(key: string): (r: Route)
      reads this
      ensures HandsOut(Value(), r)
      ensures forall me | Collisionless(hash) && Synced(Names(hash), me, Value()) ::
                r.Found? && IsOwner(Names(hash), Members(me, Value()), key, r.peer) && (r.client.None? ==> r.peer == me)
    {
      LookupIsRight(hash, Value(), key);
      Routing.LookupPeer(Names(hash), Value(), key)
    }

    method AddPeer(peer: Peer, client: Client)
      modifies this
      ensures Value() == Routing.AddPeer(Names(hash), old(Value()), peer, client)
      ensures forall me | Collisionless(hash) && Synced(Names(hash), me, old(Value())) ::
                Synced(Names(hash), me, Value()) <==> peer !in old(peers)
    {
      hide VNodeName, HashRing.Add, HashRing.Remove;
      var vnodes := VNodesForPeer(peer, VNODES_PER_PEER);
      for i := 0 to |vnodes|
        invariant ring == AddVNodes(Names(hash), old(ring), peer, i) && peers == old(peers)
      {
        ring := HashRing.Add(Names(hash).hash, ring, vnodes[i]);
      }
      peers := peers[peer := client];
      forall me | Collisionless(hash) && Synced(Names(hash), me, old(Value()))
        ensures Synced(Names(hash), me, Value()) <==> peer !in old(peers)
      {
        NamesAreSound(hash);
        AddPeerKeepsSync(Names(hash), me, old(Value()), peer, client);
      }
    }

    method RemovePeer(peer: Peer)
      modifies this
      ensures Value() == Routing.RemovePeer(Names(hash), old(Value()), peer)
      ensures forall me | Collisionless(hash) && Synced(Names(hash), me, old(Value())) ::
                Synced(Names(hash), me, Value()) <==> peer in old(peers) || peer != me
    {
      hide VNodeName, HashRing.Add, HashRing.Remove;
      var vnodes := VNodesForPeer(peer, VNODES_PER_PEER);
      for i := 0 to |vnodes|
        invariant ring == RemoveVNodes(Names(hash), old(ring), peer, i) && peers == old(peers)
      {
        ring := HashRing.Remove(Names(hash).hash, ring, vnodes[i]);
      }
      peers := peers - {peer};
      forall me | Collisionless(hash) && Synced(Names(hash), me, old(Value()))
        ensures Synced(Names(hash), me, Value()) <==> peer in old(peers) || peer != me
      {
        NamesAreSound(hash);
        RemovePeerKeepsSync(Names(hash), me, old(Value()), peer);
      }
    }
  }
}
