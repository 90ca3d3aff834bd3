/**
 Membership calls that overlap. Each call reads its guard under a read lock, connects, and writes later under
 a write lock, so any number of other calls may write in between. The guard and the write are separate events
 here, in any interleaving of any number of calls.
 */
module Interleaving {
  import opened Wrappers
  import opened VNodes
  import opened HashRing
  import opened Routing
  import opened Membership
  import opened RoutingTable

  /** The write a call is going to make once it gets the lock. */
  datatype Write = Write(results: seq<ConnResult>, removals: seq<Peer>)

  /** The table, and the writes of the calls that are past their guard. */
  datatype Shared<T> = Shared(table: Table<T>, pending: seq<Write>)

  /** Calls that end at their guard, or whose connection fails, change nothing and need no event. */
  datatype Event =
    | GuardAdd(peer: Peer, client: Client)
    | GuardRemove(peer: Peer)
    | GuardSet(updated: set<Peer>, results: seq<ConnResult>, removals: seq<Peer>)
    | Commit(i: nat)

  ghost predicate Enabled<T>(s: Shared<T>, e: Event) {
    match e
    case GuardAdd(p, _) => p !in s.table.peers
    case GuardRemove(p) => p in s.table.peers
    case GuardSet(updated, results, removals) => Admissible(s.table, SetAll(updated, true, results, removals))
    case Commit(i) => i < |s.pending|
  }

  function Planned(e: Event): Write
    requires !e.Commit?
  {
    match e
    case GuardAdd(p, client) => Write([Connected(p, client)], [])
    case GuardRemove(p) => Write([], [p])
    case GuardSet(_, results, removals) => Write(results, removals)
  }

  function DoWrite<T>(sch: Scheme<T>, t: Table<T>, w: Write): Table<T> {
    UpdateTable(sch, t, w.results, w.removals)
  }

  ghost function After<T>(sch: Scheme<T>, s: Shared<T>, e: Event): Shared<T>
    requires Enabled(s, e)
  {
    match e
    case Commit(i) => Shared(DoWrite(sch, s.table, s.pending[i]), s.pending[..i] + s.pending[i + 1..])
    case _ => s.(pending := s.pending + [Planned(e)])
  }

  ghost predicate Runs<T>(sch: Scheme<T>, s: Shared<T>, events: seq<Event>, final: Shared<T>)
    decreases |events|
  {
    if events == [] then s == final
    else Enabled(s, events[0]) && Runs(sch, After(sch, s, events[0]), events[1..], final)
  }

  /** The one-element writes are the plain add and the plain remove. */
  lemma SingleWrites<T>(sch: Scheme<T>, t: Table<T>, p: Peer, client: Client)
    ensures DoWrite(sch, t, Planned(GuardAdd(p, client))) == AddPeer(sch, t, p, client)
    ensures DoWrite(sch, t, Planned(GuardRemove(p))) == RemovePeer(sch, t, p)
  {
    hide AddPeer, RemovePeer;
    assert [Connected(p, client)][..0] == [] && [p][..0] == [];
    assert AddConnected(sch, t, [Connected(p, client)]) == AddPeer(sch, t, p, client);
    assert RemoveListed(sch, t, [p]) == RemovePeer(sch, t, p);
  }

  // ---------------------------------------------------- what one write does

  ghost predicate WellFormed(w: Write) {
    DistinctPeers(w.results) && Distinct(w.removals) && forall r | r in w.results :: r.peer !in w.removals
  }

  lemma {:induction false} AddConnectedExact<T(!new)>(sch: Scheme<T>, t: Table<T>, results: seq<ConnResult>, q: Peer,
                                                      i: VNodeId)
    requires Sound(sch) && Sorted(sch.hash, t.ring) && DistinctPeers(results)
    ensures var t' := AddConnected(sch, t, results);
            && Sorted(sch.hash, t'.ring)
            && t'.peers.Keys == t.peers.Keys + ConnectedPeers(results)
            && Copies(sch, t'.ring, q, i) == Copies(sch, t.ring, q, i) + OneIf(q in ConnectedPeers(results))
  {
    hide Sorted, AddVNodes, DistinctPeers, ConnectedPeers;
    if results == [] {
      NobodyConnected();
    } else {
      var front, last := results[..|results| - 1], results[|results| - 1];
      assert results == front + [last];
      LastIsFresh(front, last);
      AddConnectedExact(sch, t, front, q, i);
      var before := AddConnected(sch, t, front);
      if last.Connected? {
        AddVNodesEffect(sch, before.ring, last.peer, VNODES_PER_PEER, q, i);
        AddVNodesKeepsSorted(sch, before.ring, last.peer, VNODES_PER_PEER);
      }
    }
  }

  lemma {:induction false} RemoveListedExact<T(!new)>(sch: Scheme<T>, t: Table<T>, removals: seq<Peer>, q: Peer,
                                                      i: VNodeId)
    requires Sound(sch) && Sorted(sch.hash, t.ring) && Distinct(removals)
    ensures var t' := RemoveListed(sch, t, removals);
            && Sorted(sch.hash, t'.ring)
            && t'.peers.Keys == t.peers.Keys - (set p | p in removals)
            && Copies(sch, t'.ring, q, i)
            == Copies(sch, t.ring, q, i) - OneIf(q in removals && Copies(sch, t.ring, q, i) > 0)
  {
    hide Sorted, RemoveVNodes;
    if removals != [] {
      var front, last := removals[..|removals| - 1], removals[|removals| - 1];
      assert removals == front + [last];
      assert last !in front;
      RemoveListedExact(sch, t, front, q, i);
      var before := RemoveListed(sch, t, front);
      RemoveVNodesEffect(sch, before.ring, last, VNODES_PER_PEER, q, i);
      RemoveVNodesKeepsSorted(sch, before.ring, last, VNODES_PER_PEER);
      assert (set p | p in removals) == (set p | p in front) + {last};
    }
  }

  /** One write adds a copy for each peer that connected, then takes one away for each peer it removes. */
  lemma WriteExact<T(!new)>(sch: Scheme<T>, t: Table<T>, w: Write, q: Peer, i: VNodeId)
    requires Sound(sch) && Sorted(sch.hash, t.ring) && WellFormed(w)
    ensures var t' := DoWrite(sch, t, w);
            && Sorted(sch.hash, t'.ring)
            && t'.peers.Keys == t.peers.Keys + ConnectedPeers(w.results) - (set p | p in w.removals)
            && Copies(sch, t'.ring, q, i)
            == Copies(sch, t.ring, q, i) + OneIf(q in ConnectedPeers(w.results))
               - OneIf(q in w.removals && Copies(sch, t.ring, q, i) > 0)
  {
    hide Sorted, Copies;
    AddConnectedExact(sch, t, w.results, q, i);
    RemoveListedExact(sch, AddConnected(sch, t, w.results), w.removals, q, i);
  }

  /** One write puts each peer that connected on its new connection, even if another call had connected it meanwhile. */
  lemma WriteConnections<T>(sch: Scheme<T>, t: Table<T>, w: Write)
    requires WellFormed(w)
    ensures var peers := DoWrite(sch, t, w).peers;
            && (forall r | r in w.results && r.Connected? :: r.peer in peers && peers[r.peer] == r.client)
            && (forall p | p in peers && p !in ConnectedPeers(w.results) :: p in t.peers && peers[p] == t.peers[p])
  {
    AddConnectedPeers(sch, t, w.results);
    RemoveListedPeers(sch, AddConnected(sch, t, w.results), w.removals);
  }

  /**
   A late write keeps ring and map in step exactly when no peer it adds is connected by then, and it does not remove
   the node itself unless connected.
   */
  lemma WriteKeepsSyncExactly<T(!new)>(sch: Scheme<T>, me: Peer, t: Table<T>, w: Write)
    requires Sound(sch) && Synced(sch, me, t) && WellFormed(w)
    ensures Synced(sch, me, DoWrite(sch, t, w))
       <==> ConnectedPeers(w.results) !! t.peers.Keys && (me in w.removals ==> me in t.peers)
  {
    var t' := DoWrite(sch, t, w);
    forall q: Peer, i: VNodeId
      ensures Copies(sch, t'.ring, q, i)
           == OneIf(q in t.peers) + OneIf(q == me) + OneIf(q in ConnectedPeers(w.results))
              - OneIf(q in w.removals && (q in t.peers || q == me))
      ensures q in t'.peers <==> (q in t.peers || q in ConnectedPeers(w.results)) && q !in w.removals
    {
      hide DoWrite, Sorted;
      WriteExact(sch, t, w, q, i);
      assert Copies(sch, t.ring, q, i) == OneIf(q in t.peers) + OneIf(q == me);
    }
    WriteExact(sch, t, w, me, 0);
    assert Copies(sch, t'.ring, me, 0)
        == OneIf(me in t.peers) + 1 + OneIf(me in ConnectedPeers(w.results)) - OneIf(me in w.removals);
    if q :| q in ConnectedPeers(w.results) && q in t.peers {
      assert Copies(sch, t'.ring, q, 0) == 2 + OneIf(q == me);
    }
  }

  // ----------------------------------------------- invariants of all interleavings

  /** All virtual nodes of a peer are on the ring equally often, and every connected peer is on it. */
  ghost predicate Even<T>(sch: Scheme<T>, t: Table<T>) {
    && Sorted(sch.hash, t.ring)
    && (forall p: Peer, i: VNodeId :: Copies(sch, t.ring, p, i) == Copies(sch, t.ring, p, 0))
    && (forall p | p in t.peers :: Copies(sch, t.ring, p, 0) > 0)
  }

  /** The event is the guard of a call that is going to remove `p`. */
  predicate PlansToRemove(e: Event, p: Peer) {
    !e.Commit? && p in Planned(e).removals
  }

  ghost predicate Inv<T>(sch: Scheme<T>, s: Shared<T>) {
    Even(sch, s.table) && forall w | w in s.pending :: WellFormed(w)
  }

  /** The node's own virtual nodes are on the ring, and no call in progress is going to remove the node. */
  ghost predicate SelfUntouched<T>(sch: Scheme<T>, me: Peer, s: Shared<T>) {
    Copies(sch, s.table.ring, me, 0) > 0 && forall w | w in s.pending :: me !in w.removals
  }

  lemma WriteKeepsEven<T(!new)>(sch: Scheme<T>, t: Table<T>, w: Write)
    requires Sound(sch) && Even(sch, t) && WellFormed(w)
    ensures Even(sch, DoWrite(sch, t, w))
  {
    var t' := DoWrite(sch, t, w);
    forall p: Peer, i: VNodeId
      ensures Copies(sch, t'.ring, p, i) == Copies(sch, t'.ring, p, 0)
      ensures p in t'.peers ==> Copies(sch, t'.ring, p, 0) > 0
    {
      hide DoWrite, Sorted;
      WriteExact(sch, t, w, p, i);
      WriteExact(sch, t, w, p, 0);
      assert Copies(sch, t.ring, p, i) == Copies(sch, t.ring, p, 0);
    }
    WriteExact(sch, t, w, Peer(0, 0, 0, 0, 0), 0);
  }

  lemma PlannedIsWellFormed<T>(s: Shared<T>, e: Event)
    requires Enabled(s, e) && !e.Commit?
    ensures WellFormed(Planned(e))
  {
  }

  lemma EventKeepsInv<T(!new)>(sch: Scheme<T>, s: Shared<T>, e: Event)
    requires Sound(sch) && Inv(sch, s) && Enabled(s, e)
    ensures Inv(sch, After(sch, s, e))
  {
    hide Even, WellFormed, DoWrite;
    if e.Commit? {
      WriteKeepsEven(sch, s.table, s.pending[e.i]);
    } else {
      PlannedIsWellFormed(s, e);
    }
  }

  lemma EventKeepsSelf<T(!new)>(sch: Scheme<T>, me: Peer, s: Shared<T>, e: Event)
    requires Sound(sch) && Inv(sch, s) && SelfUntouched(sch, me, s) && Enabled(s, e) && !PlansToRemove(e, me)
    ensures SelfUntouched(sch, me, After(sch, s, e))
  {
    hide WellFormed, DoWrite, Sorted;
    if e.Commit? {
      var w := s.pending[e.i];
      assert w in s.pending;
      WriteExact(sch, s.table, w, me, 0);
    }
  }

  /**
   Every interleaving of membership calls keeps the virtual nodes of each peer equally often on the ring and every
   connected peer on it.
   */
  lemma {:induction false} InterleavingsStayEven<T(!new)>(sch: Scheme<T>, s: Shared<T>, events: seq<Event>,
                                                          final: Shared<T>)
    requires Sound(sch) && Inv(sch, s) && Runs(sch, s, events, final)
    ensures Inv(sch, final)
    decreases |events|
  {
    hide Inv;
    if events != [] {
      EventKeepsInv(sch, s, events[0]);
      InterleavingsStayEven(sch, After(sch, s, events[0]), events[1..], final);
    }
  }

  lemma {:induction false} InterleavingsKeepSelf<T(!new)>(sch: Scheme<T>, me: Peer, s: Shared<T>, events: seq<Event>,
                                                          final: Shared<T>)
    requires Sound(sch) && Inv(sch, s) && SelfUntouched(sch, me, s) && Runs(sch, s, events, final)
    requires forall e | e in events :: !PlansToRemove(e, me)
    ensures SelfUntouched(sch, me, final)
    decreases |events|
  {
    hide Inv, SelfUntouched, PlansToRemove;
    if events != [] {
      EventKeepsInv(sch, s, events[0]);
      EventKeepsSelf(sch, me, s, events[0]);
      InterleavingsKeepSelf(sch, me, After(sch, s, events[0]), events[1..], final);
    }
  }

  /**
   One write takes a peer off the ring exactly if it removes the peer while the ring holds a single copy of each of
   its virtual nodes.
   */
  lemma WriteKeepsOnRingExactly<T(!new)>(sch: Scheme<T>, t: Table<T>, w: Write, p: Peer, i: VNodeId)
    requires Sound(sch) && Even(sch, t) && WellFormed(w) && sch.vnode(p, i) in t.ring
    ensures sch.vnode(p, i) in DoWrite(sch, t, w).ring <==> !(p in w.removals && Copies(sch, t.ring, p, 0) == 1)
  {
    hide DoWrite, Sorted;
    WriteExact(sch, t, w, p, i);
    var ring := DoWrite(sch, t, w).ring;
    assert Copies(sch, t.ring, p, i) == Copies(sch, t.ring, p, 0);
    assert sch.vnode(p, i) in multiset(t.ring);
    assert sch.vnode(p, i) in ring <==> sch.vnode(p, i) in multiset(ring);
    if p in w.removals {
      NobodyJoinsAndLeaves(w, p);
    }
  }

  lemma NobodyJoinsAndLeaves(w: Write, p: Peer)
    requires WellFormed(w) && p in w.removals
    ensures p !in ConnectedPeers(w.results)
  {
  }

  /**
   From start-up, however calls overlap, all virtual nodes of the node stay on its ring as long as no call is going to
   remove the node. It may be added as its own peer, any number of times.
   */
  lemma NodeStaysOnItsRing<T(!new)>(sch: Scheme<T>, me: Peer, events: seq<Event>, final: Shared<T>, i: VNodeId)
    requires Sound(sch) && Runs(sch, Shared(WithLocalPeer(sch, me), []), events, final)
    requires forall e | e in events :: !PlansToRemove(e, me)
    ensures Sorted(sch.hash, final.table.ring) && sch.vnode(me, i) in final.table.ring
  {
    hide PlansToRemove, Runs;
    var s := Shared(WithLocalPeer(sch, me), []);
    WithLocalPeerIsSynced(sch, me);
    InterleavingsStayEven(sch, s, events, final);
    InterleavingsKeepSelf(sch, me, s, events, final);
    assert Copies(sch, final.table.ring, me, i) > 0;
    assert sch.vnode(me, i) in multiset(final.table.ring);
  }

  /** The client made for a peer reaches that peer. */
  predicate Reaches(r: ConnResult) {
    r.Connected? ==> r.client.target == r.peer
  }

  ghost predicate Addressed(e: Event) {
    !e.Commit? ==> forall r | r in Planned(e).results :: Reaches(r)
  }

  predicate ReachPeers(peers: map<Peer, Client>) {
    forall p | p in peers :: peers[p].target == p
  }

  ghost predicate ClientsReach<T>(s: Shared<T>) {
    && ReachPeers(s.table.peers)
    && (forall w, r | w in s.pending && r in w.results :: Reaches(r))
  }

  lemma {:induction false} AddConnectedReaches<T>(sch: Scheme<T>, t: Table<T>, results: seq<ConnResult>)
    requires ReachPeers(t.peers)
    requires forall r | r in results :: Reaches(r)
    ensures ReachPeers(AddConnected(sch, t, results).peers)
  {
    hide AddVNodes;
    if results != [] {
      assert results[|results| - 1] in results;
      AddConnectedReaches(sch, t, results[..|results| - 1]);
    }
  }

  lemma {:induction false} RemoveListedReaches<T>(sch: Scheme<T>, t: Table<T>, removals: seq<Peer>)
    requires ReachPeers(t.peers)
    ensures ReachPeers(RemoveListed(sch, t, removals).peers)
  {
    hide RemoveVNodes;
    if removals != [] {
      RemoveListedReaches(sch, t, removals[..|removals| - 1]);
    }
  }

  lemma {:induction false} InterleavingsReach<T>(sch: Scheme<T>, s: Shared<T>, events: seq<Event>, final: Shared<T>)
    requires ClientsReach(s) && Runs(sch, s, events, final) && forall e | e in events :: Addressed(e)
    ensures ClientsReach(final)
    decreases |events|
  {
    hide AddConnected, RemoveListed, Reaches;
    if events != [] {
      assert Addressed(events[0]);
      if events[0].Commit? {
        var w := s.pending[events[0].i];
        assert w in s.pending;
        AddConnectedReaches(sch, s.table, w.results);
        RemoveListedReaches(sch, AddConnected(sch, s.table, w.results), w.removals);
      }
      InterleavingsReach(sch, After(sch, s, events[0]), events[1..], final);
    }
  }

  /**
   So overlapping calls leave every table fit for forwarding: what the cluster demands of the tables that replace
   others.
   */
  lemma InterleavingsAreFair<T(!new)>(sch: Scheme<T>, me: Peer, events: seq<Event>, final: Shared<T>)
    requires Sound(sch) && Runs(sch, Shared(WithLocalPeer(sch, me), []), events, final)
    requires forall e | e in events :: !PlansToRemove(e, me) && Addressed(e)
    ensures OnOwnRing(sch, me, final.table)
  {
    hide PlansToRemove, Runs, Addressed;
    forall i: VNodeId ensures Sorted(sch.hash, final.table.ring) && sch.vnode(me, i) in final.table.ring {
      NodeStaysOnItsRing(sch, me, events, final, i);
    }
    assert sch.vnode(me, 0) in final.table.ring;
    InterleavingsReach(sch, Shared(WithLocalPeer(sch, me), []), events, final);
  }

  // --------------------------------------------------- what overlapping can break

  ghost function TwiceAddedOnceRemoved<T>(sch: Scheme<T>, me: Peer, p: Peer, c: Client): Table<T> {
    RemovePeer(sch, AddPeer(sch, AddPeer(sch, WithLocalPeer(sch, me), p, c), p, c), p)
  }

  lemma StrandedCopy<T(!new)>(sch: Scheme<T>, me: Peer, p: Peer, c: Client)
    requires Sound(sch) && p != me
    ensures var t := TwiceAddedOnceRemoved(sch, me, p, c);
            Sorted(sch.hash, t.ring) && sch.vnode(p, 0) in t.ring && t.peers == map[]
  {
    hide Sorted, AddVNodes, RemoveVNodes;
    var t0 := WithLocalPeer(sch, me);
    var t1 := AddPeer(sch, t0, p, c);
    var t2 := AddPeer(sch, t1, p, c);
    WithLocalPeerIsSynced(sch, me);
    AddVNodesEffect(sch, t0.ring, p, VNODES_PER_PEER, p, 0);
    AddVNodesEffect(sch, t1.ring, p, VNODES_PER_PEER, p, 0);
    AddVNodesKeepsSorted(sch, t0.ring, p, VNODES_PER_PEER);
    AddVNodesKeepsSorted(sch, t1.ring, p, VNODES_PER_PEER);
    RemoveVNodesEffect(sch, t2.ring, p, VNODES_PER_PEER, p, 0);
    RemoveVNodesKeepsSorted(sch, t2.ring, p, VNODES_PER_PEER);
    assert Copies(sch, t0.ring, p, 0) == 0;
    assert sch.vnode(p, 0) in multiset(RemovePeer(sch, t2, p).ring);
  }

  /** Two overlapping additions of a peer, then a removal: lookups still return the peer, but without a client. */
  lemma OverlappingAddsStrandPeer(hash: string -> u64, me: Peer, p: Peer, c: Client)
    requires Collisionless(hash) && p != me
    ensures var t := TwiceAddedOnceRemoved(Names(hash), me, p, c);
            && Runs(Names(hash), Shared(WithLocalPeer(Names(hash), me), []),
                    [GuardAdd(p, c), GuardAdd(p, c), Commit(0), Commit(0), GuardRemove(p), Commit(0)], Shared(t, []))
            && LookupPeer(Names(hash), t, VNodeName(p, 0)) == Found(p, None)
  {
    hide VNodeName, Names;
    NamesAreSound(hash);
    StrandedCopy(Names(hash), me, p, c);
    NamesUseNewVNode(hash, p);
    KeyNamedAfterVNode(hash, TwiceAddedOnceRemoved(Names(hash), me, p, c), p, 0);
    OverlappingAddsRun(Names(hash), me, p, c);
  }

  lemma NamesUseNewVNode(hash: string -> u64, p: Peer)
    ensures Names(hash).vnode(p, 0) == NewVNode(p, 0)
  {
  }

  lemma OverlappingAddsRun<T(!new)>(sch: Scheme<T>, me: Peer, p: Peer, c: Client)
    ensures Runs(sch, Shared(WithLocalPeer(sch, me), []),
                 [GuardAdd(p, c), GuardAdd(p, c), Commit(0), Commit(0), GuardRemove(p), Commit(0)],
                 Shared(TwiceAddedOnceRemoved(sch, me, p, c), []))
  {
    hide DoWrite, AddVNodes, RemoveVNodes;
    var t0 := WithLocalPeer(sch, me);
    var t1 := AddPeer(sch, t0, p, c);
    var t2 := AddPeer(sch, t1, p, c);
    var t3 := RemovePeer(sch, t2, p);
    var add, rem := Planned(GuardAdd(p, c)), Planned(GuardRemove(p));
    SingleWrites(sch, t0, p, c);
    SingleWrites(sch, t1, p, c);
    SingleWrites(sch, t2, p, c);
    RunOne(sch, Shared(t2, [rem]), Commit(0), Shared(t3, []), [], Shared(t3, []));
    RunOne(sch, Shared(t2, []), GuardRemove(p), Shared(t2, [rem]), [Commit(0)], Shared(t3, []));
    RunOne(sch, Shared(t1, [add]), Commit(0), Shared(t2, []), [GuardRemove(p), Commit(0)], Shared(t3, []));
    RunOne(sch, Shared(t0, [add, add]), Commit(0), Shared(t1, [add]), [Commit(0), GuardRemove(p), Commit(0)],
           Shared(t3, []));
    RunOne(sch, Shared(t0, [add]), GuardAdd(p, c), Shared(t0, [add, add]),
           [Commit(0), Commit(0), GuardRemove(p), Commit(0)], Shared(t3, []));
    RunOne(sch, Shared(t0, []), GuardAdd(p, c), Shared(t0, [add]),
           [GuardAdd(p, c), Commit(0), Commit(0), GuardRemove(p), Commit(0)], Shared(t3, []));
  }

  lemma RunOne<T>(sch: Scheme<T>, s: Shared<T>, e: Event, s': Shared<T>, rest: seq<Event>, final: Shared<T>)
    requires Enabled(s, e) && After(sch, s, e).table == s'.table && After(sch, s, e).pending == s'.pending
    requires Runs(sch, s', rest, final)
    ensures Runs(sch, s, [e] + rest, final)
  {
    hide DoWrite;
    assert ([e] + rest)[1..] == rest;
  }

  /**
   A node passed in as its own peer can be taken off its ring by two overlapping removals; then every lookup fails.
   */
  lemma OverlappingRemovesEmptyRing<T(!new)>(sch: Scheme<T>, me: Peer, c: Client, key: string)
    requires Sound(sch)
    ensures exists final ::
              && Runs(sch, Shared(WithLocalPeer(sch, me), []),
                      [GuardAdd(me, c), Commit(0), GuardRemove(me), GuardRemove(me), Commit(0), Commit(0)], final)
              && LookupPeer(sch, final.table, key) == EmptyRing
  {
    hide DoWrite, AddVNodes, RemoveVNodes, LookupPeer;
    var t0 := WithLocalPeer(sch, me);
    var t1 := AddPeer(sch, t0, me, c);
    var t2 := RemovePeer(sch, t1, me);
    var t3 := RemovePeer(sch, t2, me);
    var add, rem := Planned(GuardAdd(me, c)), Planned(GuardRemove(me));
    SingleWrites(sch, t0, me, c);
    SingleWrites(sch, t1, me, c);
    SingleWrites(sch, t2, me, c);
    var final := Shared(t3, []);
    RunOne(sch, Shared(t2, [rem]), Commit(0), final, [], final);
    RunOne(sch, Shared(t1, [rem, rem]), Commit(0), Shared(t2, [rem]), [Commit(0)], final);
    RunOne(sch, Shared(t1, [rem]), GuardRemove(me), Shared(t1, [rem, rem]), [Commit(0), Commit(0)], final);
    RunOne(sch, Shared(t1, []), GuardRemove(me), Shared(t1, [rem]), [GuardRemove(me), Commit(0), Commit(0)], final);
    RunOne(sch, Shared(t0, [add]), Commit(0), Shared(t1, []), [GuardRemove(me), GuardRemove(me), Commit(0), Commit(0)],
           final);
    RunOne(sch, Shared(t0, []), GuardAdd(me, c), Shared(t0, [add]),
           [Commit(0), GuardRemove(me), GuardRemove(me), Commit(0), Commit(0)], final);
    SelfRemovedTwice(sch, me, c);
    LookupOnEmptyRing(sch, t3, key);
  }

  lemma SelfRemovedTwice<T(!new)>(sch: Scheme<T>, me: Peer, c: Client)
    requires Sound(sch)
    ensures RemovePeer(sch, RemovePeer(sch, AddPeer(sch, WithLocalPeer(sch, me), me, c), me), me).ring == []
  {
    hide AddVNodes, RemoveVNodes, Sorted;
    var t0 := WithLocalPeer(sch, me);
    AddThenRemoveRestoresSelf(sch, me, c);
    WithLocalPeerIsSynced(sch, me);
    var ring := RemoveVNodes(sch, t0.ring, me, VNODES_PER_PEER);
    RemoveVNodesKeepsSorted(sch, t0.ring, me, VNODES_PER_PEER);
    var none: seq<T> := [];
    forall q: Peer, i: VNodeId ensures Copies(sch, ring, q, i) == Copies(sch, none, q, i) {
      RemoveVNodesEffect(sch, t0.ring, me, VNODES_PER_PEER, q, i);
      assert Copies(sch, t0.ring, q, i) == OneIf(q in t0.peers) + OneIf(q == me);
    }
    NothingIsSorted(sch);
    RingsAgree(sch, ring, none);
  }

  lemma NothingIsSorted<T>(sch: Scheme<T>)
    ensures Sorted(sch.hash, [])
  {
  }

  lemma AddThenRemoveRestoresSelf<T(!new)>(sch: Scheme<T>, me: Peer, c: Client)
    requires Sound(sch)
    ensures RemovePeer(sch, AddPeer(sch, WithLocalPeer(sch, me), me, c), me) == WithLocalPeer(sch, me)
  {
    hide AddVNodes, RemoveVNodes;
    WithLocalPeerIsSynced(sch, me);
    AddThenRemoveRestores(sch, me, WithLocalPeer(sch, me), me, c);
  }

  lemma LookupOnEmptyRing<T>(sch: Scheme<T>, t: Table<T>, key: string)
    requires t.ring == []
    ensures LookupPeer(sch, t, key) == EmptyRing
  {
  }
}
