/**
 Membership calls that do not overlap, as functions on routing tables: what each call makes of a table, that
 ring and map stay in step over any sequence of calls, and that nothing but the current membership matters.
 */
module Membership {
  import opened Wrappers
  import opened VNodes
  import opened Routing

  /** How one attempt to connect ended; a failed attempt is only reported. */
  datatype ConnResult = Connected(peer: Peer, client: Client) | Refused(peer: Peer)

  datatype MemberOp =
    | AddOne(peer: Peer, outcome: Option<Client>)
    | RemoveOne(peer: Peer)
    | SetAll(updated: set<Peer>, joined: bool, results: seq<ConnResult>, removals: seq<Peer>)

  // --------------------------------------------------- one write to the table

  function AddConnected<T>(sch: Scheme<T>, t: Table<T>, results: seq<ConnResult>): Table<T> {
    if results == [] then t
    else
      var before := AddConnected(sch, t, results[..|results| - 1]);
      match results[|results| - 1]
      case Connected(p, client) => AddPeer(sch, before, p, client)
      case Refused(_) => before
  }

  function RemoveListed<T>(sch: Scheme<T>, t: Table<T>, removals: seq<Peer>): Table<T> {
    if removals == [] then t
    else RemovePeer(sch, RemoveListed(sch, t, removals[..|removals| - 1]), removals[|removals| - 1])
  }

  function UpdateTable<T>(sch: Scheme<T>, t: Table<T>, results: seq<ConnResult>, removals: seq<Peer>): Table<T> {
    RemoveListed(sch, AddConnected(sch, t, results), removals)
  }

  /** A whole call: the guard it takes and the write it makes. */
  function ApplyOp<T>(sch: Scheme<T>, t: Table<T>, op: MemberOp): Table<T> {
    match op
    case AddOne(p, outcome) =>
      if p in t.peers || outcome.None? then t else AddPeer(sch, t, p, outcome.value)
    case RemoveOne(p) =>
      if p !in t.peers then t else RemovePeer(sch, t, p)
    case SetAll(_, joined, results, removals) =>
      if !joined then t else UpdateTable(sch, t, results, removals)
  }

  ghost predicate Distinct<X(!new)>(s: seq<X>) {
    forall i, j | 0 <= i < j < |s| :: s[i] != s[j]
  }

  ghost predicate DistinctPeers(results: seq<ConnResult>) {
    forall i, j | 0 <= i < j < |results| :: results[i].peer != results[j].peer
  }

  /** The results are those of one attempt for each peer in `wanted`, in any order of completion. */
  ghost predicate Attempts(results: seq<ConnResult>, wanted: set<Peer>) {
    && |results| == |wanted| && DistinctPeers(results)
    && (forall r | r in results :: r.peer in wanted)
    && (forall p | p in wanted :: exists r :: r in results && r.peer == p)
  }

  ghost predicate Lists(s: seq<Peer>, wanted: set<Peer>) {
    && |s| == |wanted| && Distinct(s)
    && (forall p :: p in s <==> p in wanted)
  }

  /** What the environment may answer to a call made on table `t`. */
  ghost predicate Admissible<T>(t: Table<T>, op: MemberOp) {
    op.SetAll? && op.joined ==>
      && Attempts(op.results, op.updated - t.peers.Keys)
      && Lists(op.removals, t.peers.Keys - op.updated)
  }

  ghost function ConnectedPeers(results: seq<ConnResult>): set<Peer> {
    set r | r in results && r.Connected? :: r.peer
  }

  // ------------------------------------------------------------ exact effects

  /** Adding fresh connections keeps ring and map in step, and connects exactly the peers that answered. */
  lemma {:induction false} AddConnectedEffect<T(!new)>(sch: Scheme<T>, me: Peer, t: Table<T>, results: seq<ConnResult>)
    requires Sound(sch) && Synced(sch, me, t)
    requires DistinctPeers(results) && forall r | r in results :: r.peer !in t.peers
    ensures var t' := AddConnected(sch, t, results);
            && Synced(sch, me, t')
            && t'.peers.Keys == t.peers.Keys + ConnectedPeers(results)
            && (forall p | p in t.peers :: t'.peers[p] == t.peers[p])
            && (forall r | r in results && r.Connected? :: t'.peers[r.peer] == r.client)
  {
    hide Synced, AddPeer, DistinctPeers, ConnectedPeers;
    if results == [] {
      NobodyConnected();
    } else {
      var front, last := results[..|results| - 1], results[|results| - 1];
      assert results == front + [last];
      LastIsFresh(front, last);
      AddConnectedEffect(sch, me, t, front);
      if last.Connected? {
        AddPeerStep(sch, me, AddConnected(sch, t, front), last.peer, last.client);
      }
    }
  }

  lemma NobodyConnected()
    ensures ConnectedPeers([]) == {}
  {
  }

  lemma LastIsFresh(front: seq<ConnResult>, last: ConnResult)
    requires DistinctPeers(front + [last])
    ensures DistinctPeers(front) && last.peer !in ConnectedPeers(front)
    ensures forall r | r in front :: r.peer != last.peer
    ensures ConnectedPeers(front + [last]) == ConnectedPeers(front) + if last.Connected? then {last.peer} else {}
  {
    var results := front + [last];
    assert forall i | 0 <= i < |front| :: front[i] == results[i] && results[i].peer != results[|front|].peer;
  }

  lemma AddPeerStep<T(!new)>(sch: Scheme<T>, me: Peer, t: Table<T>, p: Peer, client: Client)
    requires Sound(sch) && Synced(sch, me, t) && p !in t.peers
    ensures Synced(sch, me, AddPeer(sch, t, p, client))
    ensures AddPeer(sch, t, p, client).peers == t.peers[p := client]
  {
    AddPeerKeepsSync(sch, me, t, p, client);
  }

  /**
   Who is connected after one write, and on which connection, whatever there was before: a new connection replaces
   an old one.
   */
  lemma {:induction false} AddConnectedPeers<T>(sch: Scheme<T>, t: Table<T>, results: seq<ConnResult>)
    requires DistinctPeers(results)
    ensures var peers := AddConnected(sch, t, results).peers;
            && peers.Keys == t.peers.Keys + ConnectedPeers(results)
            && (forall p | p in t.peers && p !in ConnectedPeers(results) :: peers[p] == t.peers[p])
            && (forall r | r in results && r.Connected? :: peers[r.peer] == r.client)
  {
    hide AddVNodes, DistinctPeers, ConnectedPeers;
    if results == [] {
      NobodyConnected();
    } else {
      var front, last := results[..|results| - 1], results[|results| - 1];
      assert results == front + [last];
      LastIsFresh(front, last);
      AddConnectedPeers(sch, t, front);
    }
  }

  lemma {:induction false} RemoveListedPeers<T>(sch: Scheme<T>, t: Table<T>, removals: seq<Peer>)
    ensures RemoveListed(sch, t, removals).peers == t.peers - (set p | p in removals)
  {
    hide RemoveVNodes;
    if removals != [] {
      var front, last := removals[..|removals| - 1], removals[|removals| - 1];
      assert removals == front + [last];
      RemoveListedPeers(sch, t, front);
      assert (set p | p in removals) == (set p | p in front) + {last};
    }
  }

  /** Removing connected peers keeps ring and map in step, and disconnects exactly those. */
  lemma {:induction false} RemoveListedEffect<T(!new)>(sch: Scheme<T>, me: Peer, t: Table<T>, removals: seq<Peer>)
    requires Sound(sch) && Synced(sch, me, t)
    requires Distinct(removals) && forall p | p in removals :: p in t.peers
    ensures var t' := RemoveListed(sch, t, removals);
            && Synced(sch, me, t')
            && t'.peers == t.peers - (set p | p in removals)
  {
    hide Synced, RemovePeer;
    if removals != [] {
      var front, last := removals[..|removals| - 1], removals[|removals| - 1];
      assert removals == front + [last];
      RemoveListedEffect(sch, me, t, front);
      RemovePeerStep(sch, me, RemoveListed(sch, t, front), last);
      assert (set p | p in removals) == (set p | p in front) + {last};
    }
  }

  lemma RemovePeerStep<T(!new)>(sch: Scheme<T>, me: Peer, t: Table<T>, p: Peer)
    requires Sound(sch) && Synced(sch, me, t) && p in t.peers
    ensures Synced(sch, me, RemovePeer(sch, t, p))
    ensures RemovePeer(sch, t, p).peers == t.peers - {p}
  {
    RemovePeerKeepsSync(sch, me, t, p);
  }

  /** The effect of replacing the membership: who stays, who joins, who leaves, and on which connection. */
  lemma SetAllEffect<T(!new)>(sch: Scheme<T>, me: Peer, t: Table<T>, op: MemberOp)
    requires Sound(sch) && Synced(sch, me, t)
    requires op.SetAll? && op.joined && Admissible(t, op)
    ensures var t' := ApplyOp(sch, t, op);
            && Synced(sch, me, t')
            && t'.peers.Keys == t.peers.Keys * op.updated + ConnectedPeers(op.results)
            && (forall p | p in t.peers && p in op.updated :: t'.peers[p] == t.peers[p])
            && (forall r | r in op.results && r.Connected? :: t'.peers[r.peer] == r.client)
  {
    hide Synced;
    AddConnectedEffect(sch, me, t, op.results);
    RemoveListedEffect(sch, me, AddConnected(sch, t, op.results), op.removals);
  }

  /** Every call, whatever the environment answers, keeps ring and map in step. */
  lemma OpKeepsSync<T(!new)>(sch: Scheme<T>, me: Peer, t: Table<T>, op: MemberOp)
    requires Sound(sch) && Synced(sch, me, t) && Admissible(t, op)
    ensures Synced(sch, me, ApplyOp(sch, t, op))
  {
    hide Synced;
    match op
    case AddOne(p, outcome) =>
      if p !in t.peers && outcome.Some? {
        AddPeerStep(sch, me, t, p, outcome.value);
      }
    case RemoveOne(p) =>
      if p in t.peers {
        RemovePeerStep(sch, me, t, p);
      }
    case SetAll(_, joined, _, _) =>
      if joined {
        SetAllEffect(sch, me, t, op);
      }
  }

  /** Asking again for a membership that was fully reached touches nothing. */
  lemma SettledSetIsIdle<T>(sch: Scheme<T>, t: Table<T>, op: MemberOp)
    requires op.SetAll? && Admissible(t, op) && t.peers.Keys == op.updated
    ensures ApplyOp(sch, t, op) == t
  {
    if op.joined {
      assert op.updated - t.peers.Keys == {} && t.peers.Keys - op.updated == {};
    }
  }

  // ------------------------------------------------------------ whole histories

  /** The tables a node goes through under a sequence of calls. */
  ghost predicate History<T>(sch: Scheme<T>, t: Table<T>, ops: seq<MemberOp>, final: Table<T>)
    decreases |ops|
  {
    if ops == [] then t == final
    else Admissible(t, ops[0]) && History(sch, ApplyOp(sch, t, ops[0]), ops[1..], final)
  }

  lemma {:induction false} HistoryKeepsSync<T(!new)>(sch: Scheme<T>, me: Peer, t: Table<T>, ops: seq<MemberOp>,
                                                     final: Table<T>)
    requires Sound(sch) && Synced(sch, me, t) && History(sch, t, ops, final)
    ensures Synced(sch, me, final)
    decreases |ops|
  {
    hide Synced;
    if ops != [] {
      OpKeepsSync(sch, me, t, ops[0]);
      HistoryKeepsSync(sch, me, ApplyOp(sch, t, ops[0]), ops[1..], final);
    }
  }

  /** A table built from scratch by connecting to the listed peers one after another. */
  function Rebuild<T>(sch: Scheme<T>, me: Peer, connections: seq<ConnResult>): Table<T> {
    AddConnected(sch, WithLocalPeer(sch, me), connections)
  }

  /**
   Incremental updates equal a rebuild: after any history the ring is the one built from the current peers in any
   order.
   */
  lemma HistoryEqualsRebuild<T(!new)>(sch: Scheme<T>, me: Peer, ops: seq<MemberOp>, final: Table<T>,
                                      connections: seq<ConnResult>)
    requires Sound(sch) && History(sch, WithLocalPeer(sch, me), ops, final)
    requires DistinctPeers(connections) && ConnectedPeers(connections) == final.peers.Keys
    ensures final.ring == Rebuild(sch, me, connections).ring
  {
    hide Synced;
    WithLocalPeerIsSynced(sch, me);
    HistoryKeepsSync(sch, me, WithLocalPeer(sch, me), ops, final);
    AddConnectedEffect(sch, me, WithLocalPeer(sch, me), connections);
    SyncedRingIsCanonical(sch, me, final, Rebuild(sch, me, connections));
  }

  /** Two nodes with any two histories that end in the same membership route every key to the same peer. */
  lemma HistoriesAgree<T(!new)>(sch: Scheme<T>, a: Peer, opsA: seq<MemberOp>, ta: Table<T>, b: Peer,
                                opsB: seq<MemberOp>, tb: Table<T>, key: string)
    requires Sound(sch)
    requires History(sch, WithLocalPeer(sch, a), opsA, ta) && History(sch, WithLocalPeer(sch, b), opsB, tb)
    requires Members(a, ta) == Members(b, tb)
    ensures exists p :: RoutesTo(sch, ta, key, p) && RoutesTo(sch, tb, key, p)
  {
    hide Synced;
    WithLocalPeerIsSynced(sch, a);
    WithLocalPeerIsSynced(sch, b);
    HistoryKeepsSync(sch, a, WithLocalPeer(sch, a), opsA, ta);
    HistoryKeepsSync(sch, b, WithLocalPeer(sch, b), opsB, tb);
    SameMembersSameOwner(sch, a, ta, b, tb, key);
    assert RoutesTo(sch, ta, key, LookupPeer(sch, ta, key).peer);
  }

  /** After any history no lookup fails, and a remote owner always comes with a client. */
  lemma LookupsNeverFail<T(!new)>(sch: Scheme<T>, me: Peer, ops: seq<MemberOp>, final: Table<T>, key: string)
    requires Sound(sch) && History(sch, WithLocalPeer(sch, me), ops, final)
    ensures var r := LookupPeer(sch, final, key); r.Found? && (r.peer != me ==> r.client.Some?)
  {
    hide Synced;
    WithLocalPeerIsSynced(sch, me);
    HistoryKeepsSync(sch, me, WithLocalPeer(sch, me), ops, final);
    LookupFindsOwner(sch, me, final, key);
  }

  // ------------------------------------------------------------- connections

  /** The call obtains connection `c` to `p`. */
  predicate Obtains(op: MemberOp, p: Peer, c: Client) {
    match op
    case AddOne(q, outcome) => q == p && outcome == Some(c)
    case RemoveOne(_) => false
    case SetAll(_, joined, results, _) => joined && Connected(p, c) in results
  }

  /** Peers in both tables are on the same connection in both, and new ones on a connection that the call obtained. */
  ghost predicate ConnectsAs<T(!new)>(t: Table<T>, t': Table<T>, op: MemberOp) {
    && (forall p | p in t'.peers && p in t.peers :: t'.peers[p] == t.peers[p])
    && (forall p | p in t'.peers && p !in t.peers :: Obtains(op, p, t'.peers[p]))
    && (forall p, c | p !in t.peers && Obtains(op, p, c) :: p in t'.peers && t'.peers[p] == c)
  }

  lemma AttemptsAreNew<T>(t: Table<T>, op: MemberOp)
    requires Admissible(t, op) && op.SetAll? && op.joined
    ensures forall r | r in op.results :: r.peer !in t.peers
  {
  }

  lemma SetAllConnections<T(!new)>(sch: Scheme<T>, me: Peer, t: Table<T>, op: MemberOp)
    requires Sound(sch) && Synced(sch, me, t) && Admissible(t, op) && op.SetAll? && op.joined
    ensures ConnectsAs(t, ApplyOp(sch, t, op), op)
  {
    hide Synced, ApplyOp, Attempts, Lists, Obtains, Sound;
    var t' := ApplyOp(sch, t, op);
    SetAllEffect(sch, me, t, op);
    AttemptsAreNew(t, op);
    hide Admissible;
    forall p | p in t'.peers && p !in t.peers ensures Obtains(op, p, t'.peers[p]) {
      var r :| r in op.results && r.Connected? && r.peer == p;
      assert r == Connected(p, t'.peers[p]);
      ObtainsAll(op, p, t'.peers[p]);
    }
    forall p, c | p !in t.peers && Obtains(op, p, c) ensures p in t'.peers && t'.peers[p] == c {
      ObtainsAll(op, p, c);
    }
  }

  lemma ObtainsAll(op: MemberOp, p: Peer, c: Client)
    requires op.SetAll? && op.joined
    ensures Obtains(op, p, c) <==> Connected(p, c) in op.results
  {
  }

  /** A call keeps peers on the connections they have, and puts new ones on the connection that it obtained for them. */
  lemma OpConnections<T(!new)>(sch: Scheme<T>, me: Peer, t: Table<T>, op: MemberOp)
    requires Sound(sch) && Synced(sch, me, t) && Admissible(t, op)
    ensures ConnectsAs(t, ApplyOp(sch, t, op), op)
  {
    hide Synced, UpdateTable, AddVNodes, RemoveVNodes, Admissible;
    if op.SetAll? && op.joined {
      hide ApplyOp, Obtains;
      SetAllConnections(sch, me, t, op);
    }
  }

  /** The peer is connected at the start, and after each of the calls. */
  ghost predicate StaysConnected<T>(sch: Scheme<T>, t: Table<T>, ops: seq<MemberOp>, p: Peer)
    decreases |ops|
  {
    p in t.peers && (ops != [] ==> StaysConnected(sch, ApplyOp(sch, t, ops[0]), ops[1..], p))
  }

  lemma {:induction false} ConnectionIsKept<T(!new)>(sch: Scheme<T>, me: Peer, t: Table<T>, ops: seq<MemberOp>,
                                                     final: Table<T>, p: Peer)
    requires Sound(sch) && Synced(sch, me, t) && History(sch, t, ops, final) && StaysConnected(sch, t, ops, p)
    ensures Synced(sch, me, final) && p in final.peers && final.peers[p] == t.peers[p]
    decreases |ops|
  {
    hide Synced, ApplyOp;
    if ops != [] {
      OpKeepsSync(sch, me, t, ops[0]);
      OpConnections(sch, me, t, ops[0]);
      ConnectionIsKept(sch, me, ApplyOp(sch, t, ops[0]), ops[1..], final, p);
    }
  }

  /**
   Once a call has connected a peer, lookups of the keys it owns return the connection of that call, for as long as
   the peer stays.
   */
  lemma LookupsUseConnection<T(!new)>(sch: Scheme<T>, me: Peer, before: seq<MemberOp>, t: Table<T>, op: MemberOp,
                                      after: seq<MemberOp>, final: Table<T>, p: Peer, c: Client, key: string)
    requires Sound(sch) && History(sch, WithLocalPeer(sch, me), before, t)
    requires Admissible(t, op) && p !in t.peers && Obtains(op, p, c)
    requires History(sch, ApplyOp(sch, t, op), after, final) && StaysConnected(sch, ApplyOp(sch, t, op), after, p)
    requires RoutesTo(sch, final, key, p)
    ensures LookupPeer(sch, final, key) == Found(p, Some(c))
  {
    hide Synced, ApplyOp, Obtains;
    WithLocalPeerIsSynced(sch, me);
    HistoryKeepsSync(sch, me, WithLocalPeer(sch, me), before, t);
    OpKeepsSync(sch, me, t, op);
    OpConnections(sch, me, t, op);
    ConnectionIsKept(sch, me, ApplyOp(sch, t, op), after, final, p);
    LookupFindsOwner(sch, me, final, key);
  }

  /** The connections that the calls obtain reach the peers they were made for. */
  ghost predicate AllReach(ops: seq<MemberOp>) {
    forall op, p, c | op in ops && Obtains(op, p, c) :: c.target == p
  }

  lemma {:induction false} HistoryKeepsReach<T(!new)>(sch: Scheme<T>, me: Peer, t: Table<T>, ops: seq<MemberOp>,
                                                      final: Table<T>)
    requires Sound(sch) && Synced(sch, me, t) && History(sch, t, ops, final) && AllReach(ops)
    requires forall p | p in t.peers :: t.peers[p].target == p
    ensures Synced(sch, me, final) && forall p | p in final.peers :: final.peers[p].target == p
    decreases |ops|
  {
    hide Synced, ApplyOp, Obtains;
    if ops != [] {
      OpKeepsSync(sch, me, t, ops[0]);
      OpConnections(sch, me, t, ops[0]);
      assert ops[0] in ops;
      HistoryKeepsReach(sch, me, ApplyOp(sch, t, ops[0]), ops[1..], final);
    }
  }

  /** After any history of calls whose connections reach their peers, the table is fit for the cluster. */
  lemma HistoriesAreFair<T(!new)>(sch: Scheme<T>, me: Peer, ops: seq<MemberOp>, final: Table<T>)
    requires Sound(sch) && History(sch, WithLocalPeer(sch, me), ops, final) && AllReach(ops)
    ensures Synced(sch, me, final) && (forall p | p in final.peers :: final.peers[p].target == p)
    ensures OnOwnRing(sch, me, final)
  {
    hide Synced, OnOwnRing;
    WithLocalPeerIsSynced(sch, me);
    HistoryKeepsReach(sch, me, WithLocalPeer(sch, me), ops, final);
    SyncedIsOnOwnRing(sch, me, final);
  }

  // ------------------------------------------------------------- sizes

  lemma {:induction false} AddVNodesGrows<T>(sch: Scheme<T>, ring: seq<T>, p: Peer, num: nat)
    requires num <= VNODES_PER_PEER
    ensures |AddVNodes(sch, ring, p, num)| == |ring| + num
  {
    if num > 0 {
      AddVNodesGrows(sch, ring, p, num - 1);
    }
  }

  lemma {:induction false} ConnectingGrows<T>(sch: Scheme<T>, t: Table<T>, results: seq<ConnResult>)
    requires forall r | r in results :: r.Connected?
    ensures |AddConnected(sch, t, results).ring| == |t.ring| + 40 * |results|
  {
    hide AddVNodes;
    if results != [] {
      var front, last := results[..|results| - 1], results[|results| - 1];
      assert last in results;
      ConnectingGrows(sch, t, front);
      AddVNodesGrows(sch, AddConnected(sch, t, front).ring, last.peer, VNODES_PER_PEER);
    }
  }

  /** Some list of connections to exactly these peers. */
  lemma {:induction false} ListConnections(peers: set<Peer>) returns (results: seq<ConnResult>)
    ensures |results| == |peers| && DistinctPeers(results) && ConnectedPeers(results) == peers
    ensures forall r | r in results :: r.Connected?
    decreases |peers|
  {
    if peers == {} {
      results := [];
      NobodyConnected();
    } else {
      var p :| p in peers;
      var front := ListConnections(peers - {p});
      results := front + [Connected(p, Client(p, 0))];
      forall r | r in front ensures r.peer != p {
        assert r.peer in ConnectedPeers(front);
      }
      LastIsFresh(front, Connected(p, Client(p, 0)));
    }
  }

  /** A table in step has forty virtual nodes on its ring for the node itself, and forty for each connected peer. */
  lemma RingSize<T(!new)>(sch: Scheme<T>, me: Peer, t: Table<T>)
    requires Sound(sch) && Synced(sch, me, t)
    ensures |t.ring| == 40 * (1 + |t.peers|)
  {
    hide Synced, AddVNodes, AddConnected, DistinctPeers, ConnectedPeers;
    var results := ListConnections(t.peers.Keys);
    WithLocalPeerIsSynced(sch, me);
    AddConnectedEffect(sch, me, WithLocalPeer(sch, me), results);
    SyncedRingIsCanonical(sch, me, t, Rebuild(sch, me, results));
    AddVNodesGrows(sch, [], me, VNODES_PER_PEER);
    ConnectingGrows(sch, WithLocalPeer(sch, me), results);
  }
}
