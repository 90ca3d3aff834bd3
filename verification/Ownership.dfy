/**
 Who caches and who loads, while routing tables do not change: a node keeps in its main cache only keys it
 owns and in its hot cache only keys it does not, and loads of one key do not pile up.
 */
module Ownership {
  import opened Wrappers
  import opened VNodes
  import opened Routing
  import opened NodeState
  import opened Cluster
  import opened Structure
  import opened Forwarding

  ghost predicate TasksPlaced<T>(sch: Scheme<T>, t: Table<T>, a: Task) {
    match a.phase
    case Routed(p, _) => RoutesTo(sch, t, a.key, p)
    case Leading(p, _) => RoutesTo(sch, t, a.key, p)
    case LoadingOwn(_) => RoutesTo(sch, t, a.key, a.node)
    case FillingMain(_) => RoutesTo(sch, t, a.key, a.node)
    case Requesting(p) => RoutesTo(sch, t, a.key, p) && p != a.node
    case Awaiting => !RoutesTo(sch, t, a.key, a.node)
    case FillingHot(_) => !RoutesTo(sch, t, a.key, a.node)
    case FallingBack => !RoutesTo(sch, t, a.key, a.node)
    case LoadingFallback(_) => !RoutesTo(sch, t, a.key, a.node)
    case _ => true
  }

  ghost predicate CachesPlaced<T>(sch: Scheme<T>, p: Peer, n: Node<T>) {
    && (forall key | key in n.main :: RoutesTo(sch, n.table, key, p))
    && (forall key | key in n.hot :: !RoutesTo(sch, n.table, key, p))
  }

  /** A request went to the peer that the table of its sender routes the key to. */
  ghost predicate ChildPlaced<T>(sch: Scheme<T>, s: State<T>, a: Task)
    requires a.node in s.nodes
  {
    a.child.Some? && a.child.value < |s.tasks| ==>
      RoutesTo(sch, s.nodes[a.node].table, a.key, s.tasks[a.child.value].node)
  }

  ghost predicate Placed<T>(sch: Scheme<T>, s: State<T>) {
    && (forall n | n in s.nodes :: CachesPlaced(sch, n, s.nodes[n]))
    && (forall i: nat | i < |s.tasks| :: s.tasks[i].node in s.nodes
          && TasksPlaced(sch, s.nodes[s.tasks[i].node].table, s.tasks[i]) && ChildPlaced(sch, s, s.tasks[i]))
  }

  ghost predicate MovePlaced<T>(sch: Scheme<T>, s: State<T>, t: nat, m: Move<T>)
    requires t < |s.tasks| && s.tasks[t].node in s.nodes
  {
    var a := s.tasks[t];
    && m.node.table == s.nodes[a.node].table && m.task.node == a.node && m.task.key == a.key
    && CachesPlaced(sch, a.node, m.node)
    && TasksPlaced(sch, m.node.table, m.task)
    && (m.started == [] ==> m.task.child == a.child)
    && (m.started != [] ==>
          && |m.started| == 1 && m.task.child == Some(|s.tasks|)
          && m.started[0].phase.Fresh? && m.started[0].child.None? && m.started[0].node in s.nodes
          && RoutesTo(sch, m.node.table, a.key, m.started[0].node))
  }

  lemma FoundIsRoute<T>(sch: Scheme<T>, t: Table<T>, key: string)
    ensures LookupPeer(sch, t, key).Found? ==> RoutesTo(sch, t, key, LookupPeer(sch, t, key).peer)
  {
  }

  lemma PlacedTask<T>(sch: Scheme<T>, s: State<T>, t: nat)
    requires Inv(sch, s) && Placed(sch, s) && t < |s.tasks|
    ensures TaskOk(sch, s, t)
    ensures TasksPlaced(sch, s.nodes[s.tasks[t].node].table, s.tasks[t])
    ensures CachesPlaced(sch, s.tasks[t].node, s.nodes[s.tasks[t].node])
  {
    hide OnOwnRing, RoutesTo, FlightOk;
  }

  lemma ProbeIsPlaced<T(!new)>(cfg: Config<T>, s: State<T>, t: nat)
    requires Placed(cfg.sch, s) && CanStep(s, t) && s.tasks[t].op.Get? && !InFlight(s.tasks[t])
    requires Inv(cfg.sch, s)
    ensures MovePlaced(cfg.sch, s, t, StepMove(cfg, s, t))
  {
    hide Inv, Placed, Nearer, LookupPeer, RoutesTo, ChildOk;
    var a := s.tasks[t];
    PlacedTask(cfg.sch, s, t);
    FoundIsRoute(cfg.sch, s.nodes[a.node].table, a.key);
  }

  lemma FlightIsPlaced<T(!new)>(cfg: Config<T>, s: State<T>, t: nat)
    requires Placed(cfg.sch, s) && CanStep(s, t) && InFlight(s.tasks[t])
    requires Inv(cfg.sch, s)
    ensures MovePlaced(cfg.sch, s, t, StepMove(cfg, s, t))
  {
    hide Inv, Placed, Nearer, LookupPeer, RoutesTo, ChildOk;
    var a := s.tasks[t];
    PlacedTask(cfg.sch, s, t);
    if a.phase.Leading? {
      OneRoute(cfg.sch, s.nodes[a.node].table, a.key, a.phase.peer);
    }
  }

  lemma RemoveIsPlaced<T(!new)>(cfg: Config<T>, s: State<T>, t: nat)
    requires Placed(cfg.sch, s) && CanStep(s, t) && s.tasks[t].op.Remove?
    requires Inv(cfg.sch, s)
    ensures MovePlaced(cfg.sch, s, t, StepMove(cfg, s, t))
  {
    hide Inv, Placed, Nearer, LookupPeer, RoutesTo, ChildOk;
    var a := s.tasks[t];
    PlacedTask(cfg.sch, s, t);
    FoundIsRoute(cfg.sch, s.nodes[a.node].table, a.key);
    if a.phase.Routed? {
      OneRoute(cfg.sch, s.nodes[a.node].table, a.key, a.phase.peer);
    }
  }

  lemma OneRoute<T>(sch: Scheme<T>, t: Table<T>, key: string, p: Peer)
    requires RoutesTo(sch, t, key, p)
    ensures forall q :: RoutesTo(sch, t, key, q) <==> q == p
  {
    hide LookupPeer;
  }

  lemma LoadIsPlaced<T(!new)>(sch: Scheme<T>, s: State<T>, t: nat, outcome: Option<string>)
    requires Placed(sch, s) && CanLoad(s, t)
    ensures MovePlaced(sch, s, t, LoadMove(s, t, outcome))
  {
    hide RoutesTo;
    var a := s.tasks[t];
    assert TasksPlaced(sch, s.nodes[a.node].table, a) && CachesPlaced(sch, a.node, s.nodes[a.node]);
  }

  lemma DeliveryIsPlaced<T(!new)>(sch: Scheme<T>, s: State<T>, t: nat)
    requires Placed(sch, s) && CanDeliver(s, t)
    ensures MovePlaced(sch, s, t, DeliverMove(s, t))
  {
    hide RoutesTo;
    var a := s.tasks[t];
    assert TasksPlaced(sch, s.nodes[a.node].table, a) && CachesPlaced(sch, a.node, s.nodes[a.node]);
    OneRoute(sch, s.nodes[a.node].table, a.key, a.phase.server);
  }

  lemma FailureIsPlaced<T(!new)>(sch: Scheme<T>, s: State<T>, t: nat)
    requires Placed(sch, s) && CanFail(s, t)
    ensures MovePlaced(sch, s, t, FailMove(s, t))
  {
    hide RoutesTo;
    var a := s.tasks[t];
    assert TasksPlaced(sch, s.nodes[a.node].table, a) && CachesPlaced(sch, a.node, s.nodes[a.node]);
    if a.phase.Requesting? {
      OneRoute(sch, s.nodes[a.node].table, a.key, a.phase.server);
    }
  }

  lemma MoveIsPlaced<T(!new)>(cfg: Config<T>, s: State<T>, act: Action<T>)
    requires Inv(cfg.sch, s) && Placed(cfg.sch, s) && Enabled(s, act) && IsTaskAction(act)
    ensures MovePlaced(cfg.sch, s, act.t, TaskMove(cfg, s, act))
  {
    hide Inv, Placed, MovePlaced, StepMove, LoadMove, DeliverMove, FailMove;
    match act
    case Step(t) =>
      if s.tasks[t].op.Remove? {
        RemoveIsPlaced(cfg, s, t);
      } else if InFlight(s.tasks[t]) {
        FlightIsPlaced(cfg, s, t);
      } else {
        ProbeIsPlaced(cfg, s, t);
      }
    case LoadReturns(t, outcome) => LoadIsPlaced(cfg.sch, s, t, outcome);
    case Deliver(t) => DeliveryIsPlaced(cfg.sch, s, t);
    case RpcFails(t) => FailureIsPlaced(cfg.sch, s, t);
  }

  lemma CommitKeepsPlaced<T(!new)>(sch: Scheme<T>, s: State<T>, t: nat, m: Move<T>)
    requires Inv(sch, s) && Placed(sch, s) && t < |s.tasks| && s.tasks[t].node in s.nodes && MovePlaced(sch, s, t, m)
    ensures Placed(sch, Commit(s, t, m))
  {
    hide RoutesTo, TasksPlaced, CachesPlaced, Inv;
    ChildrenAreOld(sch, s);
    var s' := Commit(s, t, m);
    forall i: nat | i < |s'.tasks|
      ensures s'.tasks[i].node in s'.nodes && TasksPlaced(sch, s'.nodes[s'.tasks[i].node].table, s'.tasks[i])
      ensures ChildPlaced(sch, s', s'.tasks[i])
    {
      if i < |s.tasks| {
        assert ChildPlaced(sch, s, s.tasks[i]);
      } else {
        FreshIsPlaced(sch, s'.nodes[s'.tasks[i].node].table, s'.tasks[i]);
      }
    }
  }

  lemma FreshIsPlaced<T>(sch: Scheme<T>, t: Table<T>, a: Task)
    requires a.phase.Fresh?
    ensures TasksPlaced(sch, t, a)
  {
  }

  lemma EnvironmentKeepsPlaced<T(!new)>(cfg: Config<T>, s: State<T>, act: Action<T>)
    requires Inv(cfg.sch, s) && Placed(cfg.sch, s) && Enabled(s, act) && !IsTaskAction(act) && !act.ReplaceTable?
    ensures Placed(cfg.sch, Apply(cfg, s, act))
  {
    hide RoutesTo, Inv;
    ChildrenAreOld(cfg.sch, s);
  }

  lemma ActionKeepsPlaced<T(!new)>(cfg: Config<T>, s: State<T>, act: Action<T>)
    requires Inv(cfg.sch, s) && Placed(cfg.sch, s) && Enabled(s, act) && !act.ReplaceTable?
    ensures Placed(cfg.sch, Apply(cfg, s, act))
  {
    hide Placed, TaskMove, Inv;
    if IsTaskAction(act) {
      MoveIsPlaced(cfg, s, act);
      MoversHaveNodes(s, act);
      CommitKeepsPlaced(cfg.sch, s, act.t, TaskMove(cfg, s, act));
    } else {
      EnvironmentKeepsPlaced(cfg, s, act);
    }
  }

  lemma MoversHaveNodes<T>(s: State<T>, act: Action<T>)
    requires Enabled(s, act) && IsTaskAction(act)
    ensures act.t < |s.tasks| && s.tasks[act.t].node in s.nodes
  {
  }

  lemma ChildrenAreOld<T>(sch: Scheme<T>, s: State<T>)
    requires Inv(sch, s)
    ensures forall i: nat | i < |s.tasks| && s.tasks[i].child.Some? :: s.tasks[i].child.value < |s.tasks|
  {
    hide OnOwnRing, FlightOk, PhaseOk, Nearer;
    forall i: nat | i < |s.tasks| && s.tasks[i].child.Some? ensures s.tasks[i].child.value < |s.tasks| {
      assert TaskOk(sch, s, i);
    }
  }

  ghost predicate TablesFixed<T>(acts: seq<Action<T>>) {
    forall act | act in acts :: !act.ReplaceTable?
  }

  lemma StartUpIsPlaced<T>(sch: Scheme<T>, s: State<T>)
    requires Init(s)
    ensures Placed(sch, s)
  {
  }

  /** While tables do not change, caches and tasks stay where ownership puts them. */
  lemma {:induction false} RunsStayPlaced<T(!new)>(cfg: Config<T>, s: State<T>, acts: seq<Action<T>>, final: State<T>)
    requires Sound(cfg.sch) && Inv(cfg.sch, s) && Placed(cfg.sch, s) && Runs(cfg, s, acts, final) && TablesFixed(acts)
    ensures Inv(cfg.sch, final) && Placed(cfg.sch, final)
    ensures final.nodes.Keys == s.nodes.Keys && forall n | n in s.nodes :: final.nodes[n].table == s.nodes[n].table
    decreases |acts|
  {
    hide Inv, Placed, Apply;
    if acts != [] {
      ActionKeepsInv(cfg, s, acts[0]);
      ActionKeepsPlaced(cfg, s, acts[0]);
      ActionKeepsTables(cfg, s, acts[0]);
      RunsStayPlaced(cfg, Apply(cfg, s, acts[0]), acts[1..], final);
    }
  }

  lemma ActionKeepsTables<T(!new)>(cfg: Config<T>, s: State<T>, act: Action<T>)
    requires Inv(cfg.sch, s) && Placed(cfg.sch, s) && Enabled(s, act) && !act.ReplaceTable?
    ensures var s' := Apply(cfg, s, act);
            s'.nodes.Keys == s.nodes.Keys && forall n | n in s.nodes :: s'.nodes[n].table == s.nodes[n].table
  {
    hide Inv, Placed, TaskMove, CachesPlaced, TasksPlaced, RoutesTo;
    if IsTaskAction(act) {
      MoveIsPlaced(cfg, s, act);
      MoversHaveNodes(s, act);
    }
  }

  /** A node never holds a key in both caches. */
  lemma CachesAreDisjoint<T>(sch: Scheme<T>, s: State<T>, n: Peer)
    requires Placed(sch, s) && n in s.nodes
    ensures s.nodes[n].main.Keys !! s.nodes[n].hot.Keys
  {
    hide RoutesTo;
    assert CachesPlaced(sch, n, s.nodes[n]);
  }

  // ------------------------------------------------------------- agreed views

  /** All nodes route the key to `owner`. */
  ghost predicate AllRouteTo<T>(sch: Scheme<T>, s: State<T>, key: string, owner: Peer) {
    forall n | n in s.nodes :: RoutesTo(sch, s.nodes[n].table, key, owner)
  }

  /** Nodes whose tables are in step and list the same members agree on the owner of every key. */
  lemma SameMembershipMeansOneOwner<T(!new)>(sch: Scheme<T>, s: State<T>, members: set<Peer>, key: string)
    returns (owner: Peer)
    requires Sound(sch) && s.nodes.Keys != {}
    requires forall n | n in s.nodes :: Synced(sch, n, s.nodes[n].table) && Members(n, s.nodes[n].table) == members
    ensures AllRouteTo(sch, s, key, owner) && IsOwner(sch, members, key, owner)
  {
    hide Synced, LookupPeer, PeerDistance;
    var m :| m in s.nodes;
    LookupFindsOwner(sch, m, s.nodes[m].table, key);
    owner := LookupPeer(sch, s.nodes[m].table, key).peer;
    forall n | n in s.nodes ensures RoutesTo(sch, s.nodes[n].table, key, owner) {
      SameMembersSameOwner(sch, m, s.nodes[m].table, n, s.nodes[n].table, key);
    }
  }

  /** With agreed views a key is in at most one main cache of the cluster, that of its owner. */
  lemma OneMainCachePerKey<T>(sch: Scheme<T>, s: State<T>, key: string, owner: Peer, n: Peer)
    requires Placed(sch, s) && AllRouteTo(sch, s, key, owner) && n in s.nodes
    ensures key in s.nodes[n].main ==> n == owner
    ensures key in s.nodes[n].hot ==> n != owner
  {
    hide RoutesTo;
    assert CachesPlaced(sch, n, s.nodes[n]);
    OneRoute(sch, s.nodes[n].table, key, owner);
  }

  /** With agreed views a request is served by the owner and never forwarded again: one hop at most. */
  lemma AgreedViewsNeedOneHop<T>(sch: Scheme<T>, s: State<T>, key: string, owner: Peer, path: seq<nat>)
    requires Inv(sch, s) && Placed(sch, s) && AllRouteTo(sch, s, key, owner)
    requires RequestChain(s.tasks, path) && path != [] && s.tasks[path[0]].key == key
    ensures |path| <= 2
    ensures |path| == 2 ==> s.tasks[path[1]].node == owner
  {
    hide RoutesTo, OnOwnRing, PhaseOk, Nearer, TasksPlaced;
    if |path| >= 2 {
      HopLeadsToOwner(sch, s, key, owner, path, 0);
    }
    if |path| >= 3 {
      ChainsDescend(sch, s, path, 0, 1);
      HopLeadsToOwner(sch, s, key, owner, path, 1);
      ChainsDescend(sch, s, path, 1, 2);
      NearerIsStrict(sch, key, owner);
    }
  }

  lemma HopLeadsToOwner<T>(sch: Scheme<T>, s: State<T>, key: string, owner: Peer, path: seq<nat>, x: nat)
    requires Placed(sch, s) && AllRouteTo(sch, s, key, owner)
    requires RequestChain(s.tasks, path) && x + 1 < |path| && s.tasks[path[x]].key == key
    ensures s.tasks[path[x + 1]].node == owner
  {
    hide RoutesTo, TasksPlaced;
    assert ChildPlaced(sch, s, s.tasks[path[x]]);
    OneRoute(sch, s.nodes[s.tasks[path[x]].node].table, key, owner);
  }

  lemma NearerIsStrict<T>(sch: Scheme<T>, key: string, p: Peer)
    ensures !Nearer(sch, key, p, p)
  {
    hide PeerDistance;
  }

  // --------------------------------------------------------- duplicate loads

  /** At any moment at most one load of a key runs on a node, whatever happens to tables and requests. */
  lemma OneLoadPerNode<T>(sch: Scheme<T>, s: State<T>, i: nat, j: nat)
    requires Inv(sch, s) && i < |s.tasks| && j < |s.tasks|
    requires InFlight(s.tasks[i]) && InFlight(s.tasks[j])
    requires s.tasks[i].node == s.tasks[j].node && s.tasks[i].key == s.tasks[j].key
    ensures i == j
  {
    hide OnOwnRing, PhaseOk, ChildOk;
    assert TaskOk(sch, s, i) && TaskOk(sch, s, j);
  }

  /** With agreed views at most one load of a key that does not follow a failed request runs in the whole cluster. */
  lemma OneOwnLoadPerCluster<T>(sch: Scheme<T>, s: State<T>, key: string, owner: Peer, i: nat, j: nat)
    requires Inv(sch, s) && Placed(sch, s) && AllRouteTo(sch, s, key, owner)
    requires i < |s.tasks| && s.tasks[i].op.Get? && s.tasks[i].phase.LoadingOwn? && s.tasks[i].key == key
    requires j < |s.tasks| && s.tasks[j].op.Get? && s.tasks[j].phase.LoadingOwn? && s.tasks[j].key == key
    ensures i == j && s.tasks[i].node == owner
  {
    hide RoutesTo, Inv;
    assert TasksPlaced(sch, s.nodes[s.tasks[i].node].table, s.tasks[i]);
    assert TasksPlaced(sch, s.nodes[s.tasks[j].node].table, s.tasks[j]);
    OneRoute(sch, s.nodes[s.tasks[i].node].table, key, owner);
    OneRoute(sch, s.nodes[s.tasks[j].node].table, key, owner);
    OneLoadPerNode(sch, s, i, j);
  }
}
