/**
 Forwarding ends: no chain of requests visits a node twice, no set of tasks waits for each other in a circle,
 and every call is answered after a bounded number of steps, whatever the nodes believe about the membership.
 */
module Forwarding {
  import opened Wrappers
  import opened VNodes
  import opened Routing
  import opened Cluster
  import opened Structure

  // ------------------------------------------------------------- chains of requests

  /** Each task of the chain sent the request that the next one serves. */
  ghost predicate RequestChain(tasks: seq<Task>, path: seq<nat>) {
    && (forall x | 0 <= x < |path| :: path[x] < |tasks|)
    && (forall x | 0 <= x < |path| - 1 :: tasks[path[x]].child == Some(path[x + 1]))
  }

  lemma {:induction false} ChainsDescend<T>(sch: Scheme<T>, s: State<T>, path: seq<nat>, x: nat, y: nat)
    requires Inv(sch, s) && RequestChain(s.tasks, path) && x < y < |path|
    ensures s.tasks[path[x]].key == s.tasks[path[y]].key
    ensures Nearer(sch, s.tasks[path[x]].key, s.tasks[path[y]].node, s.tasks[path[x]].node)
    decreases y
  {
    hide PeerDistance, OnOwnRing, PhaseOk;
    assert TaskOk(sch, s, path[y - 1]);
    if x < y - 1 {
      ChainsDescend(sch, s, path, x, y - 1);
    }
  }

  /** A chain of forwarded gets or removes visits no node twice and has fewer hops than there are nodes. */
  lemma ForwardingIsLoopFree<T>(sch: Scheme<T>, s: State<T>, path: seq<nat>)
    requires Inv(sch, s) && RequestChain(s.tasks, path)
    ensures forall x, y | 0 <= x < y < |path| :: s.tasks[path[x]].node != s.tasks[path[y]].node
    ensures |path| <= |s.nodes|
  {
    hide PeerDistance, OnOwnRing, PhaseOk, ChildOk, RequestChain;
    VisitsAreTasks(s.tasks, path);
    var visited := seq(|path|, x requires 0 <= x < |path| => s.tasks[path[x]].node);
    forall x, y | 0 <= x < y < |path|
      ensures visited[x] == s.tasks[path[x]].node && visited[y] == s.tasks[path[y]].node && visited[x] != visited[y]
    {
      ChainsDescend(sch, s, path, x, y);
    }
    forall x | 0 <= x < |path| ensures visited[x] in s.nodes.Keys {
      assert TaskOk(sch, s, path[x]);
    }
    DistinctFit(visited, s.nodes.Keys);
  }

  lemma VisitsAreTasks(tasks: seq<Task>, path: seq<nat>)
    requires RequestChain(tasks, path)
    ensures forall x | 0 <= x < |path| :: path[x] < |tasks|
  {
  }

  lemma {:induction false} DistinctFit(visited: seq<Peer>, all: set<Peer>)
    requires forall x, y | 0 <= x < y < |visited| :: visited[x] != visited[y]
    requires forall x | 0 <= x < |visited| :: visited[x] in all
    ensures |visited| <= |all|
  {
    if visited != [] {
      var last := |visited| - 1;
      DistinctFit(visited[..last], all - {visited[last]});
    }
  }

  // ------------------------------------------------------------------- deadlock

  ghost predicate WaitsFor(tasks: seq<Task>, i: nat, j: nat) {
    && i < |tasks| && j < |tasks| && !tasks[j].phase.Finished?
    && ((tasks[i].phase.Awaiting? && tasks[i].child == Some(j)) || tasks[i].phase == Following(j))
  }

  /** Waiting leads to a node nearer to the key, or on the same node from a joiner to the leader of its flight. */
  ghost predicate Closer<T>(sch: Scheme<T>, a: Task, b: Task) {
    && b.key == a.key
    && (Nearer(sch, a.key, b.node, a.node) || (b.node == a.node && a.phase.Following? && !b.phase.Following?))
  }

  lemma WaitingDescends<T>(sch: Scheme<T>, s: State<T>, i: nat, j: nat)
    requires Inv(sch, s) && WaitsFor(s.tasks, i, j)
    ensures Closer(sch, s.tasks[i], s.tasks[j])
  {
    hide Nearer, OnOwnRing, FlightOk;
    assert TaskOk(sch, s, i);
  }

  lemma CloserIsTransitive<T>(sch: Scheme<T>, a: Task, b: Task, c: Task)
    requires Closer(sch, a, b) && Closer(sch, b, c)
    ensures Closer(sch, a, c)
  {
    hide PeerDistance;
  }

  ghost predicate WaitPath(tasks: seq<Task>, path: seq<nat>) {
    && |path| >= 2
    && forall x | 0 <= x < |path| - 1 :: WaitsFor(tasks, path[x], path[x + 1])
  }

  lemma {:induction false} WaitPathDescends<T>(sch: Scheme<T>, s: State<T>, path: seq<nat>)
    requires Inv(sch, s) && WaitPath(s.tasks, path)
    ensures path[0] < |s.tasks| && path[|path| - 1] < |s.tasks|
    ensures Closer(sch, s.tasks[path[0]], s.tasks[path[|path| - 1]])
  {
    hide Inv, Closer;
    var last := |path| - 1;
    assert WaitsFor(s.tasks, path[last - 1], path[last]);
    WaitingDescends(sch, s, path[last - 1], path[last]);
    if last > 1 {
      var front := path[..last];
      forall x | 0 <= x < |front| - 1 ensures WaitsFor(s.tasks, front[x], front[x + 1]) {
        assert WaitsFor(s.tasks, path[x], path[x + 1]);
      }
      WaitPathDescends(sch, s, front);
      CloserIsTransitive(sch, s.tasks[path[0]], s.tasks[path[last - 1]], s.tasks[path[last]]);
    }
  }

  /** The wait-for graph has no cycle, across all nodes and flights. */
  lemma NoCircularWait<T>(sch: Scheme<T>, s: State<T>, path: seq<nat>)
    requires Inv(sch, s) && WaitPath(s.tasks, path)
    ensures path[0] != path[|path| - 1]
  {
    hide Inv, PeerDistance;
    WaitPathDescends(sch, s, path);
  }

  /** The task can go on by itself; only a request to a peer that is no node must fail first. */
  ghost predicate Unblocked<T>(s: State<T>, j: nat) {
    || CanStep(s, j) || CanLoad(s, j) || CanDeliver(s, j)
    || (CanFail(s, j) && s.tasks[j].phase.Requesting? && s.tasks[j].phase.server !in s.nodes)
  }

  lemma BlockedTasksWait<T>(sch: Scheme<T>, s: State<T>, i: nat) returns (j: nat)
    requires Inv(sch, s) && i < |s.tasks| && !s.tasks[i].phase.Finished? && !Unblocked(s, i)
    ensures WaitsFor(s.tasks, i, j)
  {
    hide Nearer, OnOwnRing, FlightOk;
    assert TaskOk(sch, s, i);
    j := if s.tasks[i].phase.Following? then s.tasks[i].phase.leader else s.tasks[i].child.value;
  }

  /** Deadlock freedom: as long as any task is unfinished, some task that it waits for can go on. */
  lemma {:induction false} SomeTaskCanGoOn<T>(sch: Scheme<T>, s: State<T>, i: nat) returns (j: nat)
    requires Inv(sch, s) && i < |s.tasks| && !s.tasks[i].phase.Finished?
    ensures j < |s.tasks| && Unblocked(s, j)
    ensures j == i || Closer(sch, s.tasks[i], s.tasks[j])
    decreases PeerDistance(sch, s.tasks[i].node, s.tasks[i].key), if s.tasks[i].phase.Following? then 1 else 0
  {
    hide Inv, PeerDistance;
    if Unblocked(s, i) {
      j := i;
    } else {
      var k := BlockedTasksWait(sch, s, i);
      WaitingDescends(sch, s, i, k);
      j := SomeTaskCanGoOn(sch, s, k);
    }
  }

  // --------------------------------------------------------------- bounded work

  /** How many nodes are nearer to the key than `p`. */
  ghost function Rank<T>(sch: Scheme<T>, nodes: set<Peer>, key: string, p: Peer): nat {
    |set q | q in nodes && Nearer(sch, key, q, p)|
  }

  lemma NearerHasLowerRank<T>(sch: Scheme<T>, nodes: set<Peer>, key: string, p: Peer, q: Peer)
    requires p in nodes && Nearer(sch, key, p, q)
    ensures Rank(sch, nodes, key, p) < Rank(sch, nodes, key, q)
  {
    hide PeerDistance;
    var below, above := set r | r in nodes && Nearer(sch, key, r, p), set r | r in nodes && Nearer(sch, key, r, q);
    assert below <= above - {p};
    SubsetIsSmaller(below, above - {p});
  }

  lemma RankIsBounded<T>(sch: Scheme<T>, nodes: set<Peer>, key: string, p: Peer)
    requires p in nodes
    ensures Rank(sch, nodes, key, p) < |nodes|
  {
    hide PeerDistance;
    var below := set r | r in nodes && Nearer(sch, key, r, p);
    assert below <= nodes - {p};
    SubsetIsSmaller(below, nodes - {p});
  }

  lemma {:induction false} SubsetIsSmaller(a: set<Peer>, b: set<Peer>)
    requires a <= b
    ensures |a| <= |b|
  {
    if a != {} {
      var x :| x in a;
      SubsetIsSmaller(a - {x}, b - {x});
    }
  }

  /** The most steps a task itself may still take. */
  function OwnWork(phase: Phase): nat {
    match phase
    case Fresh => 10
    case MissedMain => 9
    case Unrouted => 8
    case Routed(_, _) => 7
    case Leading(_, _) => 6
    case Requesting(_) => 5
    case Awaiting => 4
    case FallingBack => 3
    case LoadingOwn(_) => 3
    case LoadingFallback(_) => 2
    case FillingMain(_) => 2
    case FillingHot(_) => 2
    case Closing(_) => 1
    case Following(_) => 1
    case Finished(_) => 0
  }

  predicate MaySendRequest(phase: Phase) {
    phase.Fresh? || phase.MissedMain? || phase.Unrouted? || phase.Routed? || phase.Leading? || phase.Requesting?
  }

  /** The most steps a task may still take together with all tasks its request starts, on this and other nodes. */
  ghost function TaskWork<T>(sch: Scheme<T>, nodes: set<Peer>, a: Task): nat {
    OwnWork(a.phase) + if MaySendRequest(a.phase) then 11 * Rank(sch, nodes, a.key, a.node) else 0
  }

  ghost function TotalWork<T>(sch: Scheme<T>, nodes: set<Peer>, tasks: seq<Task>): nat {
    if tasks == [] then 0
    else TotalWork(sch, nodes, tasks[..|tasks| - 1]) + TaskWork(sch, nodes, tasks[|tasks| - 1])
  }

  lemma {:induction false} WorkOfUpdate<T>(sch: Scheme<T>, nodes: set<Peer>, tasks: seq<Task>, t: nat, a: Task)
    requires t < |tasks|
    ensures TotalWork(sch, nodes, tasks[t := a])
         == TotalWork(sch, nodes, tasks) - TaskWork(sch, nodes, tasks[t]) + TaskWork(sch, nodes, a)
  {
    hide TaskWork;
    var last := |tasks| - 1;
    if t < last {
      WorkOfUpdate(sch, nodes, tasks[..last], t, a);
      assert tasks[t := a][..last] == tasks[..last][t := a];
    } else {
      assert tasks[t := a][..last] == tasks[..last];
    }
  }

  lemma WorkOfAppend<T>(sch: Scheme<T>, nodes: set<Peer>, tasks: seq<Task>, a: Task)
    ensures TotalWork(sch, nodes, tasks + [a]) == TotalWork(sch, nodes, tasks) + TaskWork(sch, nodes, a)
  {
    hide TaskWork;
    assert (tasks + [a])[..|tasks|] == tasks;
  }

  /** What a move leaves to do, on the task itself and on the one it starts. */
  ghost function WorkLeft<T>(sch: Scheme<T>, nodes: set<Peer>, m: Move<T>): nat {
    TaskWork(sch, nodes, m.task) + if m.started == [] then 0 else TaskWork(sch, nodes, m.started[0])
  }

  lemma StepUsesUpWork<T(!new)>(cfg: Config<T>, s: State<T>, t: nat)
    requires CanStep(s, t)
    ensures WorkLeft(cfg.sch, s.nodes.Keys, StepMove(cfg, s, t)) < TaskWork(cfg.sch, s.nodes.Keys, s.tasks[t])
  {
    hide LookupPeer, Rank;
  }

  lemma DeliveryUsesUpWork<T>(sch: Scheme<T>, s: State<T>, t: nat)
    requires Inv(sch, s) && CanDeliver(s, t)
    ensures WorkLeft(sch, s.nodes.Keys, DeliverMove(s, t)) < TaskWork(sch, s.nodes.Keys, s.tasks[t])
  {
    hide Nearer, OnOwnRing, Rank, FlightOk;
    assert TaskOk(sch, s, t);
    var a := s.tasks[t];
    NearerHasLowerRank(sch, s.nodes.Keys, a.key, a.phase.server, a.node);
  }

  lemma OutcomesUseUpWork<T>(sch: Scheme<T>, s: State<T>, act: Action<T>)
    requires Enabled(s, act) && (act.LoadReturns? || act.RpcFails?)
    ensures var m := if act.LoadReturns? then LoadMove(s, act.t, act.outcome) else FailMove(s, act.t);
            WorkLeft(sch, s.nodes.Keys, m) < TaskWork(sch, s.nodes.Keys, s.tasks[act.t])
  {
    hide Rank;
  }

  /** Every step of a task uses up work, including what it hands to the node that serves its request. */
  lemma MovesUseUpWork<T(!new)>(cfg: Config<T>, s: State<T>, act: Action<T>)
    requires Inv(cfg.sch, s) && Enabled(s, act) && IsTaskAction(act)
    ensures WorkLeft(cfg.sch, s.nodes.Keys, TaskMove(cfg, s, act)) < TaskWork(cfg.sch, s.nodes.Keys, s.tasks[act.t])
  {
    hide Inv, WorkLeft, TaskWork, StepMove, LoadMove, DeliverMove, FailMove;
    if act.Step? {
      StepUsesUpWork(cfg, s, act.t);
    } else if act.Deliver? {
      DeliveryUsesUpWork(cfg.sch, s, act.t);
    } else {
      OutcomesUseUpWork(cfg.sch, s, act);
    }
  }

  lemma CommitUsesUpWork<T>(sch: Scheme<T>, s: State<T>, t: nat, m: Move<T>)
    requires t < |s.tasks| && |m.started| <= 1
    requires WorkLeft(sch, s.nodes.Keys, m) < TaskWork(sch, s.nodes.Keys, s.tasks[t])
    ensures TotalWork(sch, s.nodes.Keys, Commit(s, t, m).tasks) < TotalWork(sch, s.nodes.Keys, s.tasks)
  {
    hide TaskWork, TotalWork;
    WorkOfUpdate(sch, s.nodes.Keys, s.tasks, t, m.task);
    var updated := s.tasks[t := m.task];
    if m.started == [] {
      assert updated + m.started == updated;
    } else {
      assert m.started == [m.started[0]];
      WorkOfAppend(sch, s.nodes.Keys, updated, m.started[0]);
    }
  }

  lemma MovesStartAtMostOne<T>(cfg: Config<T>, s: State<T>, act: Action<T>)
    requires Enabled(s, act) && IsTaskAction(act)
    ensures |TaskMove(cfg, s, act).started| <= 1
  {
    hide StepGet, StepRemove;
  }

  /** The most steps that all running tasks may still take, with everything they start. */
  ghost function Work<T>(sch: Scheme<T>, s: State<T>): nat {
    TotalWork(sch, s.nodes.Keys, s.tasks)
  }

  ghost function CallBudget<T>(s: State<T>): nat {
    11 * |s.nodes|
  }

  /** A step of a task lowers the work left; a new call raises it by less than its budget; nothing else changes it. */
  lemma ActionWork<T(!new)>(cfg: Config<T>, s: State<T>, act: Action<T>)
    requires Inv(cfg.sch, s) && Enabled(s, act)
    ensures var s' := Apply(cfg, s, act);
            && (IsTaskAction(act) ==> s'.nodes.Keys == s.nodes.Keys && Work(cfg.sch, s') < Work(cfg.sch, s))
            && (act.Call? ==> s'.nodes.Keys == s.nodes.Keys && Work(cfg.sch, s') < Work(cfg.sch, s) + CallBudget(s))
            && (!IsTaskAction(act) && !act.Call? ==>
                  s'.nodes.Keys == s.nodes.Keys && Work(cfg.sch, s') == Work(cfg.sch, s))
  {
    hide OnOwnRing, TotalWork, TaskMove, WorkLeft, Rank;
    if IsTaskAction(act) {
      assert TaskOk(cfg.sch, s, act.t);
      MovesUseUpWork(cfg, s, act);
      MovesStartAtMostOne(cfg, s, act);
      CommitUsesUpWork(cfg.sch, s, act.t, TaskMove(cfg, s, act));
    } else if act.Call? {
      var a := NewTask(act.op, act.node, act.key, Caller, s.now, s.clock);
      WorkOfAppend(cfg.sch, s.nodes.Keys, s.tasks, a);
      RankIsBounded(cfg.sch, s.nodes.Keys, act.key, act.node);
      assert |s.nodes.Keys| == |s.nodes|;
    }
  }

  function Count<T>(acts: seq<Action<T>>, wanted: Action<T> -> bool): nat {
    if acts == [] then 0 else (if wanted(acts[0]) then 1 else 0) + Count(acts[1..], wanted)
  }

  function TaskActions<T>(acts: seq<Action<T>>): nat {
    Count(acts, act => IsTaskAction(act))
  }

  function Calls<T>(acts: seq<Action<T>>): nat {
    Count(acts, (act: Action<T>) => act.Call?)
  }

  /**
   In every run the steps of all tasks together number at most eleven per call and node, whatever tables, failures
   and evictions do.
   */
  lemma {:induction false} WorkIsBounded<T(!new)>(cfg: Config<T>, s: State<T>, acts: seq<Action<T>>, final: State<T>)
    requires Sound(cfg.sch) && Inv(cfg.sch, s) && Runs(cfg, s, acts, final)
    requires forall act | act in acts :: Fair(cfg.sch, act)
    ensures TaskActions(acts) + Work(cfg.sch, final) <= Work(cfg.sch, s) + CallBudget(s) * Calls(acts)
    decreases |acts|
  {
    hide Inv, Apply, Work, Fair;
    if acts != [] {
      var s' := Apply(cfg, s, acts[0]);
      ActionWork(cfg, s, acts[0]);
      ActionKeepsInv(cfg, s, acts[0]);
      WorkIsBounded(cfg, s', acts[1..], final);
      assert |s'.nodes.Keys| == |s'.nodes| && |s.nodes.Keys| == |s.nodes|;
      BudgetStep(CallBudget(s), Calls(acts[1..]));
    }
  }

  lemma BudgetStep(b: nat, c: nat)
    ensures b * (c + 1) == b * c + b
  {
  }

  /**
   Left alone, every task is answered, whatever the loaders return: from any reachable state steps of tasks alone
   lead to a state in which all are finished.
   */
  lemma {:induction false} EveryTaskCanFinish<T(!new)>(cfg: Config<T>, s: State<T>, loader: nat -> Option<string>)
    returns (acts: seq<Action<T>>, final: State<T>)
    requires Sound(cfg.sch) && Inv(cfg.sch, s)
    ensures Runs(cfg, s, acts, final) && forall act | act in acts :: IsTaskAction(act)
    ensures |final.tasks| >= |s.tasks| && forall i | 0 <= i < |final.tasks| :: final.tasks[i].phase.Finished?
    decreases Work(cfg.sch, s)
  {
    hide Inv, Work, Unblocked, Apply;
    if i: nat :| i < |s.tasks| && !s.tasks[i].phase.Finished? {
      var j := SomeTaskCanGoOn(cfg.sch, s, i);
      var act := ActionOf(s, j, loader);
      ActionWork(cfg, s, act);
      ActionKeepsInv(cfg, s, act);
      TasksAreKept(cfg, s, act);
      var rest;
      rest, final := EveryTaskCanFinish(cfg, Apply(cfg, s, act), loader);
      acts := [act] + rest;
      assert acts[1..] == rest;
    } else {
      acts, final := [], s;
    }
  }

  ghost function ActionOf<T>(s: State<T>, j: nat, loader: nat -> Option<string>): (act: Action<T>)
    requires Unblocked(s, j)
    ensures IsTaskAction(act) && Enabled(s, act)
  {
    if CanStep(s, j) then Step(j) else if CanLoad(s, j) then LoadReturns(j, loader(j))
    else if CanDeliver(s, j) then Deliver(j) else RpcFails(j)
  }

  lemma TasksAreKept<T>(cfg: Config<T>, s: State<T>, act: Action<T>)
    requires Enabled(s, act)
    ensures |Apply(cfg, s, act).tasks| >= |s.tasks|
  {
    hide TaskMove;
  }
}
