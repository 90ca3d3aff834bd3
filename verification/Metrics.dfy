/**
 Conservation of the exported metrics: every get is accounted for exactly once by what answered it, and the
 cluster never serves more remote gets than its nodes sent.
 */
module Metrics {
  import opened VNodes
  import opened Routing
  import opened NodeState
  import opened Cluster
  import opened Structure
  import opened Answers

  // --------------------------------------------------------- tallies of tasks

  /**
   Gets on a node that no metric has accounted for yet; gets for which a request is on its way; gets that a node has
   begun, those of them for other nodes, tasks that wait for its loader, gets that joined a flight or did some deed.
   */
  datatype Kind =
    | Uncounted(node: Peer)
    | Owed
    | Begun(node: Peer)
    | Served(node: Peer)
    | AtLoader(node: Peer)
    | Joiners(node: Peer)
    | Doers(node: Peer, deed: Deed)

  function Weight(kind: Kind, a: Task): nat {
    match kind
    case Uncounted(n) =>
      if a.op.Get? && a.node == n &&
         (a.phase.MissedMain? || a.phase.Unrouted? || a.phase.Routed? || a.phase.Leading? || a.phase.FallingBack?)
      then 1 else 0
    case Owed =>
      if a.op.Get? && (a.phase.Requesting? || (a.phase.Fresh? && a.origin.Request?)) then 1 else 0
    case Begun(n) => if a.op.Get? && a.node == n && !a.phase.Fresh? then 1 else 0
    case Served(n) => if a.op.Get? && a.node == n && !a.phase.Fresh? && a.origin.Request? then 1 else 0
    case AtLoader(n) => if a.node == n && Loading(a) then 1 else 0
    case Joiners(n) => if a.op.Get? && a.node == n && a.joined.Some? then 1 else 0
    case Doers(n, deed) => if a.op.Get? && a.node == n && deed in a.did then 1 else 0
  }

  ghost function Tally(kind: Kind, tasks: seq<Task>): nat {
    if tasks == [] then 0 else Tally(kind, tasks[..|tasks| - 1]) + Weight(kind, tasks[|tasks| - 1])
  }

  lemma {:induction false} TallyOfUpdate(kind: Kind, tasks: seq<Task>, t: nat, a: Task)
    requires t < |tasks|
    ensures Tally(kind, tasks[t := a]) == Tally(kind, tasks) - Weight(kind, tasks[t]) + Weight(kind, a)
  {
    hide Weight;
    var last := |tasks| - 1;
    if t < last {
      TallyOfUpdate(kind, tasks[..last], t, a);
      assert tasks[t := a][..last] == tasks[..last][t := a];
    } else {
      assert tasks[t := a][..last] == tasks[..last];
    }
  }

  lemma TallyOfAppend(kind: Kind, tasks: seq<Task>, a: Task)
    ensures Tally(kind, tasks + [a]) == Tally(kind, tasks) + Weight(kind, a)
  {
    hide Weight;
    assert (tasks + [a])[..|tasks|] == tasks;
  }

  function StartedWeight(kind: Kind, started: seq<Task>): nat {
    if started == [] then 0 else Weight(kind, started[0])
  }

  lemma TallyOfCommit<T>(kind: Kind, s: State<T>, t: nat, m: Move<T>)
    requires t < |s.tasks| && |m.started| <= 1
    ensures Tally(kind, Commit(s, t, m).tasks)
         == Tally(kind, s.tasks) - Weight(kind, s.tasks[t]) + Weight(kind, m.task) + StartedWeight(kind, m.started)
  {
    hide Weight, Tally;
    TallyOfUpdate(kind, s.tasks, t, m.task);
    var updated := s.tasks[t := m.task];
    if m.started == [] {
      assert updated + m.started == updated;
    } else {
      assert m.started == [m.started[0]];
      TallyOfAppend(kind, updated, m.started[0]);
    }
  }

  // ------------------------------------------------------------ one node's gets

  /**
   Every get so far is a hit, a join, a load, unroutable, or not accounted for yet; a failed remote load is replaced
   by a local one.
   */
  predicate Balanced(c: Counters, uncounted: nat) {
    c.gets + c.remoteLoadErrors == c.hits + c.joins + c.localLoads + c.remoteLoads + c.unroutable + uncounted
  }

  ghost predicate AllBalanced<T>(s: State<T>) {
    forall n | n in s.nodes :: Balanced(s.nodes[n].c, Tally(Uncounted(n), s.tasks))
  }

  /** A move changes the counters of its node as it changes the weight of its task. */
  predicate MoveBalances<T>(s: State<T>, t: nat, m: Move<T>)
    requires t < |s.tasks| && s.tasks[t].node in s.nodes
  {
    var a := s.tasks[t];
    var c, c' := s.nodes[a.node].c, m.node.c;
    && m.task.node == a.node && |m.started| <= 1
    && (forall b | b in m.started :: b.phase.Fresh?)
    && c'.gets - c.gets + c'.remoteLoadErrors - c.remoteLoadErrors
    == c'.hits - c.hits + c'.joins - c.joins + c'.localLoads - c.localLoads
       + c'.remoteLoads - c.remoteLoads + c'.unroutable - c.unroutable
       + Weight(Uncounted(a.node), m.task) - Weight(Uncounted(a.node), a)
    && c'.serverGets - c.serverGets + Weight(Owed, m.task) + StartedWeight(Owed, m.started) - Weight(Owed, a)
    <= c'.remoteLoads - c.remoteLoads
  }

  lemma ProbeStepBalances<T>(cfg: Config<T>, s: State<T>, t: nat)
    requires CanStep(s, t) && s.tasks[t].op.Get? && !InFlight(s.tasks[t])
    ensures MoveBalances(s, t, StepMove(cfg, s, t))
  {
    hide LookupPeer;
  }

  predicate Decides(a: Task) {
    a.phase.Leading? || a.phase.Awaiting?
  }

  lemma DecisionBalances<T>(cfg: Config<T>, s: State<T>, t: nat)
    requires CanStep(s, t) && InFlight(s.tasks[t]) && Decides(s.tasks[t])
    ensures MoveBalances(s, t, StepMove(cfg, s, t))
  {
    hide LookupPeer;
  }

  lemma FlightStepBalances<T>(cfg: Config<T>, s: State<T>, t: nat)
    requires CanStep(s, t) && InFlight(s.tasks[t]) && !Decides(s.tasks[t])
    ensures MoveBalances(s, t, StepMove(cfg, s, t))
  {
    hide LookupPeer;
  }

  lemma RemoveStepBalances<T>(cfg: Config<T>, s: State<T>, t: nat)
    requires CanStep(s, t) && s.tasks[t].op.Remove?
    ensures MoveBalances(s, t, StepMove(cfg, s, t))
  {
    hide LookupPeer;
  }

  lemma OtherMovesBalance<T>(cfg: Config<T>, s: State<T>, act: Action<T>)
    requires Enabled(s, act) && IsTaskAction(act) && !act.Step?
    ensures MoveBalances(s, act.t, TaskMove(cfg, s, act))
  {
  }

  lemma MovesBalance<T>(cfg: Config<T>, s: State<T>, act: Action<T>)
    requires Enabled(s, act) && IsTaskAction(act)
    ensures act.t < |s.tasks| && s.tasks[act.t].node in s.nodes && MoveBalances(s, act.t, TaskMove(cfg, s, act))
  {
    hide MoveBalances, StepMove, LoadMove, DeliverMove, FailMove;
    if !act.Step? {
      OtherMovesBalance(cfg, s, act);
    } else if InFlight(s.tasks[act.t]) {
      if Decides(s.tasks[act.t]) {
        DecisionBalances(cfg, s, act.t);
      } else {
        FlightStepBalances(cfg, s, act.t);
      }
    } else if s.tasks[act.t].op.Get? {
      ProbeStepBalances(cfg, s, act.t);
    } else {
      RemoveStepBalances(cfg, s, act.t);
    }
  }

  lemma ActionKeepsBalance<T>(cfg: Config<T>, s: State<T>, act: Action<T>)
    requires AllBalanced(s) && Enabled(s, act)
    ensures AllBalanced(Apply(cfg, s, act))
  {
    hide TaskMove, Tally;
    var s' := Apply(cfg, s, act);
    forall n | n in s'.nodes ensures Balanced(s'.nodes[n].c, Tally(Uncounted(n), s'.tasks)) {
      assert n in s.nodes ==> Balanced(s.nodes[n].c, Tally(Uncounted(n), s.tasks));
      if IsTaskAction(act) {
        MovesBalance(cfg, s, act);
        TallyOfCommit(Uncounted(n), s, act.t, TaskMove(cfg, s, act));
      } else if act.Call? {
        TallyOfAppend(Uncounted(n), s.tasks, NewTask(act.op, act.node, act.key, Caller, s.now, s.clock));
      }
    }
  }

  lemma {:induction false} RunsStayBalanced<T>(cfg: Config<T>, s: State<T>, acts: seq<Action<T>>, final: State<T>)
    requires AllBalanced(s) && Runs(cfg, s, acts, final)
    ensures AllBalanced(final)
    decreases |acts|
  {
    hide AllBalanced, Apply;
    if acts != [] {
      ActionKeepsBalance(cfg, s, acts[0]);
      RunsStayBalanced(cfg, Apply(cfg, s, acts[0]), acts[1..], final);
    }
  }

  lemma {:induction false} QuietNodesOweNothing(tasks: seq<Task>, n: Peer)
    requires forall i | 0 <= i < |tasks| && tasks[i].node == n :: tasks[i].phase.Finished?
    ensures Tally(Uncounted(n), tasks) == 0
  {
    if tasks != [] {
      QuietNodesOweNothing(tasks[..|tasks| - 1], n);
    }
  }

  /** On a quiet node whose own table is in step the metrics add up exactly, whatever the other tables are. */
  lemma GetsAreConserved<T(!new)>(cfg: Config<T>, s: State<T>, acts: seq<Action<T>>, final: State<T>, n: Peer)
    requires Sound(cfg.sch) && Init(s) && Runs(cfg, s, acts, final)
    requires forall m | m in s.nodes :: OnOwnRing(cfg.sch, m, s.nodes[m].table)
    requires n in s.nodes && TableSynced(cfg.sch, n, s.nodes[n].table)
    requires forall act | act in acts :: SyncedFair(cfg.sch, n, act)
    requires forall i | 0 <= i < |final.tasks| && final.tasks[i].node == n :: final.tasks[i].phase.Finished?
    ensures n in final.nodes
    ensures var c := final.nodes[n].c;
            c.gets == c.hits + c.joins + c.localLoads + c.remoteLoads - c.remoteLoadErrors
  {
    hide Runs, TableSynced, OnOwnRing, SyncedFair, Inv, Coherent, Tally;
    StartUpIsCoherent(cfg.sch, s);
    StartUpIsBalanced(s);
    StartUpIsMasked(cfg.sch, s, n);
    RunsAreMasked(cfg, s, acts, final, n);
    RunsStayBalanced(cfg, s, acts, final);
    QuietNodesOweNothing(final.tasks, n);
  }

  lemma StartUpIsBalanced<T>(s: State<T>)
    requires Init(s)
    ensures AllBalanced(s)
  {
  }

  // ---------------------------------------------------------- the whole cluster

  datatype Metric = ServerGets | RemoteLoads

  function Read(metric: Metric, c: Counters): nat {
    match metric
    case ServerGets => c.serverGets
    case RemoteLoads => c.remoteLoads
  }

  ghost function Sum<T>(metric: Metric, nodes: map<Peer, Node<T>>): nat {
    if nodes == map[] then 0
    else
      var n :| n in nodes;
      Read(metric, nodes[n].c) + Sum(metric, nodes - {n})
  }

  lemma {:induction false} SumWithout<T>(metric: Metric, nodes: map<Peer, Node<T>>, n: Peer)
    requires n in nodes
    ensures Sum(metric, nodes) == Read(metric, nodes[n].c) + Sum(metric, nodes - {n})
    decreases |nodes|
  {
    hide Read;
    var m :| m in nodes && Sum(metric, nodes) == Read(metric, nodes[m].c) + Sum(metric, nodes - {m});
    if m != n {
      SumWithout(metric, nodes - {m}, n);
      SumWithout(metric, nodes - {n}, m);
      assert nodes - {m} - {n} == nodes - {n} - {m};
    }
  }

  lemma SumOfUpdate<T>(metric: Metric, nodes: map<Peer, Node<T>>, n: Peer, node: Node<T>)
    requires n in nodes
    ensures Sum(metric, nodes[n := node]) == Sum(metric, nodes) - Read(metric, nodes[n].c) + Read(metric, node.c)
  {
    hide Sum, Read;
    SumWithout(metric, nodes, n);
    SumWithout(metric, nodes[n := node], n);
    assert nodes[n := node] - {n} == nodes - {n};
  }

  /** Gets served for other nodes, and requests on their way, never exceed the remote loads counted by their senders. */
  ghost predicate ServedWereSent<T>(s: State<T>) {
    Sum(ServerGets, s.nodes) + Tally(Owed, s.tasks) <= Sum(RemoteLoads, s.nodes)
  }

  lemma ActionKeepsServed<T>(cfg: Config<T>, s: State<T>, act: Action<T>)
    requires ServedWereSent(s) && Enabled(s, act)
    ensures ServedWereSent(Apply(cfg, s, act))
  {
    hide TaskMove, Tally, Sum;
    if IsTaskAction(act) {
      var m, n := TaskMove(cfg, s, act), s.tasks[act.t].node;
      MovesBalance(cfg, s, act);
      TallyOfCommit(Owed, s, act.t, m);
      SumOfUpdate(ServerGets, s.nodes, n, m.node);
      SumOfUpdate(RemoteLoads, s.nodes, n, m.node);
    } else {
      EnvironmentKeepsServed(cfg, s, act);
    }
  }

  lemma EnvironmentKeepsServed<T>(cfg: Config<T>, s: State<T>, act: Action<T>)
    requires ServedWereSent(s) && Enabled(s, act) && !IsTaskAction(act)
    ensures ServedWereSent(Apply(cfg, s, act))
  {
    hide Tally, Sum;
    match act
    case Call(op, node, key) => TallyOfAppend(Owed, s.tasks, NewTask(op, node, key, Caller, s.now, s.clock));
    case EvictMain(n, key) =>
      SumOfUpdate(ServerGets, s.nodes, n, s.nodes[n].ClearMain(key));
      SumOfUpdate(RemoteLoads, s.nodes, n, s.nodes[n].ClearMain(key));
    case EvictHot(n, key) =>
      SumOfUpdate(ServerGets, s.nodes, n, s.nodes[n].ClearHot(key));
      SumOfUpdate(RemoteLoads, s.nodes, n, s.nodes[n].ClearHot(key));
    case ReplaceTable(n, table) =>
      SumOfUpdate(ServerGets, s.nodes, n, s.nodes[n].(table := table));
      SumOfUpdate(RemoteLoads, s.nodes, n, s.nodes[n].(table := table));
    case _ =>
  }

  /**
   In every run from start-up, whatever happens, no more gets are served for other nodes than remote loads were
   counted.
   */
  lemma {:induction false} ServedNeverExceedSent<T>(cfg: Config<T>, s: State<T>, acts: seq<Action<T>>, final: State<T>)
    requires (Init(s) || ServedWereSent(s)) && Runs(cfg, s, acts, final)
    ensures ServedWereSent(final)
    decreases |acts|
  {
    hide ServedWereSent, Apply, Init;
    assert ServedWereSent(s) by { if Init(s) { StartUpServed(s); } }
    if acts != [] {
      ActionKeepsServed(cfg, s, acts[0]);
      ServedNeverExceedSent(cfg, Apply(cfg, s, acts[0]), acts[1..], final);
    }
  }

  lemma StartUpServed<T>(s: State<T>)
    requires Init(s)
    ensures ServedWereSent(s)
  {
    SumOfZeros(ServerGets, s.nodes);
    SumOfZeros(RemoteLoads, s.nodes);
  }

  lemma {:induction false} SumOfZeros<T>(metric: Metric, nodes: map<Peer, Node<T>>)
    requires forall n | n in nodes :: nodes[n].c == ZERO
    ensures Sum(metric, nodes) == 0
    decreases |nodes|
  {
    if nodes != map[] {
      var n :| n in nodes && Sum(metric, nodes) == Read(metric, nodes[n].c) + Sum(metric, nodes - {n});
      SumOfZeros(metric, nodes - {n});
    }
  }
}
