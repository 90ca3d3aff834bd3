/**
 What holds in every reachable state of the cluster however tables change, as long as each node keeps its own
 virtual nodes on its own ring: flights and tasks match one to one, and each request went to a peer strictly
 nearer to the key than its sender.
 */
module Structure {
  import opened Wrappers
  import opened VNodes
  import opened Routing
  import opened Cluster

  ghost predicate RouteOk<T>(sch: Scheme<T>, a: Task, p: Peer, client: Option<Client>) {
    && (p == a.node || Nearer(sch, a.key, p, a.node))
    && (client.Some? ==> client.value.target == p)
  }

  ghost predicate PhaseOk<T>(sch: Scheme<T>, tasks: seq<Task>, a: Task) {
    match a.phase
    case Routed(p, client) => RouteOk(sch, a, p, client)
    case Leading(p, client) => RouteOk(sch, a, p, client)
    case Requesting(p) => Nearer(sch, a.key, p, a.node)
    case Awaiting => a.child.Some?
    case Following(l) =>
      && l < |tasks| && tasks[l].node == a.node && tasks[l].key == a.key
      && a.joined == Some(l) && tasks[l].joined.None?
      && (InFlight(tasks[l]) || (tasks[l].op.Get? && tasks[l].phase.Finished?))
    case _ => true
  }

  predicate MayHaveChild(a: Task) {
    || a.phase.Awaiting? || a.phase.FillingHot? || a.phase.FallingBack? || a.phase.LoadingFallback?
    || a.phase.Closing? || a.phase.Finished?
  }

  ghost predicate ChildOk<T>(sch: Scheme<T>, tasks: seq<Task>, i: nat, a: Task) {
    a.child.Some? ==>
      && MayHaveChild(a)
      && i < a.child.value < |tasks|
      && var b := tasks[a.child.value];
      && b.origin == Request(i) && b.op == a.op && b.key == a.key && Nearer(sch, a.key, b.node, a.node)
  }

  ghost predicate TaskOk<T>(sch: Scheme<T>, s: State<T>, i: nat)
    requires i < |s.tasks|
  {
    var a := s.tasks[i];
    && a.node in s.nodes
    && PhaseFits(a)
    && (a.joined.Some? ==> a.phase.Following? || a.phase.Finished?)
    && PhaseOk(sch, s.tasks, a)
    && ChildOk(sch, s.tasks, i, a)
    && (InFlight(a) ==> a.key in s.nodes[a.node].flights && s.nodes[a.node].flights[a.key] == i)
    && (a.origin.Request? ==> a.origin.parent < i && s.tasks[a.origin.parent].child == Some(i))
  }

  ghost predicate FlightOk<T>(s: State<T>, n: Peer, key: string)
    requires n in s.nodes && key in s.nodes[n].flights
  {
    var l := s.nodes[n].flights[key];
    l < |s.tasks| && s.tasks[l].node == n && s.tasks[l].key == key && InFlight(s.tasks[l])
  }

  ghost predicate Inv<T>(sch: Scheme<T>, s: State<T>) {
    && (forall n | n in s.nodes :: OnOwnRing(sch, n, s.nodes[n].table))
    && (forall i: nat | i < |s.tasks| :: TaskOk(sch, s, i))
    && (forall n, key | n in s.nodes && key in s.nodes[n].flights :: FlightOk(s, n, key))
  }

  /** The only demand on the environment: a replaced table still has the node on its own ring. */
  ghost predicate Fair<T>(sch: Scheme<T>, act: Action<T>) {
    act.ReplaceTable? ==> OnOwnRing(sch, act.node, act.table)
  }

  // ----------------------------------------------------------- one move

  /** How the flights of a node change when one of its tasks moves from `a` to `b`. */
  predicate FlightsFollow(t: nat, a: Task, b: Task, before: map<string, nat>, after: map<string, nat>) {
    if InFlight(a) == InFlight(b) then after == before
    else if InFlight(b) then a.key !in before && after == before[a.key := t]
    else b.phase.Finished? && after == before - {a.key}
  }

  /** What every move has in common. */
  ghost predicate MoveOk<T>(sch: Scheme<T>, s: State<T>, t: nat, m: Move<T>)
    requires t < |s.tasks| && s.tasks[t].node in s.nodes
  {
    var a := s.tasks[t];
    var b := m.task;
    && b.op == a.op && b.node == a.node && b.key == a.key && b.origin == a.origin && b.started == a.started
    && !a.phase.Finished?
    && PhaseFits(b)
    && (if a.phase.Routed? && b.phase.Following? then a.joined.None? else b.joined == a.joined)
    && (b.joined.Some? ==> b.phase.Following? || b.phase.Finished?)
    && PhaseOk(sch, s.tasks, b)
    && m.node.table == s.nodes[a.node].table
    && FlightsFollow(t, a, b, s.nodes[a.node].flights, m.node.flights)
    && (if m.started == [] then b.child == a.child && (a.child.Some? ==> MayHaveChild(b))
        else
          && a.child.None? && b.child == Some(|s.tasks|) && MayHaveChild(b)
          && exists p ::
               && p in s.nodes && Nearer(sch, a.key, p, a.node)
               && m.started == [NewTask(a.op, p, a.key, Request(t), s.now, s.clock)])
  }

  lemma ProbeStepIsOk<T(!new)>(cfg: Config<T>, s: State<T>, t: nat)
    requires Sound(cfg.sch) && Inv(cfg.sch, s) && CanStep(s, t) && s.tasks[t].op.Get? && !InFlight(s.tasks[t])
    ensures MoveOk(cfg.sch, s, t, StepMove(cfg, s, t))
  {
    hide Nearer, OnOwnRing, LookupPeer;
    var a := s.tasks[t];
    assert TaskOk(cfg.sch, s, t);
    if a.phase.Unrouted? {
      RouteDescends(cfg.sch, a.node, s.nodes[a.node].table, a.key);
    } else if a.phase.Routed? && a.key in s.nodes[a.node].flights {
      assert FlightOk(s, a.node, a.key) && TaskOk(cfg.sch, s, s.nodes[a.node].flights[a.key]);
    }
  }

  lemma FlightStepIsOk<T(!new)>(cfg: Config<T>, s: State<T>, t: nat)
    requires Inv(cfg.sch, s) && CanStep(s, t) && InFlight(s.tasks[t])
    ensures MoveOk(cfg.sch, s, t, StepMove(cfg, s, t))
  {
    hide Nearer, OnOwnRing, LookupPeer;
    assert TaskOk(cfg.sch, s, t);
  }

  lemma RemoveStepIsOk<T(!new)>(cfg: Config<T>, s: State<T>, t: nat)
    requires Sound(cfg.sch) && Inv(cfg.sch, s) && CanStep(s, t) && s.tasks[t].op.Remove?
    ensures MoveOk(cfg.sch, s, t, StepMove(cfg, s, t))
  {
    hide Nearer, OnOwnRing, LookupPeer;
    var a := s.tasks[t];
    assert TaskOk(cfg.sch, s, t);
    if a.phase.Unrouted? {
      RouteDescends(cfg.sch, a.node, s.nodes[a.node].table, a.key);
    }
  }

  lemma LoadIsOk<T(!new)>(sch: Scheme<T>, s: State<T>, t: nat, outcome: Option<string>)
    requires Inv(sch, s) && CanLoad(s, t)
    ensures MoveOk(sch, s, t, LoadMove(s, t, outcome))
  {
    hide Nearer, OnOwnRing;
    assert TaskOk(sch, s, t);
  }

  lemma DeliveryIsOk<T(!new)>(sch: Scheme<T>, s: State<T>, t: nat)
    requires Inv(sch, s) && CanDeliver(s, t)
    ensures MoveOk(sch, s, t, DeliverMove(s, t))
  {
    hide Nearer, OnOwnRing;
    assert TaskOk(sch, s, t);
  }

  lemma FailureIsOk<T(!new)>(sch: Scheme<T>, s: State<T>, t: nat)
    requires Inv(sch, s) && CanFail(s, t)
    ensures MoveOk(sch, s, t, FailMove(s, t))
  {
    hide Nearer, OnOwnRing;
    assert TaskOk(sch, s, t);
  }

  lemma MovesAreOk<T(!new)>(cfg: Config<T>, s: State<T>, act: Action<T>)
    requires Sound(cfg.sch) && Inv(cfg.sch, s) && Enabled(s, act) && IsTaskAction(act)
    ensures s.tasks[act.t].node in s.nodes
    ensures MoveOk(cfg.sch, s, act.t, TaskMove(cfg, s, act))
  {
    hide Inv, MoveOk, StepMove, LoadMove, DeliverMove, FailMove;
    match act
    case Step(t) =>
      if s.tasks[t].op.Remove? {
        RemoveStepIsOk(cfg, s, t);
      } else if InFlight(s.tasks[t]) {
        FlightStepIsOk(cfg, s, t);
      } else {
        ProbeStepIsOk(cfg, s, t);
      }
    case LoadReturns(t, outcome) => LoadIsOk(cfg.sch, s, t, outcome);
    case Deliver(t) => DeliveryIsOk(cfg.sch, s, t);
    case RpcFails(t) => FailureIsOk(cfg.sch, s, t);
  }

  // ---------------------------------------------------------- preservation

  lemma MoveKeepsMover<T>(sch: Scheme<T>, s: State<T>, t: nat, m: Move<T>)
    requires Inv(sch, s) && t < |s.tasks| && s.tasks[t].node in s.nodes && MoveOk(sch, s, t, m)
    ensures TaskOk(sch, Commit(s, t, m), t)
  {
    hide Nearer, OnOwnRing, FlightOk;
    assert TaskOk(sch, s, t);
  }

  lemma MoveKeepsBystander<T>(sch: Scheme<T>, s: State<T>, t: nat, m: Move<T>, i: nat)
    requires Inv(sch, s) && t < |s.tasks| && s.tasks[t].node in s.nodes && MoveOk(sch, s, t, m)
    requires i < |s.tasks| && i != t
    ensures TaskOk(sch, Commit(s, t, m), i)
  {
    OneTaskIsOk(sch, s, t);
    OneTaskIsOk(sch, s, i);
    hide Inv, Nearer;
  }

  lemma OneTaskIsOk<T>(sch: Scheme<T>, s: State<T>, i: nat)
    requires Inv(sch, s) && i < |s.tasks|
    ensures TaskOk(sch, s, i)
  {
  }

  lemma MoveStartsTask<T>(sch: Scheme<T>, s: State<T>, t: nat, m: Move<T>)
    requires t < |s.tasks| && s.tasks[t].node in s.nodes && MoveOk(sch, s, t, m) && m.started != []
    ensures |Commit(s, t, m).tasks| == |s.tasks| + 1
    ensures TaskOk(sch, Commit(s, t, m), |s.tasks|)
  {
    hide Nearer;
  }

  lemma MoveKeepsFlight<T>(sch: Scheme<T>, s: State<T>, t: nat, m: Move<T>, n: Peer, key: string)
    requires Inv(sch, s) && t < |s.tasks| && s.tasks[t].node in s.nodes && MoveOk(sch, s, t, m)
    requires n in Commit(s, t, m).nodes && key in Commit(s, t, m).nodes[n].flights
    ensures FlightOk(Commit(s, t, m), n, key)
  {
    hide Nearer, OnOwnRing, PhaseOk, ChildOk;
    assert TaskOk(sch, s, t);
    if key in s.nodes[n].flights {
      assert FlightOk(s, n, key);
    }
  }

  lemma MoveKeepsInv<T(!new)>(cfg: Config<T>, s: State<T>, act: Action<T>)
    requires Sound(cfg.sch) && Inv(cfg.sch, s) && Enabled(s, act) && IsTaskAction(act)
    ensures Inv(cfg.sch, Apply(cfg, s, act))
  {
    hide OnOwnRing, TaskOk, FlightOk, TaskMove;
    var t, m := act.t, TaskMove(cfg, s, act);
    MovesAreOk(cfg, s, act);
    var s' := Commit(s, t, m);
    forall i: nat | i < |s'.tasks| ensures TaskOk(cfg.sch, s', i) {
      if i == t {
        MoveKeepsMover(cfg.sch, s, t, m);
      } else if i < |s.tasks| {
        MoveKeepsBystander(cfg.sch, s, t, m, i);
      } else {
        MoveStartsTask(cfg.sch, s, t, m);
      }
    }
    forall n, key | n in s'.nodes && key in s'.nodes[n].flights ensures FlightOk(s', n, key) {
      MoveKeepsFlight(cfg.sch, s, t, m, n, key);
    }
  }

  lemma EnvironmentKeepsInv<T(!new)>(cfg: Config<T>, s: State<T>, act: Action<T>)
    requires Inv(cfg.sch, s) && Enabled(s, act) && !IsTaskAction(act) && Fair(cfg.sch, act)
    ensures Inv(cfg.sch, Apply(cfg, s, act))
  {
    hide Nearer, OnOwnRing;
    var s' := Apply(cfg, s, act);
    forall i: nat | i < |s'.tasks| ensures TaskOk(cfg.sch, s', i) {
      if i < |s.tasks| {
        assert TaskOk(cfg.sch, s, i);
      }
    }
    forall n, key | n in s'.nodes && key in s'.nodes[n].flights ensures FlightOk(s', n, key) {
      assert FlightOk(s, n, key);
    }
  }

  lemma ActionKeepsInv<T(!new)>(cfg: Config<T>, s: State<T>, act: Action<T>)
    requires Sound(cfg.sch) && Inv(cfg.sch, s) && Enabled(s, act) && Fair(cfg.sch, act)
    ensures Inv(cfg.sch, Apply(cfg, s, act))
  {
    hide Inv, Apply;
    if IsTaskAction(act) {
      MoveKeepsInv(cfg, s, act);
    } else {
      EnvironmentKeepsInv(cfg, s, act);
    }
  }

  /** Every state of every run from start-up is well structured. */
  lemma {:induction false} RunsKeepInv<T(!new)>(cfg: Config<T>, s: State<T>, acts: seq<Action<T>>, final: State<T>)
    requires Sound(cfg.sch) && Inv(cfg.sch, s) && Runs(cfg, s, acts, final)
    requires forall act | act in acts :: Fair(cfg.sch, act)
    ensures Inv(cfg.sch, final)
    decreases |acts|
  {
    hide Inv, Apply, Fair;
    if acts != [] {
      ActionKeepsInv(cfg, s, acts[0]);
      RunsKeepInv(cfg, Apply(cfg, s, acts[0]), acts[1..], final);
    }
  }

  lemma NothingRuns<T>(cfg: Config<T>, s: State<T>)
    ensures Runs(cfg, s, [], s)
  {
  }

  /** Runs can be extended at their end. */
  lemma {:induction false} RunsThenOne<T>(cfg: Config<T>, s: State<T>, acts: seq<Action<T>>, mid: State<T>,
                                          act: Action<T>)
    requires Runs(cfg, s, acts, mid) && Enabled(mid, act)
    ensures Runs(cfg, s, acts + [act], Apply(cfg, mid, act))
    decreases |acts|
  {
    hide Apply;
    if acts == [] {
      assert (acts + [act])[1..] == [];
      assert Runs(cfg, Apply(cfg, mid, act), [], Apply(cfg, mid, act));
    } else {
      assert (acts + [act])[1..] == acts[1..] + [act];
      RunsThenOne(cfg, Apply(cfg, s, acts[0]), acts[1..], mid, act);
    }
  }

  lemma {:induction false} RunsThenMore<T>(cfg: Config<T>, s: State<T>, acts: seq<Action<T>>, mid: State<T>,
                                           more: seq<Action<T>>, final: State<T>)
    requires Runs(cfg, s, acts, mid) && Runs(cfg, mid, more, final)
    ensures Runs(cfg, s, acts + more, final)
    decreases |acts|
  {
    hide Apply;
    if acts == [] {
      assert acts + more == more;
    } else {
      assert (acts + more)[1..] == acts[1..] + more;
      RunsThenMore(cfg, Apply(cfg, s, acts[0]), acts[1..], mid, more, final);
    }
  }
}
