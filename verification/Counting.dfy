/**
 What the counters of gets and of local loads count, exactly: gets begun, gets begun for other nodes, calls of the
 loader, and those that failed.
 */
module Counting {
  import opened VNodes
  import opened Routing
  import opened NodeState
  import opened Cluster
  import opened Metrics

  ghost function LoadsBy(loads: seq<Load>, n: Peer, failedOnly: bool): nat {
    if loads == [] then 0
    else
      var last := loads[|loads| - 1];
      var counts := last.node == n && (failedOnly ==> last.outcome.None?);
      LoadsBy(loads[..|loads| - 1], n, failedOnly) + if counts then 1 else 0
  }

  lemma LoadsOfAppend(loads: seq<Load>, l: Load, n: Peer, failedOnly: bool)
    ensures LoadsBy(loads + [l], n, failedOnly)
         == LoadsBy(loads, n, failedOnly) + if l.node == n && (failedOnly ==> l.outcome.None?) then 1 else 0
  {
    assert (loads + [l])[..|loads|] == loads;
  }

  ghost predicate Counts(c: Counters, n: Peer, tasks: seq<Task>, loads: seq<Load>) {
    && c.gets == Tally(Begun(n), tasks)
    && c.serverGets == Tally(Served(n), tasks)
    && c.localLoads == LoadsBy(loads, n, false) + Tally(AtLoader(n), tasks)
    && c.localLoadErrors == LoadsBy(loads, n, true)
  }

  ghost predicate AllCount<T>(s: State<T>) {
    forall n | n in s.nodes :: Counts(s.nodes[n].c, n, s.tasks, s.loads)
  }

  /** A move changes the counters of its node as it changes the weights of its task and the log of loads. */
  predicate MoveCounts<T>(s: State<T>, t: nat, m: Move<T>)
    requires t < |s.tasks| && s.tasks[t].node in s.nodes
  {
    var a, b := s.tasks[t], m.task;
    var c, c' := s.nodes[a.node].c, m.node.c;
    && b.node == a.node && |m.started| <= 1
    && (forall x | x in m.started :: x.phase.Fresh?)
    && c'.gets - c.gets == Weight(Begun(a.node), b) - Weight(Begun(a.node), a)
    && c'.serverGets - c.serverGets == Weight(Served(a.node), b) - Weight(Served(a.node), a)
    && |m.loads| <= |s.loads| + 1
    && (if |m.loads| <= |s.loads| then m.loads == s.loads
        else m.loads == s.loads + [m.loads[|s.loads|]] && m.loads[|s.loads|].node == a.node)
    && c'.localLoads - c.localLoads == |m.loads| - |s.loads| + Weight(AtLoader(a.node), b) - Weight(AtLoader(a.node), a)
    && c'.localLoadErrors - c.localLoadErrors
    == if |m.loads| > |s.loads| && m.loads[|s.loads|].outcome.None? then 1 else 0
  }

  lemma ProbeStepCounts<T>(cfg: Config<T>, s: State<T>, t: nat)
    requires CanStep(s, t) && s.tasks[t].op.Get? && !InFlight(s.tasks[t])
    ensures MoveCounts(s, t, StepMove(cfg, s, t))
  {
    hide LookupPeer;
  }

  lemma DecisionCounts<T>(cfg: Config<T>, s: State<T>, t: nat)
    requires CanStep(s, t) && InFlight(s.tasks[t]) && Decides(s.tasks[t])
    ensures MoveCounts(s, t, StepMove(cfg, s, t))
  {
    hide LookupPeer;
  }

  lemma FlightStepCounts<T>(cfg: Config<T>, s: State<T>, t: nat)
    requires CanStep(s, t) && InFlight(s.tasks[t]) && !Decides(s.tasks[t])
    ensures MoveCounts(s, t, StepMove(cfg, s, t))
  {
    hide LookupPeer;
  }

  lemma RemoveStepCounts<T>(cfg: Config<T>, s: State<T>, t: nat)
    requires CanStep(s, t) && s.tasks[t].op.Remove?
    ensures MoveCounts(s, t, StepMove(cfg, s, t))
  {
    hide LookupPeer;
  }

  lemma OtherMovesCount<T>(cfg: Config<T>, s: State<T>, act: Action<T>)
    requires Enabled(s, act) && IsTaskAction(act) && !act.Step?
    ensures MoveCounts(s, act.t, TaskMove(cfg, s, act))
  {
  }

  lemma MovesCount<T>(cfg: Config<T>, s: State<T>, act: Action<T>)
    requires Enabled(s, act) && IsTaskAction(act)
    ensures act.t < |s.tasks| && s.tasks[act.t].node in s.nodes && MoveCounts(s, act.t, TaskMove(cfg, s, act))
  {
    hide MoveCounts, StepMove, LoadMove, DeliverMove, FailMove;
    if !act.Step? {
      OtherMovesCount(cfg, s, act);
    } else if s.tasks[act.t].op.Remove? {
      RemoveStepCounts(cfg, s, act.t);
    } else if !InFlight(s.tasks[act.t]) {
      ProbeStepCounts(cfg, s, act.t);
    } else if Decides(s.tasks[act.t]) {
      DecisionCounts(cfg, s, act.t);
    } else {
      FlightStepCounts(cfg, s, act.t);
    }
  }

  lemma CommitCounts<T>(s: State<T>, t: nat, m: Move<T>, n: Peer)
    requires t < |s.tasks| && s.tasks[t].node in s.nodes && MoveCounts(s, t, m)
    requires n in s.nodes && Counts(s.nodes[n].c, n, s.tasks, s.loads)
    ensures var s' := Commit(s, t, m); Counts(s'.nodes[n].c, n, s'.tasks, s'.loads)
  {
    hide Tally, LoadsBy;
    TallyOfCommit(Begun(n), s, t, m);
    TallyOfCommit(Served(n), s, t, m);
    TallyOfCommit(AtLoader(n), s, t, m);
    if |m.loads| > |s.loads| {
      LoadsOfAppend(s.loads, m.loads[|s.loads|], n, false);
      LoadsOfAppend(s.loads, m.loads[|s.loads|], n, true);
    }
  }

  lemma ActionKeepsCounts<T>(cfg: Config<T>, s: State<T>, act: Action<T>)
    requires AllCount(s) && Enabled(s, act)
    ensures AllCount(Apply(cfg, s, act))
  {
    hide TaskMove, Tally, LoadsBy, MoveCounts, Counts;
    var s' := Apply(cfg, s, act);
    forall n | n in s'.nodes ensures Counts(s'.nodes[n].c, n, s'.tasks, s'.loads) {
      if IsTaskAction(act) {
        MovesCount(cfg, s, act);
        CommitCounts(s, act.t, TaskMove(cfg, s, act), n);
      } else if act.Call? {
        CallCountsNothing(s, n, NewTask(act.op, act.node, act.key, Caller, s.now, s.clock));
      }
    }
  }

  lemma CallCountsNothing<T>(s: State<T>, n: Peer, a: Task)
    requires n in s.nodes && Counts(s.nodes[n].c, n, s.tasks, s.loads) && a.phase.Fresh?
    ensures Counts(s.nodes[n].c, n, s.tasks + [a], s.loads)
  {
    hide Tally;
    TallyOfAppend(Begun(n), s.tasks, a);
    TallyOfAppend(Served(n), s.tasks, a);
    TallyOfAppend(AtLoader(n), s.tasks, a);
  }

  lemma {:induction false} RunsKeepCounts<T>(cfg: Config<T>, s: State<T>, acts: seq<Action<T>>, final: State<T>)
    requires AllCount(s) && Runs(cfg, s, acts, final)
    ensures AllCount(final)
    decreases |acts|
  {
    hide AllCount, Apply;
    if acts != [] {
      ActionKeepsCounts(cfg, s, acts[0]);
      RunsKeepCounts(cfg, Apply(cfg, s, acts[0]), acts[1..], final);
    }
  }

  /**
   In every state of every run from start-up, whatever happens, the counters say what was begun and what was loaded.
   */
  lemma CountersAreExact<T>(cfg: Config<T>, s: State<T>, acts: seq<Action<T>>, final: State<T>, n: Peer)
    requires Init(s) && Runs(cfg, s, acts, final) && n in final.nodes
    ensures var c := final.nodes[n].c;
            && c.gets == Tally(Begun(n), final.tasks)
            && c.serverGets == Tally(Served(n), final.tasks)
            && c.localLoads == LoadsBy(final.loads, n, false) + Tally(AtLoader(n), final.tasks)
            && c.localLoadErrors == LoadsBy(final.loads, n, true)
  {
    hide Runs;
    RunsKeepCounts(cfg, s, acts, final);
  }
}
