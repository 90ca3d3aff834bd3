/**
 What the counters of hits, joined flights and remote loads count, exactly: gets that a cache answered, gets that
 joined a flight, requests sent, and requests that failed. The gets are told apart by what they did, which each of them
 records once.
 */
module Deeds {
  import opened Wrappers
  import opened VNodes
  import opened Routing
  import opened NodeState
  import opened Cluster
  import opened Structure
  import opened Metrics
  import opened Answers

  /** What a get has done fits the point that it has reached, so that nothing can be done twice. */
  predicate DeedsOk(a: Task) {
    && (HitCache in a.did ==> a.phase.Finished? && a.phase.answer.Ok? && a.joined.None? && SentRequest !in a.did)
    && (SentRequest in a.did ==> a.op.Get? && a.joined.None? && PastRequest(a.phase))
    && (RequestFailed in a.did ==>
          && SentRequest in a.did && !a.phase.Requesting? && !a.phase.Awaiting? && !a.phase.FillingHot?)
    && (a.op.Get? && (a.phase.Requesting? || a.phase.Awaiting? || a.phase.FillingHot?) ==> SentRequest in a.did)
    && (a.op.Get? && (a.phase.FallingBack? || a.phase.LoadingFallback?) ==> RequestFailed in a.did)
    && (a.joined.Some? ==> a.phase.Following? || a.phase.Finished?)
  }

  predicate PastRequest(phase: Phase) {
    || phase.Requesting? || phase.Awaiting? || phase.FillingHot? || phase.FallingBack? || phase.LoadingFallback?
    || phase.Closing? || phase.Finished?
  }

  ghost predicate Counts(c: Counters, n: Peer, tasks: seq<Task>) {
    && c.hits == Tally(Doers(n, HitCache), tasks)
    && c.joins == Tally(Joiners(n), tasks)
    && c.remoteLoads == Tally(Doers(n, SentRequest), tasks)
    && c.remoteLoadErrors == Tally(Doers(n, RequestFailed), tasks)
  }

  ghost predicate AllCount<T>(s: State<T>) {
    && (forall n | n in s.nodes :: Counts(s.nodes[n].c, n, s.tasks))
    && (forall i: nat | i < |s.tasks| :: DeedsOk(s.tasks[i]))
  }

  function Gain(kind: Kind, a: Task, b: Task): int {
    Weight(kind, b) - Weight(kind, a)
  }

  /** A move changes the counters of its node as it changes what its task has done. */
  predicate MoveCounts<T>(s: State<T>, t: nat, m: Move<T>)
    requires t < |s.tasks| && s.tasks[t].node in s.nodes
  {
    var a, b := s.tasks[t], m.task;
    var n, c, c' := a.node, s.nodes[a.node].c, m.node.c;
    && b.node == n && |m.started| <= 1 && DeedsOk(b)
    && (forall x | x in m.started :: x.phase.Fresh? && x.did == {} && x.joined.None?)
    && c'.hits - c.hits == Gain(Doers(n, HitCache), a, b)
    && c'.joins - c.joins == Gain(Joiners(n), a, b)
    && c'.remoteLoads - c.remoteLoads == Gain(Doers(n, SentRequest), a, b)
    && c'.remoteLoadErrors - c.remoteLoadErrors == Gain(Doers(n, RequestFailed), a, b)
  }

  predicate AtProbe(a: Task) {
    a.phase.Fresh? || a.phase.MissedMain?
  }

  lemma ProbeStepCounts<T>(cfg: Config<T>, s: State<T>, t: nat)
    requires CanStep(s, t) && s.tasks[t].op.Get? && AtProbe(s.tasks[t]) && DeedsOk(s.tasks[t])
    ensures MoveCounts(s, t, StepMove(cfg, s, t))
  {
    hide LookupPeer;
  }

  lemma LookupStepCounts<T>(cfg: Config<T>, s: State<T>, t: nat)
    requires CanStep(s, t) && s.tasks[t].op.Get? && !InFlight(s.tasks[t]) && !AtProbe(s.tasks[t]) && DeedsOk(s.tasks[t])
    requires TaskOk(cfg.sch, s, t)
    ensures MoveCounts(s, t, StepMove(cfg, s, t))
  {
    hide LookupPeer, Nearer, ChildOk;
  }

  lemma DecisionCounts<T>(cfg: Config<T>, s: State<T>, t: nat)
    requires CanStep(s, t) && InFlight(s.tasks[t]) && Decides(s.tasks[t]) && DeedsOk(s.tasks[t])
    ensures MoveCounts(s, t, StepMove(cfg, s, t))
  {
    hide LookupPeer;
  }

  lemma FlightStepCounts<T>(cfg: Config<T>, s: State<T>, t: nat)
    requires CanStep(s, t) && InFlight(s.tasks[t]) && !Decides(s.tasks[t]) && DeedsOk(s.tasks[t])
    ensures MoveCounts(s, t, StepMove(cfg, s, t))
  {
    hide LookupPeer;
  }

  lemma RemoveStepCounts<T>(cfg: Config<T>, s: State<T>, t: nat)
    requires CanStep(s, t) && s.tasks[t].op.Remove? && DeedsOk(s.tasks[t])
    requires TaskOk(cfg.sch, s, t)
    ensures MoveCounts(s, t, StepMove(cfg, s, t))
  {
    hide LookupPeer, Nearer, ChildOk;
  }

  lemma LoadCounts<T>(s: State<T>, t: nat, outcome: Option<string>)
    requires CanLoad(s, t) && DeedsOk(s.tasks[t])
    ensures MoveCounts(s, t, LoadMove(s, t, outcome))
  {
  }

  lemma DeliveryCounts<T>(s: State<T>, t: nat)
    requires CanDeliver(s, t) && DeedsOk(s.tasks[t])
    ensures MoveCounts(s, t, DeliverMove(s, t))
  {
  }

  lemma FailureCounts<T>(s: State<T>, t: nat)
    requires CanFail(s, t) && DeedsOk(s.tasks[t])
    ensures MoveCounts(s, t, FailMove(s, t))
  {
  }

  lemma MovesCount<T>(cfg: Config<T>, s: State<T>, act: Action<T>)
    requires Inv(cfg.sch, s) && Enabled(s, act) && IsTaskAction(act)
    requires act.t < |s.tasks| && DeedsOk(s.tasks[act.t])
    ensures s.tasks[act.t].node in s.nodes && MoveCounts(s, act.t, TaskMove(cfg, s, act))
  {
    hide Inv, MoveCounts, StepMove, LoadMove, DeliverMove, FailMove, DeedsOk;
    OneTaskIsOk(cfg.sch, s, act.t);
    if act.LoadReturns? {
      LoadCounts(s, act.t, act.outcome);
    } else if act.Deliver? {
      DeliveryCounts(s, act.t);
    } else if act.RpcFails? {
      FailureCounts(s, act.t);
    } else if s.tasks[act.t].op.Remove? {
      RemoveStepCounts(cfg, s, act.t);
    } else if AtProbe(s.tasks[act.t]) {
      ProbeStepCounts(cfg, s, act.t);
    } else if !InFlight(s.tasks[act.t]) {
      LookupStepCounts(cfg, s, act.t);
    } else if Decides(s.tasks[act.t]) {
      DecisionCounts(cfg, s, act.t);
    } else {
      FlightStepCounts(cfg, s, act.t);
    }
  }

  lemma CommitCounts<T>(s: State<T>, t: nat, m: Move<T>, n: Peer)
    requires t < |s.tasks| && s.tasks[t].node in s.nodes && MoveCounts(s, t, m)
    requires n in s.nodes && Counts(s.nodes[n].c, n, s.tasks)
    ensures var s' := Commit(s, t, m); Counts(s'.nodes[n].c, n, s'.tasks)
  {
    hide Tally, DeedsOk;
    TallyOfCommit(Doers(n, HitCache), s, t, m);
    TallyOfCommit(Joiners(n), s, t, m);
    TallyOfCommit(Doers(n, SentRequest), s, t, m);
    TallyOfCommit(Doers(n, RequestFailed), s, t, m);
  }

  lemma ActionKeepsCounts<T>(cfg: Config<T>, s: State<T>, act: Action<T>)
    requires Inv(cfg.sch, s) && AllCount(s) && Enabled(s, act)
    ensures AllCount(Apply(cfg, s, act))
  {
    hide Inv, TaskMove, Tally, MoveCounts, Counts;
    var s' := Apply(cfg, s, act);
    if IsTaskAction(act) {
      MoverExists(s, act);
      MovesCount(cfg, s, act);
      MovesKeepDeeds(cfg, s, act);
    }
    forall n | n in s'.nodes ensures Counts(s'.nodes[n].c, n, s'.tasks) {
      if IsTaskAction(act) {
        CommitCounts(s, act.t, TaskMove(cfg, s, act), n);
      } else if act.Call? {
        CallCountsNothing(s, n, NewTask(act.op, act.node, act.key, Caller, s.now, s.clock));
      }
    }
  }

  lemma MoverExists<T>(s: State<T>, act: Action<T>)
    requires Enabled(s, act) && IsTaskAction(act)
    ensures act.t < |s.tasks| && s.tasks[act.t].node in s.nodes
  {
  }

  lemma MovesKeepDeeds<T>(cfg: Config<T>, s: State<T>, act: Action<T>)
    requires Enabled(s, act) && IsTaskAction(act)
    requires act.t < |s.tasks| && s.tasks[act.t].node in s.nodes && MoveCounts(s, act.t, TaskMove(cfg, s, act))
    ensures DeedsOk(TaskMove(cfg, s, act).task)
    ensures forall b | b in TaskMove(cfg, s, act).started :: DeedsOk(b)
  {
    hide TaskMove;
  }

  lemma CallCountsNothing<T>(s: State<T>, n: Peer, a: Task)
    requires n in s.nodes && Counts(s.nodes[n].c, n, s.tasks) && a.did == {} && a.joined.None?
    ensures Counts(s.nodes[n].c, n, s.tasks + [a])
  {
    hide Tally;
    TallyOfAppend(Doers(n, HitCache), s.tasks, a);
    TallyOfAppend(Joiners(n), s.tasks, a);
    TallyOfAppend(Doers(n, SentRequest), s.tasks, a);
    TallyOfAppend(Doers(n, RequestFailed), s.tasks, a);
  }

  lemma {:induction false} RunsKeepCounts<T(!new)>(cfg: Config<T>, s: State<T>, acts: seq<Action<T>>, final: State<T>)
    requires Sound(cfg.sch) && Inv(cfg.sch, s) && AllCount(s) && Runs(cfg, s, acts, final)
    requires forall act | act in acts :: Fair(cfg.sch, act)
    ensures AllCount(final)
    decreases |acts|
  {
    hide Inv, AllCount, Apply, Fair;
    if acts != [] {
      ActionKeepsInv(cfg, s, acts[0]);
      ActionKeepsCounts(cfg, s, acts[0]);
      RunsKeepCounts(cfg, Apply(cfg, s, acts[0]), acts[1..], final);
    }
  }

  /**
   In every state of every run from start-up: hits are the gets that finished at a probe of a cache, joins those that
   joined a flight, remote loads the requests sent, and remote load errors those of them that were lost or answered
   with an error.
   */
  lemma HitsAndRequestsAreExact<T(!new)>(cfg: Config<T>, s: State<T>, acts: seq<Action<T>>, final: State<T>, n: Peer)
    requires Sound(cfg.sch) && Init(s) && Runs(cfg, s, acts, final) && n in final.nodes
    requires forall m | m in s.nodes :: OnOwnRing(cfg.sch, m, s.nodes[m].table)
    requires forall act | act in acts :: Fair(cfg.sch, act)
    ensures var c := final.nodes[n].c;
            && c.hits == Tally(Doers(n, HitCache), final.tasks)
            && c.joins == Tally(Joiners(n), final.tasks)
            && c.remoteLoads == Tally(Doers(n, SentRequest), final.tasks)
            && c.remoteLoadErrors == Tally(Doers(n, RequestFailed), final.tasks)
    ensures forall a | a in final.tasks :: DeedsOk(a)
  {
    hide Runs, Inv, Coherent, OnOwnRing, Fair, DeedsOk;
    StartUpIsCoherent(cfg.sch, s);
    RunsKeepCounts(cfg, s, acts, final);
  }
}
