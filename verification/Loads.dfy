/**
 Suppression of duplicate loads over whole runs: with agreed views and no failures one load of a key runs in the
 cluster at a time, and whoever loads a key that its node has cached missed the cache before it was cached.
 */
module Loads {
  import opened Wrappers
  import opened VNodes
  import opened Routing
  import opened Cluster
  import opened Structure
  import opened Answers
  import opened Ownership

  // ------------------------------------------------------- runs without failures

  /** No request fails, no loader fails, no table changes. */
  ghost predicate Smooth<T>(act: Action<T>) {
    !act.RpcFails? && !act.ReplaceTable? && (act.LoadReturns? ==> act.outcome.Some?)
  }

  ghost predicate NoFallback<T>(s: State<T>) {
    && (forall l | l in s.loads :: l.outcome.Some?)
    && (forall i: nat | i < |s.tasks| :: !s.tasks[i].phase.FallingBack? && !s.tasks[i].phase.LoadingFallback?)
  }

  ghost predicate AllMasked<T>(sch: Scheme<T>, s: State<T>) {
    forall n | n in s.nodes :: MaskedOn(sch, s, n)
  }

  lemma ChildAnswered<T>(sch: Scheme<T>, s: State<T>, t: nat)
    requires Inv(sch, s) && Coherent(s) && AllMasked(sch, s) && NoFallback(s)
    requires CanStep(s, t) && s.tasks[t].op.Get? && s.tasks[t].phase.Awaiting?
    ensures s.tasks[s.tasks[t].child.value].phase.answer.Ok?
  {
    hide OnOwnRing, FlightOk, PhaseOk, Synced, Nearer;
    var c := s.tasks[t].child.value;
    assert TaskOk(sch, s, t);
    assert TaskOk(sch, s, c) && HeldOk(s.loads, c, s.tasks[c]);
    assert MaskedOn(sch, s, s.tasks[c].node);
  }

  lemma StepAvoidsFallback<T(!new)>(cfg: Config<T>, s: State<T>, t: nat)
    requires Inv(cfg.sch, s) && Coherent(s) && AllMasked(cfg.sch, s) && NoFallback(s) && CanStep(s, t)
    ensures var m := StepMove(cfg, s, t);
            !m.task.phase.FallingBack? && !m.task.phase.LoadingFallback? && m.loads == s.loads && m.started == []
  {
    hide LookupPeer, Inv, Coherent, AllMasked;
    if s.tasks[t].op.Get? && s.tasks[t].phase.Awaiting? {
      ChildAnswered(cfg.sch, s, t);
    }
  }

  lemma ActionKeepsNoFallback<T(!new)>(cfg: Config<T>, s: State<T>, act: Action<T>)
    requires Inv(cfg.sch, s) && Coherent(s) && AllMasked(cfg.sch, s) && NoFallback(s)
    requires Enabled(s, act) && Smooth(act)
    ensures NoFallback(Apply(cfg, s, act))
  {
    hide Inv, Coherent, AllMasked, StepMove;
    if act.Step? {
      StepAvoidsFallback(cfg, s, act.t);
    }
  }

  lemma SmoothActionKeepsMasked<T(!new)>(cfg: Config<T>, s: State<T>, act: Action<T>)
    requires Sound(cfg.sch) && Inv(cfg.sch, s) && AllMasked(cfg.sch, s) && Enabled(s, act) && !act.ReplaceTable?
    ensures AllMasked(cfg.sch, Apply(cfg, s, act))
  {
    hide Inv, MaskedOn, TaskMove;
    var s' := Apply(cfg, s, act);
    forall n | n in s'.nodes ensures MaskedOn(cfg.sch, s', n) {
      if IsTaskAction(act) {
        MoversHaveNodes(s, act);
      }
      ActionKeepsMasked(cfg, s, act, n);
    }
  }

  lemma {:induction false} SmoothRuns<T(!new)>(cfg: Config<T>, s: State<T>, acts: seq<Action<T>>, final: State<T>)
    requires Sound(cfg.sch) && Inv(cfg.sch, s) && Coherent(s) && AllMasked(cfg.sch, s) && NoFallback(s)
    requires Runs(cfg, s, acts, final)
    requires forall act | act in acts :: Smooth(act)
    ensures Inv(cfg.sch, final) && NoFallback(final)
    decreases |acts|
  {
    hide Inv, Coherent, AllMasked, NoFallback, Apply;
    if acts != [] {
      assert Smooth(acts[0]);
      ActionKeepsInv(cfg, s, acts[0]);
      ActionKeepsCoherence(cfg, s, acts[0]);
      SmoothActionKeepsMasked(cfg, s, acts[0]);
      ActionKeepsNoFallback(cfg, s, acts[0]);
      SmoothRuns(cfg, Apply(cfg, s, acts[0]), acts[1..], final);
    }
  }

  /** With agreed views and no failures, at most one load of a key runs in the whole cluster, and on its owner. */
  lemma OneLoadPerCluster<T(!new)>(cfg: Config<T>, s: State<T>, acts: seq<Action<T>>, final: State<T>, key: string,
                                   owner: Peer, i: nat, j: nat)
    requires Sound(cfg.sch) && Init(s) && Runs(cfg, s, acts, final)
    requires forall n | n in s.nodes :: TableSynced(cfg.sch, n, s.nodes[n].table)
    requires AllRouteTo(cfg.sch, s, key, owner)
    requires forall act | act in acts :: Smooth(act)
    requires i < |final.tasks| && final.tasks[i].op.Get? && Loading(final.tasks[i]) && final.tasks[i].key == key
    requires j < |final.tasks| && final.tasks[j].op.Get? && Loading(final.tasks[j]) && final.tasks[j].key == key
    ensures i == j && final.tasks[i].node == owner
  {
    hide Runs, Synced, OnOwnRing, Inv, RoutesTo, Placed;
    forall n | n in s.nodes ensures OnOwnRing(cfg.sch, n, s.nodes[n].table) {
      SyncedIsOnOwnRing(cfg.sch, n, s.nodes[n].table);
    }
    StartUpIsCoherent(cfg.sch, s);
    StartUpIsPlaced(cfg.sch, s);
    forall n | n in s.nodes ensures MaskedOn(cfg.sch, s, n) {
      StartUpIsMasked(cfg.sch, s, n);
    }
    SmoothRuns(cfg, s, acts, final);
    RunsStayPlaced(cfg, s, acts, final);
    OneOwnLoadPerCluster(cfg.sch, final, key, owner, i, j);
  }

  // -------------------------------------------------- misses come before caching

  ghost predicate MissOk<T>(s: State<T>, a: Task) {
    && (a.missedMainAt.Some? ==>
          && a.missedMainAt.value < s.now
          && (a.node in s.nodes && a.key in s.nodes[a.node].main ==>
                a.missedMainAt.value < s.nodes[a.node].main[a.key].since))
    && (InFlight(a) ==> a.missedMainAt.Some?)
    && (a.op.Get? && (a.phase.MissedMain? || a.phase.Unrouted? || a.phase.Routed?) ==> a.missedMainAt.Some?)
  }

  ghost predicate MissesPrecede<T>(s: State<T>) {
    forall i: nat | i < |s.tasks| :: MissOk(s, s.tasks[i])
  }

  ghost predicate MoveMisses<T>(s: State<T>, t: nat, m: Move<T>)
    requires t < |s.tasks| && s.tasks[t].node in s.nodes
  {
    var a := s.tasks[t];
    var main, main' := s.nodes[a.node].main, m.node.main;
    && m.task.node == a.node && m.task.key == a.key && m.task.op == a.op
    && (m.task.missedMainAt == a.missedMainAt || (m.task.missedMainAt == Some(s.now) && a.key !in main'))
    && (InFlight(m.task) ==> m.task.missedMainAt.Some?)
    && (m.task.op.Get? && (m.task.phase.MissedMain? || m.task.phase.Unrouted? || m.task.phase.Routed?) ==>
          m.task.missedMainAt.Some?)
    && (forall key | key in main' ::
          if key in main then main'[key].since == main[key].since else main'[key].since == s.now)
    && (forall b | b in m.started :: b.phase.Fresh? && b.missedMainAt.None?)
  }

  lemma StepMisses<T>(cfg: Config<T>, s: State<T>, t: nat)
    requires MissesPrecede(s) && CanStep(s, t)
    ensures MoveMisses(s, t, StepMove(cfg, s, t))
  {
    hide LookupPeer;
    assert MissOk(s, s.tasks[t]);
  }

  lemma OtherMovesMiss<T>(cfg: Config<T>, s: State<T>, act: Action<T>)
    requires MissesPrecede(s) && Enabled(s, act) && IsTaskAction(act) && !act.Step?
    requires s.tasks[act.t].phase.Awaiting? || s.tasks[act.t].phase.Requesting? || InFlight(s.tasks[act.t])
    ensures MoveMisses(s, act.t, TaskMove(cfg, s, act))
  {
    assert MissOk(s, s.tasks[act.t]);
  }

  lemma CommitKeepsMisses<T>(s: State<T>, t: nat, m: Move<T>)
    requires MissesPrecede(s) && t < |s.tasks| && s.tasks[t].node in s.nodes && MoveMisses(s, t, m)
    ensures MissesPrecede(Commit(s, t, m))
  {
    var s' := Commit(s, t, m);
    forall i: nat | i < |s'.tasks| ensures MissOk(s', s'.tasks[i]) {
      assert i < |s.tasks| ==> MissOk(s, s.tasks[i]);
    }
  }

  lemma ActionKeepsMisses<T(!new)>(cfg: Config<T>, s: State<T>, act: Action<T>)
    requires Inv(cfg.sch, s) && MissesPrecede(s) && Enabled(s, act)
    ensures MissesPrecede(Apply(cfg, s, act))
  {
    hide OnOwnRing, PhaseOk, ChildOk, FlightOk, MissesPrecede, MoveMisses, TaskMove;
    if IsTaskAction(act) {
      assert TaskOk(cfg.sch, s, act.t);
      if act.Step? {
        StepMisses(cfg, s, act.t);
        StepStartsNothing(cfg, s, act.t);
      } else {
        OtherMovesMiss(cfg, s, act);
      }
      CommitKeepsMisses(s, act.t, TaskMove(cfg, s, act));
    } else {
      EnvironmentKeepsMisses(cfg, s, act);
    }
  }

  lemma EnvironmentKeepsMisses<T>(cfg: Config<T>, s: State<T>, act: Action<T>)
    requires MissesPrecede(s) && Enabled(s, act) && !IsTaskAction(act)
    ensures MissesPrecede(Apply(cfg, s, act))
  {
    var s' := Apply(cfg, s, act);
    forall i: nat | i < |s'.tasks| ensures MissOk(s', s'.tasks[i]) {
      assert i < |s.tasks| ==> MissOk(s, s.tasks[i]);
    }
  }

  lemma {:induction false} RunsKeepMisses<T(!new)>(cfg: Config<T>, s: State<T>, acts: seq<Action<T>>, final: State<T>)
    requires Sound(cfg.sch) && Inv(cfg.sch, s) && MissesPrecede(s) && Runs(cfg, s, acts, final)
    requires forall act | act in acts :: Fair(cfg.sch, act)
    ensures Inv(cfg.sch, final) && MissesPrecede(final)
    decreases |acts|
  {
    hide Inv, MissesPrecede, Apply, Fair;
    if acts != [] {
      ActionKeepsInv(cfg, s, acts[0]);
      ActionKeepsMisses(cfg, s, acts[0]);
      RunsKeepMisses(cfg, Apply(cfg, s, acts[0]), acts[1..], final);
    }
  }

  /**
   A get that loads a key its node has in the main cache missed it there before the key was last put in with no gap
   since.
   */
  lemma SecondLoadsProbedEarlier<T(!new)>(cfg: Config<T>, s: State<T>, acts: seq<Action<T>>, final: State<T>, i: nat)
    requires Sound(cfg.sch) && Inv(cfg.sch, s) && Init(s) && Runs(cfg, s, acts, final)
    requires forall act | act in acts :: Fair(cfg.sch, act)
    requires i < |final.tasks| && InFlight(final.tasks[i])
    ensures var a := final.tasks[i];
            && a.node in final.nodes && a.missedMainAt.Some?
            && (a.key in final.nodes[a.node].main ==> a.missedMainAt.value < final.nodes[a.node].main[a.key].since)
  {
    hide Runs, OnOwnRing, Fair, PhaseOk, ChildOk, FlightOk;
    RunsKeepMisses(cfg, s, acts, final);
    assert MissOk(final, final.tasks[i]) && TaskOk(cfg.sch, final, i);
  }
}
