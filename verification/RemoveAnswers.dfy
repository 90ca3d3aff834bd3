/**
 What it means when a remove ends with an error: some request on its chain was lost, or a lookup on the chain led
 nowhere. So with tables in step and no request lost, every remove that finishes returns without an error.
 */
module RemoveAnswers {
  import opened Wrappers
  import opened VNodes
  import opened Routing
  import opened NodeState
  import opened Cluster
  import opened Structure
  import opened Forwarding
  import opened Answers

  predicate Failed(a: Task) {
    a.op.Remove? && a.phase.Finished? && a.phase.answer.Err?
  }

  ghost predicate WasLost<T>(done: seq<Action<T>>, i: nat) {
    RpcFails(i) in done
  }

  /** If the request of the remove failed, then because it was lost or because it was answered with an error. */
  ghost predicate HasCause<T>(done: seq<Action<T>>, tasks: seq<Task>, i: nat)
    requires i < |tasks|
  {
    Failed(tasks[i]) && tasks[i].phase.answer.failure.RpcFailed? ==>
      || WasLost(done, i)
      || (tasks[i].child.Some? && tasks[i].child.value < |tasks| && Failed(tasks[tasks[i].child.value]))
  }

  ghost predicate AllCaused<T>(done: seq<Action<T>>, s: State<T>) {
    forall i: nat | i < |s.tasks| :: HasCause(done, s.tasks, i)
  }

  lemma StepHasCause<T>(cfg: Config<T>, s: State<T>, t: nat)
    requires CanStep(s, t) && TaskOk(cfg.sch, s, t)
    ensures var a, b := s.tasks[t], StepMove(cfg, s, t).task;
            Failed(b) && b.phase.answer.failure.RpcFailed? ==>
              && a.child.Some? && a.child.value < |s.tasks| && a.child.value != t
              && Failed(s.tasks[a.child.value]) && b.child == a.child
  {
    hide LookupPeer, PhaseOk;
  }

  lemma MoverHasCause<T>(cfg: Config<T>, done: seq<Action<T>>, s: State<T>, act: Action<T>)
    requires Enabled(s, act) && IsTaskAction(act) && act.t < |s.tasks| && TaskOk(cfg.sch, s, act.t)
    ensures HasCause(done + [act], Apply(cfg, s, act).tasks, act.t)
  {
    hide StepMove;
    if act.Step? {
      StepHasCause(cfg, s, act.t);
      StepStartsNothing(cfg, s, act.t);
    }
  }

  lemma BystanderHasCause<T>(cfg: Config<T>, done: seq<Action<T>>, s: State<T>, act: Action<T>, i: nat)
    requires Enabled(s, act) && i < |s.tasks| && HasCause(done, s.tasks, i) && (IsTaskAction(act) ==> act.t != i)
    ensures i < |Apply(cfg, s, act).tasks| && HasCause(done + [act], Apply(cfg, s, act).tasks, i)
  {
    hide TaskMove;
    if IsTaskAction(act) {
      FailedDoNotMove(s, act);
    }
  }

  lemma FailedDoNotMove<T>(s: State<T>, act: Action<T>)
    requires Enabled(s, act) && IsTaskAction(act)
    ensures act.t < |s.tasks| && !Failed(s.tasks[act.t])
  {
  }

  lemma ActionKeepsCauses<T>(cfg: Config<T>, done: seq<Action<T>>, s: State<T>, act: Action<T>)
    requires Inv(cfg.sch, s) && AllCaused(done, s) && Enabled(s, act)
    ensures AllCaused(done + [act], Apply(cfg, s, act))
  {
    hide Inv, HasCause, TaskMove;
    var s' := Apply(cfg, s, act);
    forall i: nat | i < |s'.tasks| ensures HasCause(done + [act], s'.tasks, i) {
      if IsTaskAction(act) && i == act.t {
        FailedDoNotMove(s, act);
        OneTaskIsOk(cfg.sch, s, i);
        MoverHasCause(cfg, done, s, act);
      } else if i < |s.tasks| {
        BystanderHasCause(cfg, done, s, act, i);
      } else {
        if IsTaskAction(act) {
          StartedAreFresh(cfg, s, act);
        }
        FreshHasCause(done + [act], s'.tasks, i);
      }
    }
  }

  lemma FreshHasCause<T>(done: seq<Action<T>>, tasks: seq<Task>, i: nat)
    requires i < |tasks| && tasks[i].phase.Fresh?
    ensures HasCause(done, tasks, i)
  {
  }

  lemma {:induction false} RunsKeepCauses<T(!new)>(cfg: Config<T>, done: seq<Action<T>>, s: State<T>,
                                                   acts: seq<Action<T>>, final: State<T>)
    requires Sound(cfg.sch) && Inv(cfg.sch, s) && AllCaused(done, s) && Runs(cfg, s, acts, final)
    requires forall act | act in acts :: Fair(cfg.sch, act)
    ensures Inv(cfg.sch, final) && AllCaused(done + acts, final)
    decreases |acts|
  {
    hide Inv, AllCaused, Apply, Fair;
    if acts == [] {
      assert done + acts == done;
    } else {
      ActionKeepsInv(cfg, s, acts[0]);
      ActionKeepsCauses(cfg, done, s, acts[0]);
      RunsKeepCauses(cfg, done + [acts[0]], Apply(cfg, s, acts[0]), acts[1..], final);
      assert done + [acts[0]] + acts[1..] == done + acts;
    }
  }

  /** All removes of the chain failed; the request of the last one was lost, or its lookup led nowhere. */
  ghost predicate FailedAlong<T>(acts: seq<Action<T>>, s: State<T>, path: seq<nat>) {
    && path != [] && RequestChain(s.tasks, path)
    && (forall x | 0 <= x < |path| :: Failed(s.tasks[path[x]]))
    && var last := path[|path| - 1];
    WasLost(acts, last) || !s.tasks[last].phase.answer.failure.RpcFailed?
  }

  lemma {:induction false} FailuresHaveRoots<T>(sch: Scheme<T>, acts: seq<Action<T>>, s: State<T>, i: nat)
    returns (path: seq<nat>)
    requires Inv(sch, s) && AllCaused(acts, s) && i < |s.tasks| && Failed(s.tasks[i])
    ensures path != [] && path[0] == i && FailedAlong(acts, s, path)
    decreases |s.tasks| - i
  {
    hide Inv, Nearer, PhaseOk, WasLost;
    OneTaskIsOk(sch, s, i);
    assert HasCause(acts, s.tasks, i);
    if WasLost(acts, i) || !s.tasks[i].phase.answer.failure.RpcFailed? {
      path := [i];
    } else {
      var c := s.tasks[i].child.value;
      var rest := FailuresHaveRoots(sch, acts, s, c);
      path := [i] + rest;
      assert forall x | 0 < x < |path| :: path[x] == rest[x - 1];
      forall x | 0 <= x < |path| - 1 ensures s.tasks[path[x]].child == Some(path[x + 1]) {
        if x > 0 {
          assert s.tasks[rest[x - 1]].child == Some(rest[x - 1 + 1]);
        }
      }
      assert path[|path| - 1] == rest[|rest| - 1];
    }
  }

  /**
   In every run from start-up a remove that ends with an error does so for a reason at the end of its chain: the request
   sent from there was lost, or the lookup there found no peer or no connection.
   */
  lemma RemovesFailForAReason<T(!new)>(cfg: Config<T>, s: State<T>, acts: seq<Action<T>>, final: State<T>, i: nat)
    returns (path: seq<nat>)
    requires Sound(cfg.sch) && Init(s) && Runs(cfg, s, acts, final)
    requires forall n | n in s.nodes :: OnOwnRing(cfg.sch, n, s.nodes[n].table)
    requires forall act | act in acts :: Fair(cfg.sch, act)
    requires i < |final.tasks| && Failed(final.tasks[i])
    ensures path != [] && path[0] == i && FailedAlong(acts, final, path)
  {
    hide Runs, OnOwnRing, Fair, Inv, Coherent, AllCaused, FailedAlong;
    StartUpIsCoherent(cfg.sch, s);
    assert AllCaused([], s) by { NothingFailed(s); }
    RunsKeepCauses(cfg, [], s, acts, final);
    assert [] + acts == acts;
    path := FailuresHaveRoots(cfg.sch, acts, final, i);
  }

  lemma NothingFailed<T>(s: State<T>)
    requires Init(s)
    ensures AllCaused([], s)
  {
  }

  /**
   With all tables in step there is only one such reason: a remove ends with an error only if the last request of
   its chain was lost.
   */
  lemma RemovesFailByLoss<T(!new)>(cfg: Config<T>, s: State<T>, acts: seq<Action<T>>, final: State<T>, i: nat)
    returns (path: seq<nat>)
    requires Sound(cfg.sch) && Init(s) && Runs(cfg, s, acts, final)
    requires forall n | n in s.nodes :: TableSynced(cfg.sch, n, s.nodes[n].table)
    requires forall act, n | act in acts && n in s.nodes :: SyncedFair(cfg.sch, n, act)
    requires forall act | act in acts :: Fair(cfg.sch, act)
    requires i < |final.tasks| && Failed(final.tasks[i])
    ensures path != [] && path[0] == i && FailedAlong(acts, final, path)
    ensures WasLost(acts, path[|path| - 1])
  {
    hide Runs, TableSynced, OnOwnRing, SyncedFair, Fair, Inv, WasLost;
    TablesAreOnOwnRing(cfg.sch, s);
    StartUpIsCoherent(cfg.sch, s);
    RunsAreCoherent(cfg, s, acts, final);
    path := RemovesFailForAReason(cfg, s, acts, final, i);
    var last := path[|path| - 1];
    OneTaskIsOk(cfg.sch, final, last);
    RunKeepsNodes(cfg, s, acts, final);
    var n := final.tasks[last].node;
    StartUpIsMasked(cfg.sch, s, n);
    RunsAreMasked(cfg, s, acts, final, n);
    assert Masked(final.tasks[last]);
  }

  /** So with all tables in step and no request lost, every remove that finishes returns without an error. */
  lemma RemovesSucceed<T(!new)>(cfg: Config<T>, s: State<T>, acts: seq<Action<T>>, final: State<T>, i: nat)
    requires Sound(cfg.sch) && Init(s) && Runs(cfg, s, acts, final)
    requires forall n | n in s.nodes :: TableSynced(cfg.sch, n, s.nodes[n].table)
    requires forall act, n | act in acts && n in s.nodes :: SyncedFair(cfg.sch, n, act)
    requires forall act | act in acts :: Fair(cfg.sch, act) && !act.RpcFails?
    requires i < |final.tasks| && final.tasks[i].op.Remove? && final.tasks[i].phase.Finished?
    ensures final.tasks[i].phase == Finished(Removed)
  {
    hide Runs, TableSynced, OnOwnRing, SyncedFair, Fair, Inv;
    TablesAreOnOwnRing(cfg.sch, s);
    StartUpIsCoherent(cfg.sch, s);
    RunsAreCoherent(cfg, s, acts, final);
    assert HeldOk(final.loads, i, final.tasks[i]);
    if Failed(final.tasks[i]) {
      var path := RemovesFailByLoss(cfg, s, acts, final, i);
      assert false;
    }
  }

  lemma TablesAreOnOwnRing<T(!new)>(sch: Scheme<T>, s: State<T>)
    requires forall n | n in s.nodes :: TableSynced(sch, n, s.nodes[n].table)
    ensures forall n | n in s.nodes :: OnOwnRing(sch, n, s.nodes[n].table)
  {
    hide Synced, OnOwnRing;
    forall n | n in s.nodes ensures OnOwnRing(sch, n, s.nodes[n].table) {
      SyncedIsOnOwnRing(sch, n, s.nodes[n].table);
    }
  }

  lemma {:induction false} RunKeepsNodes<T>(cfg: Config<T>, s: State<T>, acts: seq<Action<T>>, final: State<T>)
    requires Runs(cfg, s, acts, final)
    ensures final.nodes.Keys == s.nodes.Keys
    decreases |acts|
  {
    if acts != [] {
      ActionKeepsNodes(cfg, s, acts[0]);
      hide Apply;
      RunKeepsNodes(cfg, Apply(cfg, s, acts[0]), acts[1..], final);
    }
  }

  lemma ActionKeepsNodes<T>(cfg: Config<T>, s: State<T>, act: Action<T>)
    requires Enabled(s, act)
    ensures Apply(cfg, s, act).nodes.Keys == s.nodes.Keys
  {
    hide TaskMove;
    if IsTaskAction(act) {
      FailedDoNotMove(s, act);
      assert s.tasks[act.t].node in s.nodes;
    }
  }
}
