/**
 What a remove that returns without an error has done: it deleted the key from the hot cache of every node on its
 forwarding chain and from the main cache of the last one, all while the call was running.
 */
module Removal {
  import opened Wrappers
  import opened VNodes
  import opened Routing
  import opened NodeState
  import opened Cluster
  import opened Structure
  import opened Forwarding
  import opened Answers
  import opened Ownership
  import opened Staleness
  import opened StaleRuns

  /** At instant `at`, since the task started, the key was deleted from the hot cache: what is there now came later. */
  predicate HotCleared<T>(s: State<T>, a: Task, at: nat) {
    && a.started <= at < s.now
    && (a.node in s.nodes && a.key in s.nodes[a.node].hot ==> s.nodes[a.node].hot[a.key].made > at)
  }

  predicate MainCleared<T>(s: State<T>, a: Task, at: nat) {
    && a.started <= at < s.now
    && (a.node in s.nodes && a.key in s.nodes[a.node].main ==> s.nodes[a.node].main[a.key].since > at)
  }

  predicate RemovalOk<T>(s: State<T>, a: Task) {
    && a.started <= s.now
    && (a.op.Remove? && !a.phase.Fresh? ==> a.hotClearedAt.Some?)
    && (a.hotClearedAt.Some? ==> HotCleared(s, a, a.hotClearedAt.value))
    && (a.mainClearedAt.Some? ==> MainCleared(s, a, a.mainClearedAt.value))
    && (a.child.Some? && a.child.value < |s.tasks| ==> a.started <= s.tasks[a.child.value].started)
    && (a.op.Remove? && a.phase == Finished(Removed) ==>
          || a.mainClearedAt.Some?
          || (a.child.Some? && a.child.value < |s.tasks| && s.tasks[a.child.value].phase == Finished(Removed)))
  }

  ghost predicate RemovalsOk<T>(s: State<T>) {
    forall i: nat | i < |s.tasks| :: RemovalOk(s, s.tasks[i])
  }

  /** Entries are stamped with the instant they are made; deletions by a task are stamped on the task. */
  predicate MoveStamps<T>(s: State<T>, t: nat, m: Move<T>)
    requires t < |s.tasks| && s.tasks[t].node in s.nodes
  {
    var a, b := s.tasks[t], m.task;
    var n := s.nodes[a.node];
    && b.op == a.op && b.node == a.node && b.key == a.key && b.started == a.started && !a.phase.Finished?
    && (b.op.Remove? && !b.phase.Fresh? ==> b.hotClearedAt.Some?)
    && (b.hotClearedAt == a.hotClearedAt || (b.hotClearedAt == Some(s.now) && a.key !in m.node.hot))
    && (b.mainClearedAt == a.mainClearedAt || (b.mainClearedAt == Some(s.now) && a.key !in m.node.main))
    && (forall key | key in m.node.hot ::
          m.node.hot[key].made == s.now || (key in n.hot && m.node.hot[key].made == n.hot[key].made))
    && (forall key | key in m.node.main ::
          m.node.main[key].since == s.now || (key in n.main && m.node.main[key].since == n.main[key].since))
    && (b.op.Remove? && b.phase == Finished(Removed) ==>
          || b.mainClearedAt.Some?
          || (b.child == a.child && b.child.Some? && b.child.value < |s.tasks|
              && s.tasks[b.child.value].phase == Finished(Removed)))
    && (m.started == [] ==> b.child == a.child)
    && (m.started != [] ==>
          && |m.started| == 1 && b.child == Some(|s.tasks|) && m.started[0].started == s.now
          && m.started[0].phase.Fresh? && m.started[0].hotClearedAt.None? && m.started[0].mainClearedAt.None?
          && m.started[0].child.None?)
  }

  lemma GetStepStamps<T>(cfg: Config<T>, s: State<T>, t: nat)
    requires RemovalsOk(s) && CanStep(s, t) && s.tasks[t].op.Get?
    ensures MoveStamps(s, t, StepMove(cfg, s, t))
  {
    hide LookupPeer;
    assert RemovalOk(s, s.tasks[t]);
  }

  lemma RemoveStepStamps<T>(cfg: Config<T>, s: State<T>, t: nat)
    requires Inv(cfg.sch, s) && Coherent(s) && RemovalsOk(s) && CanStep(s, t) && s.tasks[t].op.Remove?
    ensures MoveStamps(s, t, StepMove(cfg, s, t))
  {
    hide LookupPeer, OnOwnRing, Nearer, FlightOk, CachesOk;
    var a := s.tasks[t];
    assert RemovalOk(s, a) && TaskOk(cfg.sch, s, t);
    if a.phase.Awaiting? {
      assert HeldOk(s.loads, a.child.value, s.tasks[a.child.value]);
    }
  }

  lemma OtherMovesStamp<T>(cfg: Config<T>, s: State<T>, act: Action<T>)
    requires RemovalsOk(s) && Enabled(s, act) && IsTaskAction(act) && !act.Step?
    ensures MoveStamps(s, act.t, TaskMove(cfg, s, act))
  {
    assert RemovalOk(s, s.tasks[act.t]);
  }

  lemma MoverKeepsRemoval<T>(s: State<T>, t: nat, m: Move<T>)
    requires t < |s.tasks| && s.tasks[t].node in s.nodes && RemovalOk(s, s.tasks[t]) && MoveStamps(s, t, m)
    requires s.tasks[t].child.Some? ==> s.tasks[t].child.value < |s.tasks| && s.tasks[t].child.value != t
    ensures RemovalOk(Commit(s, t, m), m.task)
  {
  }

  lemma BystanderKeepsRemoval<T>(s: State<T>, t: nat, m: Move<T>, i: nat)
    requires t < |s.tasks| && s.tasks[t].node in s.nodes && MoveStamps(s, t, m)
    requires i < |s.tasks| && i != t && RemovalOk(s, s.tasks[i])
    requires s.tasks[i].child.Some? ==> s.tasks[i].child.value < |s.tasks|
    ensures RemovalOk(Commit(s, t, m), s.tasks[i])
  {
  }

  lemma CommitKeepsRemovals<T>(s: State<T>, t: nat, m: Move<T>)
    requires RemovalsOk(s) && t < |s.tasks| && s.tasks[t].node in s.nodes && MoveStamps(s, t, m)
    requires forall i: nat | i < |s.tasks| && s.tasks[i].child.Some? :: i < s.tasks[i].child.value < |s.tasks|
    ensures RemovalsOk(Commit(s, t, m))
  {
    var s' := Commit(s, t, m);
    forall i: nat | i < |s'.tasks| ensures RemovalOk(s', s'.tasks[i]) {
      hide RemovalOk;
      if i == t {
        MoverKeepsRemoval(s, t, m);
      } else if i < |s.tasks| {
        BystanderKeepsRemoval(s, t, m, i);
      } else {
        StartedIsNoRemoval(s', i);
      }
    }
  }

  lemma StartedIsNoRemoval<T>(s: State<T>, i: nat)
    requires i < |s.tasks| && s.tasks[i].phase.Fresh? && s.tasks[i].started <= s.now
    requires s.tasks[i].hotClearedAt.None? && s.tasks[i].mainClearedAt.None? && s.tasks[i].child.None?
    ensures RemovalOk(s, s.tasks[i])
  {
  }

  lemma EnvironmentKeepsRemovals<T>(cfg: Config<T>, s: State<T>, act: Action<T>)
    requires RemovalsOk(s) && Enabled(s, act) && !IsTaskAction(act)
    requires forall i: nat | i < |s.tasks| && s.tasks[i].child.Some? :: s.tasks[i].child.value < |s.tasks|
    ensures RemovalsOk(Apply(cfg, s, act))
  {
    var s' := Apply(cfg, s, act);
    forall i: nat | i < |s'.tasks| ensures RemovalOk(s', s'.tasks[i]) {
      assert i < |s.tasks| ==> RemovalOk(s, s.tasks[i]);
    }
  }

  lemma ChildrenCameLater<T>(sch: Scheme<T>, s: State<T>)
    requires Inv(sch, s)
    ensures forall i: nat | i < |s.tasks| && s.tasks[i].child.Some? :: i < s.tasks[i].child.value < |s.tasks|
  {
    hide OnOwnRing, FlightOk, PhaseOk, Nearer;
    forall i: nat | i < |s.tasks| && s.tasks[i].child.Some? ensures i < s.tasks[i].child.value < |s.tasks| {
      assert TaskOk(sch, s, i);
    }
  }

  lemma ActionKeepsRemovals<T>(cfg: Config<T>, s: State<T>, act: Action<T>)
    requires Inv(cfg.sch, s) && Coherent(s) && RemovalsOk(s) && Enabled(s, act)
    ensures RemovalsOk(Apply(cfg, s, act))
  {
    hide Inv, Coherent, RemovalsOk, MoveStamps, TaskMove, StepMove;
    ChildrenCameLater(cfg.sch, s);
    if IsTaskAction(act) {
      MoversHaveNodes(s, act);
      if !act.Step? {
        OtherMovesStamp(cfg, s, act);
      } else {
        StepStartsNothing(cfg, s, act.t);
        if s.tasks[act.t].op.Get? {
          GetStepStamps(cfg, s, act.t);
        } else {
          RemoveStepStamps(cfg, s, act.t);
        }
      }
      CommitKeepsRemovals(s, act.t, TaskMove(cfg, s, act));
    } else {
      EnvironmentKeepsRemovals(cfg, s, act);
    }
  }

  /** Along the chain every hot cache was cleared, and at its end the main cache, none before `since`. */
  ghost predicate ClearedAlong<T>(s: State<T>, path: seq<nat>, since: nat) {
    && path != [] && RequestChain(s.tasks, path)
    && (forall x | 0 <= x < |path| ::
          var a := s.tasks[path[x]];
          && a.op.Remove? && a.hotClearedAt.Some?
          && a.hotClearedAt.value >= since && HotCleared(s, a, a.hotClearedAt.value))
    && var last := s.tasks[path[|path| - 1]];
    && last.mainClearedAt.Some? && last.mainClearedAt.value >= since && MainCleared(s, last, last.mainClearedAt.value)
  }

  /** A remove that returned without an error deleted the key on its whole chain since it was called. */
  lemma {:induction false} RemoveReachesOwner<T>(sch: Scheme<T>, s: State<T>, i: nat) returns (path: seq<nat>)
    requires Inv(sch, s) && RemovalsOk(s)
    requires i < |s.tasks| && s.tasks[i].op.Remove? && s.tasks[i].phase == Finished(Removed)
    ensures path != [] && path[0] == i && ClearedAlong(s, path, s.tasks[i].started)
    decreases |s.tasks| - i
  {
    hide OnOwnRing, Nearer, FlightOk, PhaseOk, HotCleared, MainCleared;
    var a := s.tasks[i];
    assert TaskOk(sch, s, i) && RemovalOk(s, a);
    ClearTimes(s, a);
    if a.mainClearedAt.Some? {
      path := [i];
    } else {
      var c := a.child.value;
      var rest := RemoveReachesOwner(sch, s, c);
      path := [i] + rest;
      PrependToChain(s, i, c, rest);
    }
  }

  lemma ClearTimes<T>(s: State<T>, a: Task)
    requires RemovalOk(s, a)
    ensures a.hotClearedAt.Some? ==> a.hotClearedAt.value >= a.started
    ensures a.mainClearedAt.Some? ==> a.mainClearedAt.value >= a.started
  {
  }

  lemma PrependToChain<T>(s: State<T>, i: nat, c: nat, rest: seq<nat>)
    requires i < |s.tasks| && c < |s.tasks| && s.tasks[i].child == Some(c) && s.tasks[i].started <= s.tasks[c].started
    requires s.tasks[i].op.Remove? && s.tasks[i].hotClearedAt.Some?
    requires s.tasks[i].hotClearedAt.value >= s.tasks[i].started
    requires HotCleared(s, s.tasks[i], s.tasks[i].hotClearedAt.value)
    requires rest != [] && rest[0] == c && ClearedAlong(s, rest, s.tasks[c].started)
    ensures ClearedAlong(s, [i] + rest, s.tasks[i].started)
  {
    hide HotCleared, MainCleared;
    var path := [i] + rest;
    assert forall x | 0 < x < |path| :: path[x] == rest[x - 1];
    forall x | 0 <= x < |path| - 1 ensures s.tasks[path[x]].child == Some(path[x + 1]) {
      if x > 0 {
        assert s.tasks[rest[x - 1]].child == Some(rest[x - 1 + 1]);
      }
    }
    assert path[|path| - 1] == rest[|rest| - 1];
  }

  // ------------------------------------------------- the last node owns the key

  /**
   Earlier in the run, since the task was called and before it cleared the main cache, its node's own table sent the
   key to the node.
   */
  ghost predicate OwnedInOwnView<T(!new)>(cfg: Config<T>, s0: State<T>, done: seq<Action<T>>, now: nat, a: Task) {
    exists k, mid ::
      && 0 <= k <= |done| && Runs(cfg, s0, done[..k], mid) && LooksUpItself(cfg.sch, mid, now, a)
  }

  ghost predicate LooksUpItself<T>(sch: Scheme<T>, mid: State<T>, now: nat, a: Task) {
    && a.node in mid.nodes && RoutesTo(sch, mid.nodes[a.node].table, a.key, a.node)
    && a.started <= mid.now < now && (a.mainClearedAt.Some? ==> mid.now < a.mainClearedAt.value)
  }

  predicate ClearsOrWill(a: Task) {
    a.op.Remove? && (a.mainClearedAt.Some? || (a.phase.Routed? && a.phase.peer == a.node))
  }

  ghost predicate ClearersOwn<T(!new)>(cfg: Config<T>, s0: State<T>, done: seq<Action<T>>, s: State<T>) {
    forall i: nat | i < |s.tasks| && ClearsOrWill(s.tasks[i]) :: OwnedInOwnView(cfg, s0, done, s.now, s.tasks[i])
  }

  lemma LongerRunOwns<T(!new)>(cfg: Config<T>, s0: State<T>, done: seq<Action<T>>, act: Action<T>, now: nat, more: nat,
                               a: Task)
    requires OwnedInOwnView(cfg, s0, done, now, a) && now <= more
    ensures OwnedInOwnView(cfg, s0, done + [act], more, a)
  {
    hide Runs, RoutesTo;
    var k, mid :| 0 <= k <= |done| && Runs(cfg, s0, done[..k], mid) && LooksUpItself(cfg.sch, mid, now, a);
    assert (done + [act])[..k] == done[..k];
    assert LooksUpItself(cfg.sch, mid, more, a);
  }

  /** A task that is newly bound to clear the main cache has just looked up its own node. */
  lemma ClearerLookedUp<T>(cfg: Config<T>, s: State<T>, t: nat)
    requires CanStep(s, t) && s.tasks[t].started <= s.now
    requires ClearsOrWill(StepMove(cfg, s, t).task) && !ClearsOrWill(s.tasks[t])
    ensures LooksUpItself(cfg.sch, s, s.now + 1, StepMove(cfg, s, t).task)
  {
  }

  /** A task that was bound to clear does so later than it looked up its own node. */
  lemma ClearerStaysOwner<T>(cfg: Config<T>, s: State<T>, t: nat, mid: State<T>)
    requires CanStep(s, t) && ClearsOrWill(s.tasks[t]) && LooksUpItself(cfg.sch, mid, s.now, s.tasks[t])
    ensures LooksUpItself(cfg.sch, mid, s.now + 1, StepMove(cfg, s, t).task)
  {
    hide LookupPeer, RoutesTo;
  }

  lemma OthersAreNoClearers<T>(cfg: Config<T>, s: State<T>, act: Action<T>)
    requires Enabled(s, act) && IsTaskAction(act) && !act.Step?
    ensures var a, b := s.tasks[act.t], TaskMove(cfg, s, act).task;
            && b.node == a.node && b.key == a.key && b.started == a.started && b.mainClearedAt == a.mainClearedAt
            && (ClearsOrWill(b) ==> ClearsOrWill(a))
    ensures forall b | b in TaskMove(cfg, s, act).started :: !ClearsOrWill(b)
  {
  }

  lemma MoverOwns<T(!new)>(cfg: Config<T>, s0: State<T>, done: seq<Action<T>>, s: State<T>, t: nat)
    requires Runs(cfg, s0, done, s) && CanStep(s, t) && s.tasks[t].started <= s.now
    requires ClearsOrWill(StepMove(cfg, s, t).task)
    requires ClearsOrWill(s.tasks[t]) ==> OwnedInOwnView(cfg, s0, done, s.now, s.tasks[t])
    ensures OwnedInOwnView(cfg, s0, done + [Step(t)], s.now + 1, StepMove(cfg, s, t).task)
  {
    hide Runs, RoutesTo, LooksUpItself, StepMove;
    var longer := done + [Step(t)];
    if ClearsOrWill(s.tasks[t]) {
      var k, mid :| 0 <= k <= |done| && Runs(cfg, s0, done[..k], mid) && LooksUpItself(cfg.sch, mid, s.now, s.tasks[t]);
      ClearerStaysOwner(cfg, s, t, mid);
      assert longer[..k] == done[..k];
    } else {
      ClearerLookedUp(cfg, s, t);
      assert longer[..|done|] == done;
    }
  }

  lemma ActionKeepsClearers<T(!new)>(cfg: Config<T>, s0: State<T>, done: seq<Action<T>>, s: State<T>, act: Action<T>)
    requires Runs(cfg, s0, done, s) && RemovalsOk(s) && ClearersOwn(cfg, s0, done, s) && Enabled(s, act)
    ensures ClearersOwn(cfg, s0, done + [act], Apply(cfg, s, act))
  {
    hide Runs, OwnedInOwnView, TaskMove, StepMove, ClearsOrWill;
    var s' := Apply(cfg, s, act);
    if act.Step? {
      StepStartsNothing(cfg, s, act.t);
    } else if IsTaskAction(act) {
      OthersAreNoClearers(cfg, s, act);
    }
    forall i: nat | i < |s'.tasks| && ClearsOrWill(s'.tasks[i])
      ensures OwnedInOwnView(cfg, s0, done + [act], s'.now, s'.tasks[i])
    {
      if act.Step? && i == act.t {
        assert RemovalOk(s, s.tasks[i]);
        MoverOwns(cfg, s0, done, s, i);
      } else if i < |s.tasks| {
        if IsTaskAction(act) && i == act.t {
          SameTaskOwns(cfg, s0, done, s.now, s.tasks[i], s'.tasks[i]);
        }
        LongerRunOwns(cfg, s0, done, act, s.now, s'.now, s'.tasks[i]);
      } else {
        NewTasksClearNothing(cfg, s, act, i);
      }
    }
  }

  lemma SameTaskOwns<T(!new)>(cfg: Config<T>, s0: State<T>, done: seq<Action<T>>, now: nat, a: Task, b: Task)
    requires OwnedInOwnView(cfg, s0, done, now, a)
    requires b.node == a.node && b.key == a.key && b.started == a.started && b.mainClearedAt == a.mainClearedAt
    ensures OwnedInOwnView(cfg, s0, done, now, b)
  {
    hide Runs, RoutesTo;
    var k, mid :| 0 <= k <= |done| && Runs(cfg, s0, done[..k], mid) && LooksUpItself(cfg.sch, mid, now, a);
    assert LooksUpItself(cfg.sch, mid, now, b);
  }

  lemma NewTasksClearNothing<T>(cfg: Config<T>, s: State<T>, act: Action<T>, i: nat)
    requires Enabled(s, act) && |s.tasks| <= i < |Apply(cfg, s, act).tasks|
    ensures !ClearsOrWill(Apply(cfg, s, act).tasks[i])
  {
    hide StepMove;
    if act.Step? {
      StepStartsNothing(cfg, s, act.t);
    } else if IsTaskAction(act) {
      OthersAreNoClearers(cfg, s, act);
    }
  }

  lemma {:induction false} RunsKeepClearers<T(!new)>(cfg: Config<T>, s0: State<T>, done: seq<Action<T>>, s: State<T>,
                                                     acts: seq<Action<T>>, final: State<T>)
    requires Sound(cfg.sch) && Inv(cfg.sch, s) && Coherent(s) && RemovalsOk(s)
    requires Runs(cfg, s0, done, s) && ClearersOwn(cfg, s0, done, s) && Runs(cfg, s, acts, final)
    requires forall act | act in acts :: Fair(cfg.sch, act)
    ensures Inv(cfg.sch, final) && RemovalsOk(final) && ClearersOwn(cfg, s0, done + acts, final)
    decreases |acts|
  {
    hide Inv, Coherent, RemovalsOk, ClearersOwn, Apply, Fair;
    if acts == [] {
      assert done + acts == done;
    } else {
      ActionKeepsInv(cfg, s, acts[0]);
      ActionKeepsCoherence(cfg, s, acts[0]);
      ActionKeepsRemovals(cfg, s, acts[0]);
      ActionKeepsClearers(cfg, s0, done, s, acts[0]);
      RunsThenOne(cfg, s0, done, s, acts[0]);
      RunsKeepClearers(cfg, s0, done + [acts[0]], Apply(cfg, s, acts[0]), acts[1..], final);
      assert done + [acts[0]] + acts[1..] == done + acts;
    }
  }

  /**
   Removing reaches an owner, in every state of every run from start-up: the key is cleared along a chain of different
   nodes, and the last of them, while the remove ran there, had a table that sends the key to the node itself.
   */
  lemma RemovesReachOwners<T(!new)>(cfg: Config<T>, s: State<T>, acts: seq<Action<T>>, final: State<T>, i: nat)
    returns (path: seq<nat>, k: nat, mid: State<T>)
    requires Sound(cfg.sch) && Init(s) && Runs(cfg, s, acts, final)
    requires forall n | n in s.nodes :: OnOwnRing(cfg.sch, n, s.nodes[n].table)
    requires forall act | act in acts :: Fair(cfg.sch, act)
    requires i < |final.tasks| && final.tasks[i].op.Remove? && final.tasks[i].phase == Finished(Removed)
    ensures path != [] && path[0] == i && ClearedAlong(final, path, final.tasks[i].started)
    ensures forall x, y | 0 <= x < y < |path| :: final.tasks[path[x]].node != final.tasks[path[y]].node
    ensures k <= |acts| && Runs(cfg, s, acts[..k], mid)
    ensures var last := final.tasks[path[|path| - 1]];
            && last.started <= mid.now < last.mainClearedAt.value
            && last.node in mid.nodes && RoutesTo(cfg.sch, mid.nodes[last.node].table, last.key, last.node)
  {
    hide Runs, OnOwnRing, Fair, Inv, Coherent, RemovalsOk, RoutesTo;
    StartUpIsCoherent(cfg.sch, s);
    StartUpHasNoRemovals(cfg, s);
    RunsKeepClearers(cfg, s, [], s, acts, final);
    path := RemoveReachesOwner(cfg.sch, final, i);
    ForwardingIsLoopFree(cfg.sch, final, path);
    var a := final.tasks[path[|path| - 1]];
    assert [] + acts == acts;
    assert a.op.Remove? && ClearsOrWill(a);
    k, mid :| 0 <= k <= |acts| && Runs(cfg, s, acts[..k], mid) && LooksUpItself(cfg.sch, mid, final.now, a);
  }

  lemma StartUpHasNoRemovals<T(!new)>(cfg: Config<T>, s: State<T>)
    requires Init(s)
    ensures RemovalsOk(s) && ClearersOwn(cfg, s, [], s) && Runs(cfg, s, [], s)
  {
  }

  // ------------------------------------------------------------ what follows

  /** From `mid` to `s`, task `t` clears the main cache of its own node, and no flight for the key runs anywhere. */
  ghost predicate Clears<T>(cfg: Config<T>, mid: State<T>, t: nat, s: State<T>, key: string, owner: Peer) {
    && CanStep(mid, t) && s == Apply(cfg, mid, Step(t))
    && var a := mid.tasks[t];
    && a.op.Remove? && a.key == key && a.node == owner && a.phase.Routed? && a.phase.peer == owner
    && forall n | n in mid.nodes :: key !in mid.nodes[n].flights
  }

  /** The nodes of a run with fixed tables that all route the key to its owner. */
  ghost predicate Agreed<T>(cfg: Config<T>, s0: State<T>, key: string, owner: Peer) {
    && Init(s0) && AllRouteTo(cfg.sch, s0, key, owner)
    && forall n | n in s0.nodes :: OnOwnRing(cfg.sch, n, s0.nodes[n].table)
  }

  /**
   When a remove clears the owner's main cache while no flight for the key runs, the loader was called since for
   whatever a get returns that starts a time to live later, or at once on a node whose hot cache did not serve the
   key then.
   */
  lemma RemovedMeansFresh<T(!new)>(cfg: Config<T>, s0: State<T>, before: seq<Action<T>>, mid: State<T>, t: nat,
                                   s: State<T>, after: seq<Action<T>>, final: State<T>,
                                   key: string, owner: Peer, i: nat)
    requires Sound(cfg.sch) && Agreed(cfg, s0, key, owner)
    requires Runs(cfg, s0, before, mid) && TablesFixed(before) && Clears(cfg, mid, t, s, key, owner)
    requires Runs(cfg, s, after, final) && TablesFixed(after)
    requires |s.tasks| <= i < |final.tasks| && final.tasks[i].op.Get? && final.tasks[i].key == key
    requires HasValue(final.tasks, i)
    requires
      || final.tasks[i].clock >= s.clock + cfg.ttl
      || (final.tasks[i].node in s.nodes && s.nodes[final.tasks[i].node].HotGet(key, s.clock, cfg.ttl).None?)
    ensures final.tasks[i].phase.answer.val.called >= s.now
    ensures ValOk(final.loads, key, final.tasks[i].phase.answer.val)
  {
    hide Agreed, Runs, Clears, Inv, Coherent, Placed, ClocksOk, AllRouteTo, Dropped, Gone, OnOwnRing, ValOk;
    ClearedMeansDropped(cfg, s0, before, mid, t, s, key, owner);
    PlacedAndDroppedMeansGone(cfg, s, key, owner);
    StalenessIsBounded(cfg, s, after, final, key, owner, i);
    FixedIsFair(cfg.sch, after);
    RunsAreCoherent(cfg, s, after, final);
    AnswerHasLoad(final, i);
  }

  /** The owner itself is such a node. */
  lemma OwnerIsFreshAtOnce<T(!new)>(cfg: Config<T>, s0: State<T>, before: seq<Action<T>>, mid: State<T>, t: nat,
                                    s: State<T>, key: string, owner: Peer)
    requires Sound(cfg.sch) && Agreed(cfg, s0, key, owner)
    requires Runs(cfg, s0, before, mid) && TablesFixed(before) && Clears(cfg, mid, t, s, key, owner)
    ensures owner in s.nodes && s.nodes[owner].HotGet(key, s.clock, cfg.ttl).None?
  {
    hide Agreed, Runs, Inv, Coherent, Placed, ClocksOk, AllRouteTo, Dropped, OnOwnRing, LookupPeer;
    ClearedMeansDropped(cfg, s0, before, mid, t, s, key, owner);
    OneMainCachePerKey(cfg.sch, s, key, owner, owner);
  }

  lemma ClearedMeansDropped<T(!new)>(cfg: Config<T>, s0: State<T>, before: seq<Action<T>>, mid: State<T>, t: nat,
                                     s: State<T>, key: string, owner: Peer)
    requires Sound(cfg.sch) && Agreed(cfg, s0, key, owner)
    requires Runs(cfg, s0, before, mid) && TablesFixed(before) && Clears(cfg, mid, t, s, key, owner)
    ensures Inv(cfg.sch, s) && Coherent(s) && Placed(cfg.sch, s) && ClocksOk(s)
    ensures AllRouteTo(cfg.sch, s, key, owner) && Dropped(s, key, owner)
  {
    hide Init, Runs, Inv, Coherent, Placed, ClocksOk, RoutesTo, Dropped, Apply, OnOwnRing;
    RunsThenOne(cfg, s0, before, mid, Step(t));
    StartUpLeadsTo(cfg, s0, before + [Step(t)], s);
    ClearingStep(cfg, mid, t);
    NoFlightNoValue(cfg.sch, s, key, owner);
  }

  lemma ClearingStep<T>(cfg: Config<T>, mid: State<T>, t: nat)
    requires CanStep(mid, t) && mid.tasks[t].op.Remove? && mid.tasks[t].phase.Routed?
    requires mid.tasks[t].phase.peer == mid.tasks[t].node
    ensures var s := Apply(cfg, mid, Step(t));
            && s.now == mid.now + 1 && s.loads == mid.loads && |s.tasks| == |mid.tasks|
            && s.nodes.Keys == mid.nodes.Keys
            && mid.tasks[t].key !in s.nodes[mid.tasks[t].node].main
            && forall n | n in s.nodes :: s.nodes[n].flights == mid.nodes[n].flights
  {
    hide LookupPeer;
  }

  lemma AnswerHasLoad<T>(s: State<T>, i: nat)
    requires Coherent(s) && HasValue(s.tasks, i)
    ensures ValOk(s.loads, s.tasks[i].key, s.tasks[i].phase.answer.val)
  {
    assert HeldOk(s.loads, i, s.tasks[i]);
  }
}
