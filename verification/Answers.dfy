/**
 Where answers come from: every cached or returned value is the outcome of a load of its key, and a get fails
 only because the loader of its own node failed.
 */
module Answers {
  import opened Wrappers
  import opened VNodes
  import opened Routing
  import opened NodeState
  import opened Cluster
  import opened Structure

  // --------------------------------------------------------------- coherence

  ghost predicate ValOk(loads: seq<Load>, key: string, v: Val) {
    && v.load < |loads|
    && loads[v.load].key == key && loads[v.load].called == v.called && loads[v.load].outcome == Some(v.data)
  }

  /** A failed call of the loader of the node for the key, made by the get itself or by the flight it joined. */
  ghost predicate FailedFor(loads: seq<Load>, i: nat, a: Task, l: nat) {
    && l < |loads| && loads[l].node == a.node && loads[l].key == a.key && loads[l].outcome.None?
    && (loads[l].task == i || a.joined == Some(loads[l].task))
  }

  /** An answer that task `a`, the one with number `i`, may hold: a loaded value, or an error with its reason. */
  ghost predicate AnswerOk(loads: seq<Load>, i: nat, a: Task, answer: Answer) {
    match answer
    case Ok(v) => a.op.Get? && ValOk(loads, a.key, v)
    case Removed => a.op.Remove?
    case Err(LoaderFailed(l)) => a.op.Get? && FailedFor(loads, i, a, l)
    case Err(RpcFailed) => a.op.Remove?
    case Err(_) => true
  }

  ghost predicate HeldOk(loads: seq<Load>, i: nat, a: Task) {
    match a.phase
    case FillingMain(v) => ValOk(loads, a.key, v)
    case FillingHot(v) => ValOk(loads, a.key, v)
    case Closing(answer) => AnswerOk(loads, i, a, answer)
    case Finished(answer) => AnswerOk(loads, i, a, answer)
    case _ => true
  }

  ghost predicate CachesOk<T>(loads: seq<Load>, n: Node<T>) {
    && (forall key | key in n.main :: ValOk(loads, key, n.main[key].val))
    && (forall key | key in n.hot :: ValOk(loads, key, n.hot[key].val))
  }

  ghost predicate Coherent<T>(s: State<T>) {
    && (forall n | n in s.nodes :: CachesOk(s.loads, s.nodes[n]))
    && (forall i: nat | i < |s.tasks| :: HeldOk(s.loads, i, s.tasks[i]))
  }

  /** What is known of values stays true as more loads are logged. */
  lemma LogsOnlyGrow<T>(loads: seq<Load>, more: seq<Load>, i: nat, a: Task, n: Node<T>)
    requires loads <= more
    ensures HeldOk(loads, i, a) ==> HeldOk(more, i, a)
    ensures CachesOk(loads, n) ==> CachesOk(more, n)
  {
  }

  ghost predicate MoveCoherent<T>(s: State<T>, t: nat, m: Move<T>) {
    && s.loads <= m.loads
    && HeldOk(m.loads, t, m.task) && CachesOk(m.loads, m.node)
    && forall a | a in m.started :: a.phase.Fresh?
  }

  lemma ProbeIsCoherent<T(!new)>(cfg: Config<T>, s: State<T>, t: nat)
    requires Inv(cfg.sch, s) && Coherent(s) && CanStep(s, t) && s.tasks[t].op.Get? && !InFlight(s.tasks[t])
    ensures MoveCoherent(s, t, StepMove(cfg, s, t))
  {
    hide Nearer, OnOwnRing, LookupPeer, FlightOk, ValOk;
    var a := s.tasks[t];
    assert TaskOk(cfg.sch, s, t) && HeldOk(s.loads, t, a) && CachesOk(s.loads, s.nodes[a.node]);
    if a.phase.Following? {
      assert HeldOk(s.loads, a.phase.leader, s.tasks[a.phase.leader]);
    }
  }

  lemma FlightIsCoherent<T(!new)>(cfg: Config<T>, s: State<T>, t: nat)
    requires Inv(cfg.sch, s) && Coherent(s) && CanStep(s, t) && InFlight(s.tasks[t])
    ensures MoveCoherent(s, t, StepMove(cfg, s, t))
  {
    hide Nearer, OnOwnRing, LookupPeer, FlightOk, ValOk;
    var a := s.tasks[t];
    assert TaskOk(cfg.sch, s, t) && HeldOk(s.loads, t, a) && CachesOk(s.loads, s.nodes[a.node]);
    if a.phase.Awaiting? {
      assert HeldOk(s.loads, a.child.value, s.tasks[a.child.value]);
    }
  }

  lemma RemoveIsCoherent<T(!new)>(cfg: Config<T>, s: State<T>, t: nat)
    requires Inv(cfg.sch, s) && Coherent(s) && CanStep(s, t) && s.tasks[t].op.Remove?
    ensures MoveCoherent(s, t, StepMove(cfg, s, t))
  {
    hide Nearer, OnOwnRing, LookupPeer, FlightOk, ValOk;
    var a := s.tasks[t];
    assert TaskOk(cfg.sch, s, t) && HeldOk(s.loads, t, a) && CachesOk(s.loads, s.nodes[a.node]);
  }

  lemma LoadIsCoherent<T(!new)>(sch: Scheme<T>, s: State<T>, t: nat, outcome: Option<string>)
    requires Inv(sch, s) && Coherent(s) && CanLoad(s, t)
    ensures MoveCoherent(s, t, LoadMove(s, t, outcome))
  {
    hide Nearer, OnOwnRing, FlightOk, CachesOk;
    var a := s.tasks[t];
    assert TaskOk(sch, s, t);
    LogsOnlyGrow(s.loads, s.loads + [Load(t, a.phase.called, a.node, a.key, outcome)], t, a, s.nodes[a.node]);
    LogsOnlyGrow(s.loads, s.loads + [Load(t, a.phase.called, a.node, a.key, outcome)], t, a,
                 s.nodes[a.node].CountLocalLoadError());
    SameCaches(s.loads, s.nodes[a.node], s.nodes[a.node].CountLocalLoadError());
  }

  lemma SameCaches<T>(loads: seq<Load>, n: Node<T>, n': Node<T>)
    requires n.main == n'.main && n.hot == n'.hot
    ensures CachesOk(loads, n) <==> CachesOk(loads, n')
  {
  }

  lemma RequestIsCoherent<T(!new)>(cfg: Config<T>, s: State<T>, act: Action<T>)
    requires Coherent(s) && Enabled(s, act) && (act.Deliver? || act.RpcFails?)
    ensures MoveCoherent(s, act.t, TaskMove(cfg, s, act))
  {
    hide ValOk;
    assert CachesOk(s.loads, s.nodes[s.tasks[act.t].node]);
  }

  lemma MoveIsCoherent<T(!new)>(cfg: Config<T>, s: State<T>, act: Action<T>)
    requires Inv(cfg.sch, s) && Coherent(s) && Enabled(s, act) && IsTaskAction(act)
    ensures MoveCoherent(s, act.t, TaskMove(cfg, s, act))
  {
    hide Inv, Coherent, MoveCoherent, StepMove, LoadMove;
    match act
    case Step(t) =>
      if s.tasks[t].op.Remove? {
        RemoveIsCoherent(cfg, s, t);
      } else if InFlight(s.tasks[t]) {
        FlightIsCoherent(cfg, s, t);
      } else {
        ProbeIsCoherent(cfg, s, t);
      }
    case LoadReturns(t, outcome) => LoadIsCoherent(cfg.sch, s, t, outcome);
    case _ => RequestIsCoherent(cfg, s, act);
  }

  lemma ActionKeepsCoherence<T(!new)>(cfg: Config<T>, s: State<T>, act: Action<T>)
    requires Inv(cfg.sch, s) && Coherent(s) && Enabled(s, act)
    ensures Coherent(Apply(cfg, s, act))
  {
    hide Inv, TaskMove, ValOk, AnswerOk;
    var s' := Apply(cfg, s, act);
    if IsTaskAction(act) {
      MoveIsCoherent(cfg, s, act);
      forall n | n in s'.nodes ensures CachesOk(s'.loads, s'.nodes[n]) {
        hide HeldOk, CachesOk;
        if n in s.nodes {
          LogsOnlyGrow(s.loads, s'.loads, act.t, s.tasks[act.t], s.nodes[n]);
        }
      }
      forall i: nat | i < |s'.tasks| ensures HeldOk(s'.loads, i, s'.tasks[i]) {
        hide CachesOk;
        if i < |s.tasks| && i != act.t {
          LogsOnlyGrow(s.loads, s'.loads, i, s.tasks[i], s.nodes[s.tasks[act.t].node]);
        }
      }
    }
  }

  /**
   Coherence of a whole run: whatever is evicted, removed, lost or rerouted, every value came from a load of its
   key.
   */
  lemma {:induction false} RunsAreCoherent<T(!new)>(cfg: Config<T>, s: State<T>, acts: seq<Action<T>>, final: State<T>)
    requires Sound(cfg.sch) && Inv(cfg.sch, s) && Coherent(s) && Runs(cfg, s, acts, final)
    requires forall act | act in acts :: Fair(cfg.sch, act)
    ensures Inv(cfg.sch, final) && Coherent(final)
    decreases |acts|
  {
    hide Inv, Coherent, Apply, Fair;
    if acts != [] {
      ActionKeepsInv(cfg, s, acts[0]);
      ActionKeepsCoherence(cfg, s, acts[0]);
      RunsAreCoherent(cfg, Apply(cfg, s, acts[0]), acts[1..], final);
    }
  }

  lemma StartUpIsCoherent<T(!new)>(sch: Scheme<T>, s: State<T>)
    requires Init(s) && forall n | n in s.nodes :: OnOwnRing(sch, n, s.nodes[n].table)
    ensures Inv(sch, s) && Coherent(s)
  {
    hide OnOwnRing;
  }

  /** All successful loads of a key returned the same value. */
  ghost predicate LoadsAgree(loads: seq<Load>, value: string -> string) {
    forall l | l in loads && l.outcome.Some? :: l.outcome.value == value(l.key)
  }

  /** If the loaders are a function of the key, all caches of the cluster and all answers agree with it. */
  lemma ClusterAgreesWithLoader<T>(s: State<T>, value: string -> string)
    requires Coherent(s) && LoadsAgree(s.loads, value)
    ensures forall n, key | n in s.nodes && key in s.nodes[n].main :: s.nodes[n].main[key].val.data == value(key)
    ensures forall n, key | n in s.nodes && key in s.nodes[n].hot :: s.nodes[n].hot[key].val.data == value(key)
    ensures forall a | a in s.tasks && a.op.Get? && a.phase.Finished? && a.phase.answer.Ok? ::
          a.phase.answer.val.data == value(a.key)
  {
    forall n, key | n in s.nodes && key in s.nodes[n].main ensures s.nodes[n].main[key].val.data == value(key) {
      assert CachesOk(s.loads, s.nodes[n]);
      ValAgrees(s.loads, value, key, s.nodes[n].main[key].val);
    }
    forall n, key | n in s.nodes && key in s.nodes[n].hot ensures s.nodes[n].hot[key].val.data == value(key) {
      assert CachesOk(s.loads, s.nodes[n]);
      ValAgrees(s.loads, value, key, s.nodes[n].hot[key].val);
    }
    forall a | a in s.tasks && a.op.Get? && a.phase.Finished? && a.phase.answer.Ok?
      ensures a.phase.answer.val.data == value(a.key)
    {
      var i: nat :| i < |s.tasks| && s.tasks[i] == a;
      assert HeldOk(s.loads, i, s.tasks[i]);
      ValAgrees(s.loads, value, a.key, a.phase.answer.val);
    }
  }

  lemma ValAgrees(loads: seq<Load>, value: string -> string, key: string, v: Val)
    requires ValOk(loads, key, v) && LoadsAgree(loads, value)
    ensures v.data == value(key)
  {
    assert loads[v.load] in loads;
  }

  // --------------------------------------------------------- failure masking

  /** Ring and map of the node are in step, and its connections reach their peers. */
  ghost predicate TableSynced<T>(sch: Scheme<T>, n: Peer, t: Table<T>) {
    Synced(sch, n, t) && forall p | p in t.peers :: t.peers[p].target == p
  }

  /** Tables may change as long as each node stays on its own ring, and the table of node `n` stays in step. */
  ghost predicate SyncedFair<T>(sch: Scheme<T>, n: Peer, act: Action<T>) {
    Fair(sch, act) && (act.ReplaceTable? && act.node == n ==> TableSynced(sch, n, act.table))
  }

  /** No error but a failed loader reaches a get, and none but a failed request reaches a remove. */
  predicate Masked(a: Task) {
    match a.phase
    case Routed(p, client) => client.None? ==> p == a.node
    case Leading(p, client) => client.None? ==> p == a.node
    case Closing(Err(f)) => f.LoaderFailed?
    case Finished(Err(f)) => if a.op.Get? then f.LoaderFailed? else f.RpcFailed?
    case _ => true
  }

  /** Node `n` has its table in step, and so no lookup on it led nowhere. */
  ghost predicate MaskedOn<T>(sch: Scheme<T>, s: State<T>, n: Peer) {
    && n in s.nodes && TableSynced(sch, n, s.nodes[n].table) && s.nodes[n].c.unroutable == 0
    && (forall i: nat | i < |s.tasks| && s.tasks[i].node == n :: Masked(s.tasks[i]))
  }

  lemma StepIsMasked<T(!new)>(cfg: Config<T>, s: State<T>, t: nat)
    requires Sound(cfg.sch) && Inv(cfg.sch, s) && CanStep(s, t) && MaskedOn(cfg.sch, s, s.tasks[t].node)
    ensures var m := StepMove(cfg, s, t);
            m.node.table == s.nodes[s.tasks[t].node].table && m.node.c.unroutable == 0 && Masked(m.task)
  {
    hide Nearer, OnOwnRing, LookupPeer, FlightOk, Synced;
    var a := s.tasks[t];
    assert TaskOk(cfg.sch, s, t) && Masked(a);
    if a.phase.Unrouted? {
      LookupFindsOwner(cfg.sch, a.node, s.nodes[a.node].table, a.key);
    } else if a.phase.Following? {
      assert Masked(s.tasks[a.phase.leader]);
    }
  }

  lemma OtherMovesAreMasked<T(!new)>(cfg: Config<T>, s: State<T>, act: Action<T>)
    requires Enabled(s, act) && IsTaskAction(act) && !act.Step? && MaskedOn(cfg.sch, s, s.tasks[act.t].node)
    ensures var m := TaskMove(cfg, s, act);
            m.node.table == s.nodes[s.tasks[act.t].node].table && m.node.c.unroutable == 0 && Masked(m.task)
  {
    hide TableSynced;
  }

  lemma ActionKeepsMasked<T(!new)>(cfg: Config<T>, s: State<T>, act: Action<T>, n: Peer)
    requires Sound(cfg.sch) && Inv(cfg.sch, s) && MaskedOn(cfg.sch, s, n) && Enabled(s, act)
    requires SyncedFair(cfg.sch, n, act)
    ensures MaskedOn(cfg.sch, Apply(cfg, s, act), n)
  {
    hide Inv, TaskMove, TableSynced;
    if IsTaskAction(act) {
      MovesStayOnNode(cfg, s, act);
      if s.tasks[act.t].node == n {
        if act.Step? {
          StepIsMasked(cfg, s, act.t);
          StepStartsNothing(cfg, s, act.t);
        } else {
          OtherMovesAreMasked(cfg, s, act);
        }
      }
      StartedAreFresh(cfg, s, act);
    }
  }

  lemma MovesStayOnNode<T>(cfg: Config<T>, s: State<T>, act: Action<T>)
    requires Enabled(s, act) && IsTaskAction(act)
    ensures TaskMove(cfg, s, act).task.node == s.tasks[act.t].node
  {
    hide LookupPeer;
  }

  lemma StepStartsNothing<T>(cfg: Config<T>, s: State<T>, t: nat)
    requires CanStep(s, t)
    ensures TaskMove(cfg, s, Step(t)) == StepMove(cfg, s, t) && StepMove(cfg, s, t).started == []
  {
    hide StepGet, StepRemove;
  }

  lemma StartedAreFresh<T>(cfg: Config<T>, s: State<T>, act: Action<T>)
    requires Enabled(s, act) && IsTaskAction(act)
    ensures forall a | a in TaskMove(cfg, s, act).started :: a.phase.Fresh?
  {
    hide StepGet, StepRemove;
  }

  lemma {:induction false} RunsAreMasked<T(!new)>(cfg: Config<T>, s: State<T>, acts: seq<Action<T>>, final: State<T>,
                                                  n: Peer)
    requires Sound(cfg.sch) && Inv(cfg.sch, s) && Coherent(s) && MaskedOn(cfg.sch, s, n) && Runs(cfg, s, acts, final)
    requires forall act | act in acts :: SyncedFair(cfg.sch, n, act)
    ensures Inv(cfg.sch, final) && Coherent(final) && MaskedOn(cfg.sch, final, n)
    decreases |acts|
  {
    hide Inv, Coherent, MaskedOn, Apply, SyncedFair, Fair;
    if acts != [] {
      SyncedIsFair(cfg.sch, n, acts[0]);
      ActionKeepsInv(cfg, s, acts[0]);
      ActionKeepsCoherence(cfg, s, acts[0]);
      ActionKeepsMasked(cfg, s, acts[0], n);
      RunsAreMasked(cfg, Apply(cfg, s, acts[0]), acts[1..], final, n);
    }
  }

  lemma SyncedIsFair<T>(sch: Scheme<T>, n: Peer, act: Action<T>)
    requires SyncedFair(sch, n, act)
    ensures Fair(sch, act)
  {
  }

  lemma StartUpIsMasked<T>(sch: Scheme<T>, s: State<T>, n: Peer)
    requires Init(s) && n in s.nodes && TableSynced(sch, n, s.nodes[n].table)
    ensures MaskedOn(sch, s, n)
  {
    hide TableSynced;
  }

  /**
   With ring and map of its own node in step, a get fails only because the loader of that node failed for its key,
   called by the get itself or by the flight that it joined. The tables of other nodes may be in any state, and
   requests may fail in any way along the chain.
   */
  lemma FailuresAreMasked<T(!new)>(cfg: Config<T>, s: State<T>, acts: seq<Action<T>>, final: State<T>, i: nat)
    requires Sound(cfg.sch) && Init(s) && Runs(cfg, s, acts, final)
    requires i < |final.tasks| && final.tasks[i].op.Get? && final.tasks[i].phase.Finished?
    requires final.tasks[i].phase.answer.Err?
    requires forall n | n in s.nodes :: OnOwnRing(cfg.sch, n, s.nodes[n].table)
    requires final.tasks[i].node in s.nodes
    requires TableSynced(cfg.sch, final.tasks[i].node, s.nodes[final.tasks[i].node].table)
    requires forall act | act in acts :: SyncedFair(cfg.sch, final.tasks[i].node, act)
    ensures var f := final.tasks[i].phase.answer.failure;
            f.LoaderFailed? && FailedFor(final.loads, i, final.tasks[i], f.load)
  {
    hide Runs, TableSynced, OnOwnRing, SyncedFair, Inv;
    var n := final.tasks[i].node;
    StartUpIsCoherent(cfg.sch, s);
    StartUpIsMasked(cfg.sch, s, n);
    RunsAreMasked(cfg, s, acts, final, n);
    assert Masked(final.tasks[i]) && HeldOk(final.loads, i, final.tasks[i]);
  }
}
