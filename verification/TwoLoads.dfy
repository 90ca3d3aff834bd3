/**
 When a key is loaded twice at the same time although all nodes agree on its owner. A failed request makes a node
 load for itself, beside the owner, and so may a table that was replaced while a get was on its way; this module has
 a run of each kind, and shows that nothing else leads there.
 */
module TwoLoads {
  import opened Wrappers
  import opened VNodes
  import opened Routing
  import opened NodeState
  import opened Cluster
  import opened Structure
  import opened Answers
  import opened Ownership
  import opened Staleness
  import opened StaleRuns
  import opened Alone
  import opened SecondLoad

  // ------------------------------------------------------------- what a failure is

  predicate IsError(a: Task) {
    (a.phase.Closing? || a.phase.Finished?) && a.phase.answer.Err?
  }

  /** The get is going to return an error, its own or that of the flight it joined. */
  predicate Doomed(tasks: seq<Task>, i: nat) {
    && i < |tasks| && tasks[i].op.Get?
    && (|| IsError(tasks[i])
        || (tasks[i].phase.Following? && tasks[i].phase.leader < |tasks| && IsError(tasks[tasks[i].phase.leader])))
  }

  /** A request of a get of the key is lost, or one more get of the key is going to return an error. */
  ghost predicate Fails<T>(cfg: Config<T>, s: State<T>, act: Action<T>, key: string)
    requires Enabled(s, act)
  {
    || (act.RpcFails? && s.tasks[act.t].op.Get? && s.tasks[act.t].key == key)
    || exists i: nat ::
          && i < |Apply(cfg, s, act).tasks| && Apply(cfg, s, act).tasks[i].key == key
          && Doomed(Apply(cfg, s, act).tasks, i) && !Doomed(s.tasks, i)
  }

  /** A run during which no table changes and nothing more fails for the key. */
  ghost predicate RunsWell<T>(cfg: Config<T>, s: State<T>, acts: seq<Action<T>>, final: State<T>, key: string)
    decreases |acts|
  {
    if acts == [] then s == final
    else
      && Enabled(s, acts[0]) && !acts[0].ReplaceTable? && !Fails(cfg, s, acts[0], key)
      && RunsWell(cfg, Apply(cfg, s, acts[0]), acts[1..], final, key)
  }

  /** The request of the get has failed: it loads for itself, is about to, or waits for an answer that is an error. */
  predicate FellBack(tasks: seq<Task>, t: nat, key: string) {
    && t < |tasks|
    && var a := tasks[t];
    && a.op.Get? && a.key == key
    && (|| a.phase.FallingBack? || a.phase.LoadingFallback?
        || (a.phase.Awaiting? && a.child.Some? && Doomed(tasks, a.child.value)))
  }

  /** The get was routed to its own node, and is going to load the key there or does so. */
  predicate OwnBound(a: Task) {
    match a.phase
    case Routed(p, _) => p == a.node
    case Leading(p, _) => p == a.node
    case LoadingOwn(_) => true
    case _ => false
  }

  /**
   A get of the key, on another node than its owner, that is bound to load: its request failed, or a former table
   sent it to its own node.
   */
  predicate Astray(tasks: seq<Task>, t: nat, key: string, owner: Peer) {
    && t < |tasks| && tasks[t].op.Get? && tasks[t].key == key && tasks[t].node != owner
    && (FellBack(tasks, t, key) || OwnBound(tasks[t]))
  }

  ghost predicate LoadsKey<T>(s: State<T>, i: nat, key: string) {
    i < |s.tasks| && s.tasks[i].op.Get? && s.tasks[i].key == key && Loading(s.tasks[i])
  }

  ghost predicate TwoAtOnce<T>(s: State<T>, key: string) {
    exists i: nat, j: nat :: i != j && LoadsKey(s, i, key) && LoadsKey(s, j, key)
  }

  ghost predicate MayLoadTwice<T(!new)>(cfg: Config<T>, s: State<T>, key: string) {
    exists acts, final :: RunsWell(cfg, s, acts, final, key) && TwoAtOnce(final, key)
  }

  // ------------------------------------------------------------------- only if

  ghost predicate NobodyAstray<T>(s: State<T>, key: string, owner: Peer) {
    forall t: nat :: !Astray(s.tasks, t, key, owner)
  }

  lemma MoverFallsNotBack<T(!new)>(cfg: Config<T>, s: State<T>, act: Action<T>, key: string)
    requires Inv(cfg.sch, s) && Coherent(s) && Enabled(s, act) && IsTaskAction(act) && act.t < |s.tasks|
    requires !FellBack(s.tasks, act.t, key) && !Fails(cfg, s, act, key)
    ensures var b := TaskMove(cfg, s, act).task;
            && (b.op.Get? && b.key == key ==>
                  && !b.phase.FallingBack? && !b.phase.LoadingFallback?
                  && (b.phase.Awaiting? ==> act.Deliver? && b.child == Some(|s.tasks|)))
  {
    hide Inv, Coherent, LookupPeer, Nearer, Apply;
    var a := s.tasks[act.t];
    OneTaskIsOk(cfg.sch, s, act.t);
    if a.op.Get? && a.phase.Awaiting? && a.child.Some? {
      AnswersAreKnown(cfg.sch, s, act.t);
    }
  }

  /** Only the lookup of the owner binds a get to load on its own node. */
  lemma MoverIsNotBound<T(!new)>(cfg: Config<T>, s: State<T>, act: Action<T>, key: string, owner: Peer)
    requires Inv(cfg.sch, s) && AllRouteTo(cfg.sch, s, key, owner) && Enabled(s, act) && IsTaskAction(act)
    requires act.t < |s.tasks|
    requires s.tasks[act.t].op.Get? && s.tasks[act.t].key == key && s.tasks[act.t].node != owner
    requires !OwnBound(s.tasks[act.t])
    ensures !OwnBound(TaskMove(cfg, s, act).task)
  {
    hide Inv, LookupPeer, Nearer, ChildOk;
    OneTaskIsOk(cfg.sch, s, act.t);
  }

  lemma AnswersAreKnown<T>(sch: Scheme<T>, s: State<T>, t: nat)
    requires Inv(sch, s) && Coherent(s) && t < |s.tasks| && s.tasks[t].op.Get? && s.tasks[t].child.Some?
    ensures s.tasks[t].child.value < |s.tasks|
    ensures var b := s.tasks[s.tasks[t].child.value];
            b.op.Get? && b.key == s.tasks[t].key && (b.phase.Finished? ==> !b.phase.answer.Removed?)
  {
    hide Inv, CachesOk, Nearer;
    OneTaskIsOk(sch, s, t);
    assert HeldOk(s.loads, s.tasks[t].child.value, s.tasks[s.tasks[t].child.value]);
  }

  lemma ActionLeadsNotAstray<T(!new)>(cfg: Config<T>, s: State<T>, act: Action<T>, key: string, owner: Peer)
    requires Inv(cfg.sch, s) && Coherent(s) && AllRouteTo(cfg.sch, s, key, owner) && NobodyAstray(s, key, owner)
    requires Enabled(s, act) && !Fails(cfg, s, act, key)
    ensures NobodyAstray(Apply(cfg, s, act), key, owner)
  {
    hide Inv, Coherent, AllRouteTo, TaskMove, Doomed, OwnBound;
    var s' := Apply(cfg, s, act);
    if IsTaskAction(act) {
      MoverIsKnown(cfg, s, act);
      StartedAreFresh(cfg, s, act);
      assert !Astray(s.tasks, act.t, key, owner);
      var a := s.tasks[act.t];
      if a.op.Get? && a.key == key && a.node != owner {
        MoverFallsNotBack(cfg, s, act, key);
        MoverIsNotBound(cfg, s, act, key, owner);
      }
    }
    forall t: nat | t < |s'.tasks| && s'.tasks[t].op.Get? && s'.tasks[t].key == key && s'.tasks[t].node != owner
      ensures !Astray(s'.tasks, t, key, owner)
    {
      assert !Astray(s.tasks, t, key, owner);
      if t >= |s.tasks| {
        FreshIsNotBound(s'.tasks[t]);
      } else if s.tasks[t] == s'.tasks[t] && s.tasks[t].child.Some? {
        AnswersAreKnown(cfg.sch, s, t);
        assert Doomed(s'.tasks, s.tasks[t].child.value) ==> Doomed(s.tasks, s.tasks[t].child.value);
      } else if s'.tasks[t].phase.Awaiting? {
        FreshIsNotDoomed(s'.tasks, |s.tasks|);
      }
    }
  }

  lemma FreshIsNotBound(a: Task)
    ensures a.phase.Fresh? ==> !OwnBound(a)
  {
  }

  lemma FreshIsNotDoomed(tasks: seq<Task>, i: nat)
    requires i < |tasks| ==> tasks[i].phase.Fresh?
    ensures !Doomed(tasks, i)
  {
  }

  lemma ActionKeepsRoutes<T(!new)>(cfg: Config<T>, s: State<T>, act: Action<T>, key: string, owner: Peer)
    requires Sound(cfg.sch) && Inv(cfg.sch, s) && AllRouteTo(cfg.sch, s, key, owner) && Enabled(s, act)
    requires !act.ReplaceTable?
    ensures AllRouteTo(cfg.sch, Apply(cfg, s, act), key, owner) && Apply(cfg, s, act).nodes.Keys == s.nodes.Keys
  {
    hide Inv, TaskMove, RoutesTo;
    if IsTaskAction(act) {
      MovesAreOk(cfg, s, act);
    }
  }

  lemma {:induction false} RunsLeadNotAstray<T(!new)>(cfg: Config<T>, s: State<T>, acts: seq<Action<T>>,
                                                      final: State<T>, key: string, owner: Peer)
    requires Sound(cfg.sch) && Inv(cfg.sch, s) && Coherent(s) && AllRouteTo(cfg.sch, s, key, owner)
    requires NobodyAstray(s, key, owner) && RunsWell(cfg, s, acts, final, key)
    ensures Inv(cfg.sch, final) && NobodyAstray(final, key, owner)
    decreases |acts|
  {
    hide Inv, Coherent, AllRouteTo, NobodyAstray, Apply, Fails;
    if acts != [] {
      ActionKeepsInv(cfg, s, acts[0]);
      ActionKeepsCoherence(cfg, s, acts[0]);
      ActionKeepsRoutes(cfg, s, acts[0], key, owner);
      ActionLeadsNotAstray(cfg, s, acts[0], key, owner);
      RunsLeadNotAstray(cfg, Apply(cfg, s, acts[0]), acts[1..], final, key, owner);
    }
  }

  lemma {:induction false} WellRunsAreRuns<T>(cfg: Config<T>, s: State<T>, acts: seq<Action<T>>, final: State<T>,
                                              key: string)
    requires RunsWell(cfg, s, acts, final, key)
    ensures Runs(cfg, s, acts, final) && TablesFixed(acts)
    decreases |acts|
  {
    hide Apply, Fails;
    if acts != [] {
      WellRunsAreRuns(cfg, Apply(cfg, s, acts[0]), acts[1..], final, key);
      assert forall act | act in acts :: act == acts[0] || act in acts[1..];
    }
  }

  /**
   Whatever the views were before: if nobody is astray, no continuation in which nothing more fails has two loads of
   the key at once.
   */
  lemma NoTwoUnlessAstray<T(!new)>(cfg: Config<T>, s: State<T>, key: string, owner: Peer)
    requires Sound(cfg.sch) && Inv(cfg.sch, s) && Coherent(s) && AllRouteTo(cfg.sch, s, key, owner)
    requires forall t: nat :: !Astray(s.tasks, t, key, owner)
    ensures !MayLoadTwice(cfg, s, key)
  {
    hide Inv, Coherent, AllRouteTo, Astray;
    assert NobodyAstray(s, key, owner);
    forall acts, final | RunsWell(cfg, s, acts, final, key) ensures !TwoAtOnce(final, key) {
      hide Runs, RunsWell, NobodyAstray;
      RunsLeadNotAstray(cfg, s, acts, final, key, owner);
      forall i: nat, j: nat | LoadsKey(final, i, key) && LoadsKey(final, j, key) ensures i == j {
        OwnerLoadsOnly(final, i, key, owner);
        OwnerLoadsOnly(final, j, key, owner);
        OneLoadPerNode(cfg.sch, final, i, j);
      }
    }
  }

  lemma OwnerLoadsOnly<T>(s: State<T>, i: nat, key: string, owner: Peer)
    requires NobodyAstray(s, key, owner) && LoadsKey(s, i, key)
    ensures s.tasks[i].node == owner && InFlight(s.tasks[i])
  {
    assert !Astray(s.tasks, i, key, owner);
  }

  // ----------------------------------------------------------------------- if

  lemma {:induction false} WellThenOne<T>(cfg: Config<T>, s: State<T>, acts: seq<Action<T>>, mid: State<T>,
                                          act: Action<T>, key: string)
    requires RunsWell(cfg, s, acts, mid, key) && Enabled(mid, act) && !act.ReplaceTable? && !Fails(cfg, mid, act, key)
    ensures RunsWell(cfg, s, acts + [act], Apply(cfg, mid, act), key)
    decreases |acts|
  {
    hide Apply, Fails;
    if acts == [] {
      assert (acts + [act])[1..] == [];
      assert RunsWell(cfg, Apply(cfg, mid, act), [], Apply(cfg, mid, act), key);
    } else {
      assert (acts + [act])[1..] == acts[1..] + [act];
      WellThenOne(cfg, Apply(cfg, s, acts[0]), acts[1..], mid, act, key);
    }
  }

  /** `cur` is reached without further failure, and all nodes still route the key to its owner. */
  ghost predicate Well<T>(cfg: Config<T>, s: State<T>, acts: seq<Action<T>>, cur: State<T>, key: string, owner: Peer) {
    && RunsWell(cfg, s, acts, cur, key) && Inv(cfg.sch, cur)
    && AllRouteTo(cfg.sch, cur, key, owner) && owner in cur.nodes
  }

  /** A step of a get dooms nobody unless it was doomed itself. */
  lemma CalmStep<T>(cfg: Config<T>, s: State<T>, t: nat, key: string)
    requires CanStep(s, t) && s.tasks[t].op.Get?
    requires var b := TaskMove(cfg, s, Step(t)).task; (IsError(b) ==> Doomed(s.tasks, t)) && !b.phase.Following?
    requires s.tasks[t].phase.Following? || (IsError(TaskMove(cfg, s, Step(t)).task) ==> IsError(s.tasks[t]))
    requires forall i: nat | i < |s.tasks| && s.tasks[i].phase == Following(t) :: !s.tasks[t].phase.Following?
    ensures !Fails(cfg, s, Step(t), key)
  {
    hide TaskMove;
    StepStartsNothing(cfg, s, t);
    MoverIsKnown(cfg, s, Step(t));
  }

  lemma WellStep<T(!new)>(cfg: Config<T>, s: State<T>, acts: seq<Action<T>>, cur: State<T>, key: string, owner: Peer,
                          t: nat)
    returns (acts': seq<Action<T>>, cur': State<T>)
    requires Sound(cfg.sch) && Well(cfg, s, acts, cur, key, owner) && CanStep(cur, t) && cur.tasks[t].op.Get?
    requires var b := TaskMove(cfg, cur, Step(t)).task;
             && !b.phase.Following?
             && (IsError(b) ==> Doomed(cur.tasks, t) && (cur.tasks[t].phase.Following? || IsError(cur.tasks[t])))
    ensures Well(cfg, s, acts', cur', key, owner)
    ensures var m := TaskMove(cfg, cur, Step(t));
            && cur'.tasks == cur.tasks[t := m.task] && cur'.nodes == cur.nodes[cur.tasks[t].node := m.node]
  {
    hide Inv, TaskMove, RunsWell, Fails, AllRouteTo;
    acts', cur' := acts + [Step(t)], Apply(cfg, cur, Step(t));
    LeadersDoNotFollow(cfg.sch, cur, t);
    CalmStep(cfg, cur, t, key);
    StepStartsNothing(cfg, cur, t);
    WellThenOne(cfg, s, acts, cur, Step(t), key);
    ActionKeepsInv(cfg, cur, Step(t));
    ActionKeepsRoutes(cfg, cur, Step(t), key, owner);
    assert cur'.tasks == cur.tasks[t := TaskMove(cfg, cur, Step(t)).task];
  }

  lemma LeadersDoNotFollow<T>(sch: Scheme<T>, s: State<T>, t: nat)
    requires Inv(sch, s) && t < |s.tasks|
    ensures forall i: nat | i < |s.tasks| && s.tasks[i].phase == Following(t) :: !s.tasks[t].phase.Following?
  {
    hide Inv, Nearer, ChildOk;
    forall i: nat | i < |s.tasks| && s.tasks[i].phase == Following(t) ensures !s.tasks[t].phase.Following? {
      OneTaskIsOk(sch, s, i);
    }
  }

  lemma WellTask<T>(cfg: Config<T>, s: State<T>, acts: seq<Action<T>>, cur: State<T>, key: string, owner: Peer, t: nat)
    requires Well(cfg, s, acts, cur, key, owner) && t < |cur.tasks|
    ensures TaskOk(cfg.sch, cur, t)
  {
    hide Inv, RunsWell, RoutesTo;
    OneTaskIsOk(cfg.sch, cur, t);
  }

  /** A get that is going to return an error does. */
  lemma DoomedFinishes<T(!new)>(cfg: Config<T>, s: State<T>, acts: seq<Action<T>>, cur: State<T>, key: string,
                                owner: Peer, c: nat)
    returns (acts': seq<Action<T>>, cur': State<T>)
    requires Sound(cfg.sch) && Well(cfg, s, acts, cur, key, owner) && Doomed(cur.tasks, c)
    ensures Well(cfg, s, acts', cur', key, owner)
    ensures |cur'.tasks| == |cur.tasks| && c < |cur.tasks| && cur'.tasks[c].phase.Finished? && IsError(cur'.tasks[c])
    ensures forall i: nat | i < |cur.tasks| && i != c && cur.tasks[c].phase != Following(i) ::
          cur'.tasks[i] == cur.tasks[i]
    ensures forall i: nat | i < |cur.tasks| :: cur'.tasks[i] == cur.tasks[i] || cur'.tasks[i].phase.Finished?
  {
    hide Well, Nearer, ChildOk;
    WellTask(cfg, s, acts, cur, key, owner, c);
    acts', cur' := acts, cur;
    if cur.tasks[c].phase.Following? {
      var l := cur.tasks[c].phase.leader;
      WellTask(cfg, s, acts, cur, key, owner, l);
      if cur.tasks[l].phase.Closing? {
        acts', cur' := WellStep(cfg, s, acts', cur', key, owner, l);
        WellTask(cfg, s, acts', cur', key, owner, c);
      }
    }
    if !cur'.tasks[c].phase.Finished? {
      acts', cur' := WellStep(cfg, s, acts', cur', key, owner, c);
    }
  }

  /** A get whose request has failed comes to load for itself. */
  lemma FellBackLoads<T(!new)>(cfg: Config<T>, s: State<T>, acts: seq<Action<T>>, cur: State<T>, key: string,
                               owner: Peer, t: nat)
    returns (acts': seq<Action<T>>, cur': State<T>)
    requires Sound(cfg.sch) && Well(cfg, s, acts, cur, key, owner) && FellBack(cur.tasks, t, key)
    ensures Well(cfg, s, acts', cur', key, owner)
    ensures LoadsKey(cur', t, key) && cur'.tasks[t].node == cur.tasks[t].node && |cur'.tasks| == |cur.tasks|
    ensures forall i: nat | i < |cur.tasks| && i != t :: cur'.tasks[i] == cur.tasks[i] || cur'.tasks[i].phase.Finished?
  {
    hide Well, Doomed, Nearer, LookupPeer;
    acts', cur' := acts, cur;
    if cur.tasks[t].phase.Awaiting? {
      var c := cur.tasks[t].child.value;
      acts', cur' := DoomedFinishes(cfg, s, acts, cur, key, owner, c);
      SenderIsElsewhere(cfg, s, acts, cur, key, owner, t);
      WellTask(cfg, s, acts', cur', key, owner, t);
      acts', cur' := WellStep(cfg, s, acts', cur', key, owner, t);
    }
    if cur'.tasks[t].phase.FallingBack? {
      WellTask(cfg, s, acts', cur', key, owner, t);
      acts', cur' := WellStep(cfg, s, acts', cur', key, owner, t);
    }
  }

  lemma SenderIsElsewhere<T>(cfg: Config<T>, s: State<T>, acts: seq<Action<T>>, cur: State<T>, key: string, owner: Peer,
                             t: nat)
    requires Well(cfg, s, acts, cur, key, owner) && t < |cur.tasks| && cur.tasks[t].child.Some?
    ensures var c := cur.tasks[t].child.value; c < |cur.tasks| && c != t && cur.tasks[c].phase != Following(t)
  {
    hide RunsWell, RoutesTo, Inv;
    OneTaskIsOk(cfg.sch, cur, t);
    var c := cur.tasks[t].child.value;
    OneTaskIsOk(cfg.sch, cur, c);
    NearerIsStrict(cfg.sch, cur.tasks[t].key, cur.tasks[t].node);
  }

  // ------------------------------------------------------------ the owner's load

  lemma WellEvent<T(!new)>(cfg: Config<T>, s: State<T>, acts: seq<Action<T>>, cur: State<T>, key: string, owner: Peer,
                           act: Action<T>)
    returns (acts': seq<Action<T>>, cur': State<T>)
    requires Sound(cfg.sch) && Well(cfg, s, acts, cur, key, owner) && Enabled(cur, act)
    requires act.Call? || act.EvictMain? || act.EvictHot?
    ensures cur' == Apply(cfg, cur, act) && Well(cfg, s, acts', cur', key, owner)
  {
    hide Inv, RunsWell, AllRouteTo;
    acts', cur' := acts + [act], Apply(cfg, cur, act);
    EventsDoomNobody(cfg, cur, act, key);
    WellThenOne(cfg, s, acts, cur, act, key);
    ActionKeepsInv(cfg, cur, act);
    ActionKeepsRoutes(cfg, cur, act, key, owner);
  }

  lemma EventsDoomNobody<T>(cfg: Config<T>, s: State<T>, act: Action<T>, key: string)
    requires Enabled(s, act) && (act.Call? || act.EvictMain? || act.EvictHot?)
    ensures !Fails(cfg, s, act, key)
  {
  }

  lemma WellNode<T>(cfg: Config<T>, s: State<T>, acts: seq<Action<T>>, cur: State<T>, key: string, owner: Peer)
    requires Well(cfg, s, acts, cur, key, owner)
    ensures owner in cur.nodes && LookupPeer(cfg.sch, cur.nodes[owner].table, key).Found?
    ensures LookupPeer(cfg.sch, cur.nodes[owner].table, key).peer == owner
    ensures key in cur.nodes[owner].flights ==> FlightOk(cur, owner, key)
  {
    hide RunsWell, TaskOk, LookupPeer;
    assert RoutesTo(cfg.sch, cur.nodes[owner].table, key, owner);
  }

  /** The tasks of other nodes have not moved. */
  ghost predicate SameElsewhere<T>(cur: State<T>, cur': State<T>, owner: Peer) {
    && |cur.tasks| <= |cur'.tasks|
    && forall i: nat | i < |cur.tasks| && cur.tasks[i].node != owner :: cur'.tasks[i] == cur.tasks[i]
  }

  function StepsToLoad(phase: Phase): nat {
    match phase
    case Fresh => 5
    case MissedMain => 4
    case Unrouted => 3
    case Routed(_, _) => 2
    case _ => 1
  }

  /** The get, on the owner of its key, is bound to be routed to that node, and nothing is cached there. */
  ghost predicate Unhindered<T>(s: State<T>, t: nat, key: string, owner: Peer) {
    && t < |s.tasks| && GetOn(s.tasks[t], owner, key) && owner in s.nodes
    && (s.tasks[t].phase.Fresh? || PastProbe(s.tasks[t]))
    && (Unprobed(s.tasks[t]) ==> key !in s.nodes[owner].main && key !in s.nodes[owner].hot)
    && (s.tasks[t].phase.Routed? || s.tasks[t].phase.Leading? ==> s.tasks[t].phase.peer == owner)
    && (key in s.nodes[owner].flights ==> s.tasks[t].phase.Leading?)
  }

  /** A get on the owner that nothing holds up calls the loader. */
  lemma OwnerGetLoads<T(!new)>(cfg: Config<T>, s: State<T>, acts: seq<Action<T>>, cur: State<T>, key: string,
                               owner: Peer, t: nat)
    returns (acts': seq<Action<T>>, cur': State<T>)
    requires Sound(cfg.sch) && Well(cfg, s, acts, cur, key, owner) && Unhindered(cur, t, key, owner)
    ensures Well(cfg, s, acts', cur', key, owner) && SameElsewhere(cur, cur', owner)
    ensures LoadsKey(cur', t, key) && cur'.tasks[t].node == owner
    decreases if t < |cur.tasks| then StepsToLoad(cur.tasks[t].phase) else 0
  {
    hide Well, PhaseOk, ChildOk, LookupPeer;
    WellTask(cfg, s, acts, cur, key, owner, t);
    WellNode(cfg, s, acts, cur, key, owner);
    acts', cur' := WellStep(cfg, s, acts, cur, key, owner, t);
    if !Loading(cur'.tasks[t]) {
      acts', cur' := OwnerGetLoads(cfg, s, acts', cur', key, owner, t);
    }
  }

  /** A flight on the owner that has its answer comes to its end. */
  lemma OwnerFlightEnds<T(!new)>(cfg: Config<T>, s: State<T>, acts: seq<Action<T>>, cur: State<T>, key: string,
                                 owner: Peer, l: nat)
    returns (acts': seq<Action<T>>, cur': State<T>)
    requires Sound(cfg.sch) && Well(cfg, s, acts, cur, key, owner) && l < |cur.tasks| && GetOn(cur.tasks[l], owner, key)
    requires cur.tasks[l].phase.FillingMain? || cur.tasks[l].phase.FillingHot? || cur.tasks[l].phase.Closing?
    ensures Well(cfg, s, acts', cur', key, owner) && SameElsewhere(cur, cur', owner)
    ensures owner in cur'.nodes && key !in cur'.nodes[owner].flights
    decreases !cur.tasks[l].phase.Closing?
  {
    hide Well, PhaseOk, ChildOk;
    WellTask(cfg, s, acts, cur, key, owner, l);
    acts', cur' := WellStep(cfg, s, acts, cur, key, owner, l);
    if !cur.tasks[l].phase.Closing? {
      acts', cur' := OwnerFlightEnds(cfg, s, acts', cur', key, owner, l);
    }
  }

  /** A get called on the owner, once the key is evicted there, calls the loader. */
  lemma NewOwnerGetLoads<T(!new)>(cfg: Config<T>, s: State<T>, acts: seq<Action<T>>, cur: State<T>, key: string,
                                  owner: Peer)
    returns (acts': seq<Action<T>>, cur': State<T>, j: nat)
    requires Sound(cfg.sch) && Well(cfg, s, acts, cur, key, owner)
    requires owner in cur.nodes && key !in cur.nodes[owner].flights
    ensures Well(cfg, s, acts', cur', key, owner) && SameElsewhere(cur, cur', owner)
    ensures LoadsKey(cur', j, key) && cur'.tasks[j].node == owner
  {
    hide Well, LoadsKey;
    j := |cur.tasks|;
    acts', cur' := WellEvent(cfg, s, acts, cur, key, owner, EvictMain(owner, key));
    acts', cur' := WellEvent(cfg, s, acts', cur', key, owner, EvictHot(owner, key));
    acts', cur' := WellEvent(cfg, s, acts', cur', key, owner, Call(Get, owner, key));
    acts', cur' := OwnerGetLoads(cfg, s, acts', cur', key, owner, j);
  }

  /** No flight of the owner waits for another node, or is about to: possible only if a former table sent it there. */
  ghost predicate OwnerIsFree<T>(s: State<T>, key: string, owner: Peer) {
    forall t: nat | t < |s.tasks| && GetOn(s.tasks[t], owner, key) ::
      && !s.tasks[t].phase.Requesting? && !s.tasks[t].phase.Awaiting?
      && (s.tasks[t].phase.Leading? ==> s.tasks[t].phase.peer == owner)
  }

  lemma OwnerFlightLoads<T(!new)>(cfg: Config<T>, s: State<T>, acts: seq<Action<T>>, cur: State<T>, key: string,
                                  owner: Peer, l: nat)
    returns (acts': seq<Action<T>>, cur': State<T>, j: nat)
    requires Sound(cfg.sch) && Well(cfg, s, acts, cur, key, owner) && OwnerIsFree(cur, key, owner)
    requires l < |cur.tasks| && GetOn(cur.tasks[l], owner, key) && InFlight(cur.tasks[l])
    requires !cur.tasks[l].phase.Leading?
    ensures Well(cfg, s, acts', cur', key, owner) && SameElsewhere(cur, cur', owner)
    ensures LoadsKey(cur', j, key) && cur'.tasks[j].node == owner
  {
    hide Well, PhaseOk, ChildOk;
    WellTask(cfg, s, acts, cur, key, owner, l);
    if Loading(cur.tasks[l]) {
      acts', cur', j := acts, cur, l;
    } else if cur.tasks[l].phase.FallingBack? {
      acts', cur' := WellStep(cfg, s, acts, cur, key, owner, l);
      j := l;
    } else {
      acts', cur' := OwnerFlightEnds(cfg, s, acts, cur, key, owner, l);
      acts', cur', j := NewOwnerGetLoads(cfg, s, acts', cur', key, owner);
    }
  }

  /**
   Unless it waits for another node, the owner can be brought to load the key, while the tasks of other nodes stand
   still.
   */
  lemma OwnerLoads<T(!new)>(cfg: Config<T>, s: State<T>, acts: seq<Action<T>>, cur: State<T>, key: string, owner: Peer)
    returns (acts': seq<Action<T>>, cur': State<T>, j: nat)
    requires Sound(cfg.sch) && Well(cfg, s, acts, cur, key, owner) && OwnerIsFree(cur, key, owner)
    ensures Well(cfg, s, acts', cur', key, owner) && SameElsewhere(cur, cur', owner)
    ensures LoadsKey(cur', j, key) && cur'.tasks[j].node == owner
  {
    WellNode(cfg, s, acts, cur, key, owner);
    hide Well, LoadsKey, SameElsewhere, LookupPeer;
    if key in cur.nodes[owner].flights {
      j := cur.nodes[owner].flights[key];
      if cur.tasks[j].phase.Leading? {
        acts', cur' := OwnerGetLoads(cfg, s, acts, cur, key, owner, j);
      } else {
        acts', cur', j := OwnerFlightLoads(cfg, s, acts, cur, key, owner, j);
      }
    } else {
      acts', cur', j := NewOwnerGetLoads(cfg, s, acts, cur, key, owner);
    }
  }

  // ------------------------------------------------------------------ both halves

  /** A get bound for its own node calls the loader there, if no flight is in its way. */
  lemma BoundLoads<T(!new)>(cfg: Config<T>, s: State<T>, acts: seq<Action<T>>, cur: State<T>, key: string, owner: Peer,
                            t: nat)
    returns (acts': seq<Action<T>>, cur': State<T>)
    requires Sound(cfg.sch) && Well(cfg, s, acts, cur, key, owner)
    requires t < |cur.tasks| && cur.tasks[t].op.Get? && cur.tasks[t].key == key && OwnBound(cur.tasks[t])
    requires cur.tasks[t].node in cur.nodes
    requires cur.tasks[t].phase.Routed? ==> key !in cur.nodes[cur.tasks[t].node].flights
    ensures Well(cfg, s, acts', cur', key, owner)
    ensures LoadsKey(cur', t, key) && cur'.tasks[t].node == cur.tasks[t].node && |cur'.tasks| == |cur.tasks|
    ensures forall i: nat | i < |cur.tasks| && i != t :: cur'.tasks[i] == cur.tasks[i]
  {
    hide Well, PhaseOk, ChildOk;
    acts', cur' := acts, cur;
    WellTask(cfg, s, acts, cur, key, owner, t);
    if cur.tasks[t].phase.Routed? {
      acts', cur' := WellStep(cfg, s, acts', cur', key, owner, t);
      WellTask(cfg, s, acts', cur', key, owner, t);
    }
    if cur'.tasks[t].phase.Leading? {
      acts', cur' := WellStep(cfg, s, acts', cur', key, owner, t);
    }
  }

  /**
   Whatever the views were before: a get astray leads to two loads of the key at once, with no further failure,
   unless it still has to wait for a flight of its own node, or the owner's flight waits for another node.
   */
  lemma AstrayMeansTwo<T(!new)>(cfg: Config<T>, s: State<T>, key: string, owner: Peer, t: nat)
    requires Sound(cfg.sch) && Inv(cfg.sch, s) && AllRouteTo(cfg.sch, s, key, owner) && owner in s.nodes
    requires Astray(s.tasks, t, key, owner) && OwnerIsFree(s, key, owner) && s.tasks[t].node in s.nodes
    requires s.tasks[t].phase.Routed? ==> key !in s.nodes[s.tasks[t].node].flights
    ensures MayLoadTwice(cfg, s, key)
  {
    hide Inv, AllRouteTo, FellBack, LoadsKey, OwnBound;
    assert RunsWell(cfg, s, [], s, key);
    hide RunsWell;
    var acts, cur;
    if FellBack(s.tasks, t, key) {
      acts, cur := FellBackLoads(cfg, s, [], s, key, owner, t);
    } else {
      acts, cur := BoundLoads(cfg, s, [], s, key, owner, t);
    }
    StillFree(s, cur, key, owner, t);
    var more, final, j := OwnerLoads(cfg, s, acts, cur, key, owner);
    StillLoads(cur, final, t, key, owner);
    assert TwoAtOnce(final, key);
  }

  lemma StillFree<T>(s: State<T>, cur: State<T>, key: string, owner: Peer, t: nat)
    requires OwnerIsFree(s, key, owner) && t < |s.tasks| == |cur.tasks| && cur.tasks[t].node != owner
    requires forall i: nat | i < |s.tasks| && i != t :: cur.tasks[i] == s.tasks[i] || cur.tasks[i].phase.Finished?
    ensures OwnerIsFree(cur, key, owner)
  {
  }

  lemma StillLoads<T>(cur: State<T>, cur': State<T>, t: nat, key: string, owner: Peer)
    requires LoadsKey(cur, t, key) && SameElsewhere(cur, cur', owner) && cur.tasks[t].node != owner
    ensures LoadsKey(cur', t, key) && cur'.tasks[t].node != owner
  {
  }

  /**
   The condition where views changed earlier, as long as no get that matters waits for another node that a former
   table sent it to: two loads may come to run at once, with no further failure, if and only if some get is astray.
   */
  lemma TwoLoadsAfterChange<T(!new)>(cfg: Config<T>, s: State<T>, key: string, owner: Peer)
    requires Sound(cfg.sch) && Inv(cfg.sch, s) && Coherent(s) && AllRouteTo(cfg.sch, s, key, owner) && owner in s.nodes
    requires OwnerIsFree(s, key, owner)
    requires forall t: nat | Astray(s.tasks, t, key, owner) && s.tasks[t].phase.Routed? && s.tasks[t].node in s.nodes ::
               key !in s.nodes[s.tasks[t].node].flights
    ensures MayLoadTwice(cfg, s, key) <==> exists t: nat :: Astray(s.tasks, t, key, owner)
  {
    hide Inv, Coherent, AllRouteTo, MayLoadTwice, OwnerIsFree, FellBack, OwnBound;
    if t: nat :| Astray(s.tasks, t, key, owner) {
      GetsHaveNodes(cfg.sch, s, t);
      AstrayMeansTwo(cfg, s, key, owner, t);
    } else {
      NoTwoUnlessAstray(cfg, s, key, owner);
    }
  }

  lemma GetsHaveNodes<T>(sch: Scheme<T>, s: State<T>, t: nat)
    requires Inv(sch, s) && t < |s.tasks|
    ensures s.tasks[t].node in s.nodes
  {
    hide Inv;
    OneTaskIsOk(sch, s, t);
  }

  // ---------------------------------------------------------- unchanged tables

  /** Where tables did not change, the owner waits for nobody, and only failed requests lead astray. */
  lemma PlacedGets<T>(cfg: Config<T>, s: State<T>, key: string, owner: Peer)
    requires Inv(cfg.sch, s) && Placed(cfg.sch, s) && AllRouteTo(cfg.sch, s, key, owner) && owner in s.nodes
    ensures OwnerIsFree(s, key, owner)
    ensures forall t: nat :: Astray(s.tasks, t, key, owner) <==> FellBack(s.tasks, t, key)
  {
    hide Inv, Placed, RoutesTo, FellBack, Doomed;
    assert RoutesTo(cfg.sch, s.nodes[owner].table, key, owner);
    forall t: nat | t < |s.tasks| && GetOn(s.tasks[t], owner, key)
      ensures !s.tasks[t].phase.Requesting? && !s.tasks[t].phase.Awaiting?
      ensures s.tasks[t].phase.Leading? ==> s.tasks[t].phase.peer == owner
    {
      OwnerTask(cfg.sch, s, owner, key, t);
    }
    forall t: nat ensures Astray(s.tasks, t, key, owner) <==> FellBack(s.tasks, t, key) {
      if t < |s.tasks| && s.tasks[t].op.Get? && s.tasks[t].key == key {
        PlacedGet(cfg, s, key, owner, t);
      } else {
        StrangersFellNotBack(s.tasks, t, key);
      }
    }
  }

  lemma StrangersFellNotBack(tasks: seq<Task>, t: nat, key: string)
    requires !(t < |tasks| && tasks[t].op.Get? && tasks[t].key == key)
    ensures !FellBack(tasks, t, key)
  {
  }

  lemma PlacedGet<T>(cfg: Config<T>, s: State<T>, key: string, owner: Peer, t: nat)
    requires Inv(cfg.sch, s) && Placed(cfg.sch, s) && AllRouteTo(cfg.sch, s, key, owner) && owner in s.nodes
    requires t < |s.tasks| && s.tasks[t].op.Get? && s.tasks[t].key == key
    ensures Astray(s.tasks, t, key, owner) <==> FellBack(s.tasks, t, key)
  {
    hide Inv, Placed, RoutesTo, Doomed, ChildOk, PhaseOk;
    PlacedTask(cfg.sch, s, t);
    OneRoute(cfg.sch, s.nodes[s.tasks[t].node].table, key, owner);
  }

  /**
   Exactly when a key may be loaded twice at once in a cluster that has always agreed on its owner, although nothing
   more fails: if and only if the request of some get of the key has failed and the get has not come past the load
   that replaces it.
   */
  lemma TwoLoadsExactly<T(!new)>(cfg: Config<T>, s: State<T>, key: string, owner: Peer)
    requires Sound(cfg.sch) && Inv(cfg.sch, s) && Coherent(s) && Placed(cfg.sch, s)
    requires AllRouteTo(cfg.sch, s, key, owner) && owner in s.nodes
    ensures MayLoadTwice(cfg, s, key) <==> exists t: nat :: FellBack(s.tasks, t, key)
  {
    hide Inv, Coherent, Placed, AllRouteTo, FellBack, MayLoadTwice, OwnerIsFree, Astray;
    PlacedGets(cfg, s, key, owner);
    if t: nat :| FellBack(s.tasks, t, key) {
      FallenGetIsAstray(cfg, s, key, owner, t);
      AstrayMeansTwo(cfg, s, key, owner, t);
    } else {
      NoTwoUnlessAstray(cfg, s, key, owner);
    }
  }

  lemma FallenGetIsAstray<T>(cfg: Config<T>, s: State<T>, key: string, owner: Peer, t: nat)
    requires Inv(cfg.sch, s) && FellBack(s.tasks, t, key)
    ensures t < |s.tasks| && !s.tasks[t].phase.Routed? && s.tasks[t].node in s.nodes
  {
    hide Inv;
    OneTaskIsOk(cfg.sch, s, t);
  }

  /**
   From start-up, with all nodes agreeing on the owner of the key: a node asks the owner, the request is lost, and
   soon both load the key at the same time.
   */
  lemma LostRequestDoublesLoads<T(!new)>(cfg: Config<T>, s: State<T>, key: string, owner: Peer, x: Peer)
    returns (acts: seq<Action<T>>, final: State<T>)
    requires Sound(cfg.sch) && Init(s) && forall n | n in s.nodes :: OnOwnRing(cfg.sch, n, s.nodes[n].table)
    requires AllRouteTo(cfg.sch, s, key, owner) && owner in s.nodes && x in s.nodes && x != owner
    requires ClientFor(cfg.sch, s.nodes[x].table, key).Some?
    ensures Runs(cfg, s, acts, final) && TablesFixed(acts) && RpcFails(0) in acts && TwoAtOnce(final, key)
  {
    hide Runs, OnOwnRing, Inv, Coherent, Placed, ClocksOk, LookupPeer, MayLoadTwice, TwoAtOnce, FellBack;
    var lost;
    acts, lost := RequestIsLost(cfg, s, key, owner, x);
    StartUpLeadsTo(cfg, s, acts, lost);
    TwoLoadsExactly(cfg, lost, key, owner);
    var more;
    more, final := SomeDouble(cfg, lost, key);
    RunsThenMore(cfg, s, acts, lost, more, final);
    acts := acts + more;
  }

  lemma SomeDouble<T(!new)>(cfg: Config<T>, s: State<T>, key: string) returns (acts: seq<Action<T>>, final: State<T>)
    requires MayLoadTwice(cfg, s, key)
    ensures Runs(cfg, s, acts, final) && TablesFixed(acts) && TwoAtOnce(final, key)
  {
    hide RunsWell, Runs, TwoAtOnce;
    acts, final :| RunsWell(cfg, s, acts, final, key) && TwoAtOnce(final, key);
    WellRunsAreRuns(cfg, s, acts, final, key);
  }

  lemma RequestIsLost<T(!new)>(cfg: Config<T>, s: State<T>, key: string, owner: Peer, x: Peer)
    returns (acts: seq<Action<T>>, lost: State<T>)
    requires Init(s) && x in s.nodes && x != owner
    requires RoutesTo(cfg.sch, s.nodes[x].table, key, owner) && ClientFor(cfg.sch, s.nodes[x].table, key).Some?
    ensures Runs(cfg, s, acts, lost) && TablesFixed(acts) && RpcFails(0) in acts && FellBack(lost.tasks, 0, key)
  {
    hide Runs, LookupPeer, AloneAt;
    var called := Apply(cfg, s, Call(Get, x, key));
    NothingRuns(cfg, s);
    RunsThenOne(cfg, s, [], s, Call(Get, x, key));
    var env := Serving.Env(called.clock, 0, 0, 0, 0, 0, None, None, Removed, false);
    var n := called.nodes[x];
    var target := LookupPeer(cfg.sch, n.table, key).client.value.target;
    var sent, asked := RequestAlone(cfg, called, 0, env);
    AtPhase(called, asked, 0, WhileForwarding(Received(n, Caller), key, 0), Requesting(target), called.loads,
            called.now + 5);
    var more;
    more, lost := NextAlone(cfg, called, sent, asked, 0, WhileForwarding(Received(n, Caller), key, 0),
                            Requesting(target), called.loads, called.now + 5, RpcFails(0));
    AtPhase(called, lost, 0, WhileForwarding(Received(n, Caller), key, 0).CountRemoteLoadError(), FallingBack,
            called.loads, called.now + 6);
    RunsThenMore(cfg, s, [] + [Call(Get, x, key)], called, more, lost);
    acts := [] + [Call(Get, x, key)] + more;
  }

  // ---------------------------------------------------------------- moved keys

  /** A get called on the owner of a key comes to load it. */
  lemma OwnerComesToLoad<T>(cfg: Config<T>, s: State<T>, n: Peer, key: string)
    returns (acts: seq<Action<T>>, cur: State<T>)
    requires Init(s) && n in s.nodes && RoutesTo(cfg.sch, s.nodes[n].table, key, n)
    ensures Runs(cfg, s, acts, cur) && TablesFixed(acts) && cur.nodes.Keys == s.nodes.Keys
    ensures forall m | m in s.nodes :: cur.nodes[m].table == s.nodes[m].table
    ensures |cur.tasks| == 1 && GetOn(cur.tasks[0], n, key) && cur.tasks[0].phase.LoadingOwn?
  {
    hide Runs, LookupPeer, AloneAt;
    var called := Apply(cfg, s, Call(Get, n, key));
    NothingRuns(cfg, s);
    RunsThenOne(cfg, s, [], s, Call(Get, n, key));
    var client := LookupPeer(cfg.sch, s.nodes[n].table, key).client;
    var more, at := ProbeFirst(cfg, called, 0, s.nodes[n], client);
    var n1 := s.nodes[n].CountGet(false);
    var n2 := n1.OpenFlight(key, 0);
    AtPhase(called, at, 0, n1, Routed(n, client), called.loads, called.now + 3);
    more, at := NextAlone(cfg, called, more, at, 0, n1, Routed(n, client), called.loads, called.now + 3, Step(0));
    AtPhase(called, at, 0, n2, Leading(n, client), called.loads, called.now + 4);
    more, cur := NextAlone(cfg, called, more, at, 0, n2, Leading(n, client), called.loads, called.now + 4, Step(0));
    AloneTables(called, cur, 0, n2.CountLocalLoad(), LoadingOwn(called.now + 4), called.loads, called.now + 5);
    RunsThenMore(cfg, s, [] + [Call(Get, n, key)], called, more, cur);
    acts := [] + [Call(Get, n, key)] + more;
  }

  lemma AloneTables<T>(s: State<T>, cur: State<T>, t: nat, n: Node<T>, phase: Phase, loads: seq<Load>, now: nat)
    requires AloneAt(s, cur, t, n, phase, loads, now) && n.table == s.nodes[s.tasks[t].node].table
    ensures cur.nodes.Keys == s.nodes.Keys && |cur.tasks| == |s.tasks|
    ensures forall m | m in s.nodes :: cur.nodes[m].table == s.nodes[m].table
    ensures var a, b := s.tasks[t], cur.tasks[t]; b.op == a.op && b.node == a.node && b.key == a.key && b.phase == phase
  {
  }

  /**
   From start-up: node `a` owns a key and is loading it when its table is replaced, so that all nodes agree on the
   owner `b`. No request was ever sent, let alone lost, and yet both may soon load the key at the same time.
   */
  lemma MovedKeyDoublesLoads<T(!new)>(cfg: Config<T>, s: State<T>, a: Peer, b: Peer, table: Table<T>, key: string)
    returns (acts: seq<Action<T>>, moved: State<T>)
    requires Sound(cfg.sch) && Init(s) && forall n | n in s.nodes :: OnOwnRing(cfg.sch, n, s.nodes[n].table)
    requires a in s.nodes && b in s.nodes && a != b && OnOwnRing(cfg.sch, a, table)
    requires RoutesTo(cfg.sch, s.nodes[a].table, key, a) && RoutesTo(cfg.sch, table, key, b)
    requires forall n | n in s.nodes && n != a :: RoutesTo(cfg.sch, s.nodes[n].table, key, b)
    ensures Runs(cfg, s, acts, moved) && forall act | act in acts :: Fair(cfg.sch, act)
    ensures AllRouteTo(cfg.sch, moved, key, b) && |moved.tasks| == 1 && moved.tasks[0].node == a
    ensures MayLoadTwice(cfg, moved, key)
  {
    hide Runs, OnOwnRing, Fair, Inv, Coherent, RoutesTo, MayLoadTwice;
    var first, loading := OwnerComesToLoad(cfg, s, a, key);
    moved := Apply(cfg, loading, ReplaceTable(a, table));
    acts := first + [ReplaceTable(a, table)];
    RunsThenOne(cfg, s, first, loading, ReplaceTable(a, table));
    FixedIsFair(cfg.sch, first);
    ReplacingIsFair(cfg.sch, a, table);
    StartUpIsCoherent(cfg.sch, s);
    RunsAreCoherent(cfg, s, acts, moved);
    AstrayMeansTwo(cfg, moved, key, b, 0);
  }
}
