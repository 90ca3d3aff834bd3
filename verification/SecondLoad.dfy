/**
 A load that suppression of duplicates does not prevent. The cache is probed before the flight is joined and not
 again inside it, so a get that probed early can load a key once more after another get has cached it. This module
 has such a run, and says exactly when there is one.
 */
module SecondLoad {
  import opened Wrappers
  import opened VNodes
  import opened Routing
  import opened NodeState
  import opened Cluster
  import opened Structure
  import opened Answers
  import opened Ownership
  import opened Alone

  /** A get that has probed the caches of node `n` and looked up the owner. */
  lemma ProbeFirst<T>(cfg: Config<T>, s: State<T>, t: nat, n: Node<T>, client: Option<Client>)
    returns (acts: seq<Action<T>>, cur: State<T>)
    requires Waits(cfg, s, t, n, client)
    ensures acts == [Step(t), Step(t), Step(t)] && Runs(cfg, s, acts, cur)
    ensures AloneAt(s, cur, t, n.CountGet(false), Routed(s.tasks[t].node, client), s.loads, s.now + 3)
  {
    hide LookupPeer, Runs, AloneAt;
    var n1 := n.CountGet(false);
    NobodyMovedYet(cfg, s, t);
    acts, cur := NextAlone(cfg, s, [], s, t, n, Fresh, s.loads, s.now, Step(t));
    AtPhase(s, cur, t, n1, MissedMain, s.loads, s.now + 1);
    acts, cur := NextAlone(cfg, s, acts, cur, t, n1, MissedMain, s.loads, s.now + 1, Step(t));
    AtPhase(s, cur, t, n1, Unrouted, s.loads, s.now + 2);
    acts, cur := NextAlone(cfg, s, acts, cur, t, n1, Unrouted, s.loads, s.now + 2, Step(t));
  }

  /** Get `t` has just been called on node `n`, which owns its key and has not cached it. */
  ghost predicate Waits<T>(cfg: Config<T>, s: State<T>, t: nat, n: Node<T>, client: Option<Client>) {
    && t < |s.tasks|
    && var a := s.tasks[t];
    && a.op.Get? && a.origin.Caller? && a.phase.Fresh? && a.node in s.nodes && s.nodes[a.node] == n
    && a.key !in n.main && a.key !in n.hot
    && LookupPeer(cfg.sch, n.table, a.key) == Found(a.node, client)
  }

  /** Such a get, once routed, loads the key on its node whatever has been cached since. */
  lemma LeadAndLoad<T>(cfg: Config<T>, s: State<T>, t: nat, n: Node<T>, client: Option<Client>, data: string)
    returns (acts: seq<Action<T>>, cur: State<T>)
    requires t < |s.tasks| && s.tasks[t].node in s.nodes && s.nodes[s.tasks[t].node] == n
    requires s.tasks[t].op.Get? && s.tasks[t].phase == Routed(s.tasks[t].node, client) && s.tasks[t].key !in n.flights
    ensures acts == [Step(t), Step(t), LoadReturns(t, Some(data))] && Runs(cfg, s, acts, cur)
    ensures AloneAt(s, cur, t, n.OpenFlight(s.tasks[t].key, t).CountLocalLoad(),
                    FillingMain(Val(data, |s.loads|, s.now + 1)),
                    s.loads + [Load(t, s.now + 1, s.tasks[t].node, s.tasks[t].key, Some(data))], s.now + 3)
  {
    hide LookupPeer, Runs, AloneAt;
    var a := s.tasks[t];
    var n1 := n.OpenFlight(a.key, t);
    NobodyMovedYet(cfg, s, t);
    acts, cur := NextAlone(cfg, s, [], s, t, n, Routed(a.node, client), s.loads, s.now, Step(t));
    AtPhase(s, cur, t, n1, Leading(a.node, client), s.loads, s.now + 1);
    acts, cur := NextAlone(cfg, s, acts, cur, t, n1, Leading(a.node, client), s.loads, s.now + 1, Step(t));
    AtPhase(s, cur, t, n1.CountLocalLoad(), LoadingOwn(s.now + 1), s.loads, s.now + 2);
    acts, cur := NextAlone(cfg, s, acts, cur, t, n1.CountLocalLoad(), LoadingOwn(s.now + 1), s.loads, s.now + 2,
                           LoadReturns(t, Some(data)));
  }

  lemma FillAndClose<T>(cfg: Config<T>, s: State<T>, t: nat, n: Node<T>, v: Val)
    returns (acts: seq<Action<T>>, cur: State<T>)
    requires t < |s.tasks| && s.tasks[t].node in s.nodes && s.nodes[s.tasks[t].node] == n
    requires s.tasks[t].op.Get? && s.tasks[t].phase == FillingMain(v)
    ensures acts == [Step(t), Step(t)] && Runs(cfg, s, acts, cur)
    ensures var key := s.tasks[t].key;
            AloneAt(s, cur, t, n.FillMain(key, v, s.now).CloseFlight(key), Finished(Ok(v)), s.loads, s.now + 2)
  {
    hide LookupPeer, Runs, AloneAt;
    var n1 := n.FillMain(s.tasks[t].key, v, s.now);
    NobodyMovedYet(cfg, s, t);
    acts, cur := NextAlone(cfg, s, [], s, t, n, FillingMain(v), s.loads, s.now, Step(t));
    AtPhase(s, cur, t, n1, Closing(Ok(v)), s.loads, s.now + 1);
    acts, cur := NextAlone(cfg, s, acts, cur, t, n1, Closing(Ok(v)), s.loads, s.now + 1, Step(t));
  }

  /** Both gets probe; the second one loads and caches the key; then the first one loads it again. */
  function EarlyAndPrompt<T>(early: nat, prompt: nat, data: string, again: string): seq<Action<T>> {
    [Step(early), Step(early), Step(early)]
    + [Step(prompt), Step(prompt), Step(prompt)]
    + [Step(prompt), Step(prompt), LoadReturns(prompt, Some(data))] + [Step(prompt), Step(prompt)]
    + [Step(early), Step(early), LoadReturns(early, Some(again))]
  }

  /** Both gets have looked up the owner, their own node. */
  ghost predicate BothRouted<T>(s: State<T>, cur: State<T>, early: nat, prompt: nat, n: Node<T>,
                                client: Option<Client>) {
    && early < |s.tasks| && prompt < |s.tasks| && |cur.tasks| == |s.tasks| && cur.loads == s.loads
    && cur.now == s.now + 6
    && var a := s.tasks[early];
    && a.node in cur.nodes && cur.nodes[a.node] == n
    && (forall t | t == early || t == prompt ::
          var b := cur.tasks[t]; b.op.Get? && b.node == a.node && b.key == a.key && b.phase == Routed(a.node, client))
  }

  lemma BothProbe<T>(cfg: Config<T>, s: State<T>, early: nat, prompt: nat, n: Node<T>, client: Option<Client>)
    returns (cur: State<T>)
    requires Waits(cfg, s, early, n, client) && Waits(cfg, s, prompt, n, client) && early != prompt
    requires s.tasks[early].node == s.tasks[prompt].node && s.tasks[early].key == s.tasks[prompt].key
    ensures Runs(cfg, s, [Step(early), Step(early), Step(early)] + [Step(prompt), Step(prompt), Step(prompt)], cur)
    ensures BothRouted(s, cur, early, prompt, n.CountGet(false).CountGet(false), client)
  {
    hide LookupPeer, Runs;
    var acts1, s1 := ProbeFirst(cfg, s, early, n, client);
    var acts2;
    acts2, cur := ProbeFirst(cfg, s1, prompt, n.CountGet(false), client);
    RunsThenMore(cfg, s, acts1, s1, acts2, cur);
  }

  lemma BothLoad<T>(cfg: Config<T>, s: State<T>, early: nat, prompt: nat, n: Node<T>, client: Option<Client>,
                    data: string, again: string)
    returns (final: State<T>)
    requires Waits(cfg, s, early, n, client) && Waits(cfg, s, prompt, n, client) && early != prompt
    requires s.tasks[early].node == s.tasks[prompt].node && s.tasks[early].key == s.tasks[prompt].key
    requires s.tasks[early].key !in n.flights
    ensures Runs(cfg, s, EarlyAndPrompt(early, prompt, data, again), final) && |final.tasks| == |s.tasks|
    ensures var a, v := s.tasks[early], Val(data, |s.loads|, s.now + 7);
            && final.loads == s.loads + [Load(prompt, s.now + 7, a.node, a.key, Some(data)),
                                         Load(early, s.now + 12, a.node, a.key, Some(again))]
            && a.node in final.nodes && final.nodes[a.node].MainGet(a.key) == Some(v)
            && final.tasks[prompt].phase == Finished(Ok(v))
  {
    hide LookupPeer, Runs;
    var a := s.tasks[early];
    var s2 := BothProbe(cfg, s, early, prompt, n, client);
    var n2 := s2.nodes[a.node];
    var acts3, s3 := LeadAndLoad(cfg, s2, prompt, n2, client, data);
    var n3 := n2.OpenFlight(a.key, prompt).CountLocalLoad();
    var acts4, s4 := FillAndClose(cfg, s3, prompt, n3, Val(data, |s.loads|, s.now + 7));
    var acts5;
    acts5, final := LeadAndLoad(cfg, s4, early, s4.nodes[a.node], client, again);
    var acts12 := [Step(early), Step(early), Step(early)] + [Step(prompt), Step(prompt), Step(prompt)];
    RunsThenMore(cfg, s, acts12, s2, acts3, s3);
    RunsThenMore(cfg, s, acts12 + acts3, s3, acts4, s4);
    RunsThenMore(cfg, s, acts12 + acts3 + acts4, s4, acts5, final);
  }

  /**
   In this run from start-up nothing fails, is removed or evicted, yet the key is loaded twice, the second time
   while it is cached.
   */
  lemma SecondLoadHappens<T>(cfg: Config<T>, s: State<T>, n: Peer, key: string, data: string, again: string)
    returns (final: State<T>)
    requires Init(s) && n in s.nodes && RoutesTo(cfg.sch, s.nodes[n].table, key, n)
    ensures Runs(cfg, s, [Call(Get, n, key), Call(Get, n, key)] + EarlyAndPrompt(0, 1, data, again), final)
    ensures |final.tasks| == 2 && |final.loads| == 2 && final.loads[0].task == 1 && final.loads[1].task == 0
    ensures forall l | l in final.loads :: l.node == n && l.key == key
    ensures var v := Val(data, 0, final.loads[0].called);
            && n in final.nodes && final.nodes[n].MainGet(key) == Some(v) && final.tasks[1].phase == Finished(Ok(v))
            && final.loads[0].outcome == Some(data) && final.loads[1].outcome == Some(again)
  {
    hide Runs, EarlyAndPrompt, LookupPeer;
    var one := Apply(cfg, s, Call(Get, n, key));
    var two := Apply(cfg, one, Call(Get, n, key));
    NothingRuns(cfg, s);
    RunsThenOne(cfg, s, [], s, Call(Get, n, key));
    RunsThenOne(cfg, s, [] + [Call(Get, n, key)], one, Call(Get, n, key));
    var calls: seq<Action<T>> := [Call(Get, n, key), Call(Get, n, key)];
    assert [] + [Call(Get, n, key)] + [Call(Get, n, key)] == calls;
    final := BothLoad(cfg, two, 0, 1, s.nodes[n], LookupPeer(cfg.sch, s.nodes[n].table, key).client, data, again);
    RunsThenMore(cfg, s, [Call(Get, n, key), Call(Get, n, key)], two, EarlyAndPrompt(0, 1, data, again), final);
  }

  // ------------------------------------------------- exactly when it can happen

  ghost predicate Cached<T>(s: State<T>, n: Peer, key: string) {
    n in s.nodes && key in s.nodes[n].main
  }

  /** A run during which no table changes and the key never leaves the main cache of node `n`. */
  ghost predicate RunsCached<T>(cfg: Config<T>, s: State<T>, acts: seq<Action<T>>, final: State<T>, n: Peer,
                                key: string)
    decreases |acts|
  {
    Cached(s, n, key) &&
    if acts == [] then s == final
    else
      && Enabled(s, acts[0]) && !acts[0].ReplaceTable?
      && RunsCached(cfg, Apply(cfg, s, acts[0]), acts[1..], final, n, key)
  }

  ghost predicate GetOn(a: Task, n: Peer, key: string) {
    a.op.Get? && a.node == n && a.key == key
  }

  /** The get is past its probe of the main cache, and neither joined a flight nor called the loader yet. */
  predicate PastProbe(a: Task) {
    a.phase.MissedMain? || a.phase.Unrouted? || a.phase.Routed? || a.phase.Leading?
  }

  /** A load of the key on node `n` that had not begun in `s`. */
  ghost predicate BeginsLoad<T>(s: State<T>, final: State<T>, i: nat, n: Peer, key: string) {
    && i < |final.tasks| && GetOn(final.tasks[i], n, key) && Loading(final.tasks[i])
    && !(i < |s.tasks| && Loading(s.tasks[i]))
  }

  ghost predicate LoadsAgain<T(!new)>(cfg: Config<T>, s: State<T>, n: Peer, key: string) {
    exists acts, final, i :: RunsCached(cfg, s, acts, final, n, key) && BeginsLoad(s, final, i, n, key)
  }

  // ------------------------------------------------------------- only if

  ghost predicate NobodyPast<T>(s: State<T>, n: Peer, key: string) {
    forall i: nat | i < |s.tasks| && GetOn(s.tasks[i], n, key) :: !PastProbe(s.tasks[i])
  }

  lemma MoveStaysBefore<T(!new)>(cfg: Config<T>, s: State<T>, act: Action<T>, n: Peer, key: string)
    requires Inv(cfg.sch, s) && Placed(cfg.sch, s) && Cached(s, n, key) && Enabled(s, act) && IsTaskAction(act)
    requires act.t < |s.tasks| && GetOn(s.tasks[act.t], n, key) && !PastProbe(s.tasks[act.t])
    ensures var b := TaskMove(cfg, s, act).task; !PastProbe(b) && !Loading(b) && b.node == n
  {
    hide Inv, Placed, LookupPeer, RoutesTo, Nearer, ChildOk;
    PlacedTask(cfg.sch, s, act.t);
    if act.Step? && s.tasks[act.t].phase.Following? {
      OneTaskIsOk(cfg.sch, s, act.t);
    }
  }

  lemma ActionStaysBefore<T(!new)>(cfg: Config<T>, s0: State<T>, s: State<T>, act: Action<T>, n: Peer, key: string)
    requires Inv(cfg.sch, s) && Placed(cfg.sch, s) && Cached(s, n, key) && Enabled(s, act)
    requires NobodyPast(s, n, key) && forall i: nat :: !BeginsLoad(s0, s, i, n, key)
    ensures var s' := Apply(cfg, s, act); NobodyPast(s', n, key) && forall i: nat :: !BeginsLoad(s0, s', i, n, key)
  {
    hide Inv, Placed, TaskMove;
    var s' := Apply(cfg, s, act);
    if IsTaskAction(act) {
      MoverIsKnown(cfg, s, act);
      StartedAreFresh(cfg, s, act);
      if GetOn(s.tasks[act.t], n, key) {
        MoveStaysBefore(cfg, s, act, n, key);
      }
    }
    forall i: nat ensures !BeginsLoad(s0, s', i, n, key) {
      assert !BeginsLoad(s0, s, i, n, key);
    }
  }

  lemma MoverIsKnown<T>(cfg: Config<T>, s: State<T>, act: Action<T>)
    requires Enabled(s, act) && IsTaskAction(act)
    ensures act.t < |s.tasks|
    ensures var b, a := TaskMove(cfg, s, act).task, s.tasks[act.t]; b.op == a.op && b.node == a.node && b.key == a.key
  {
    hide LookupPeer;
  }

  lemma {:induction false} RunsStayBefore<T(!new)>(cfg: Config<T>, s0: State<T>, s: State<T>, acts: seq<Action<T>>,
                                                   final: State<T>, n: Peer, key: string)
    requires Sound(cfg.sch) && Inv(cfg.sch, s) && Placed(cfg.sch, s) && RunsCached(cfg, s, acts, final, n, key)
    requires NobodyPast(s, n, key) && forall i: nat :: !BeginsLoad(s0, s, i, n, key)
    ensures forall i: nat :: !BeginsLoad(s0, final, i, n, key)
    decreases |acts|
  {
    hide Inv, Placed, Apply, BeginsLoad, NobodyPast;
    if acts != [] {
      ActionKeepsInv(cfg, s, acts[0]);
      ActionKeepsPlaced(cfg, s, acts[0]);
      ActionStaysBefore(cfg, s0, s, acts[0], n, key);
      RunsStayBefore(cfg, s0, Apply(cfg, s, acts[0]), acts[1..], final, n, key);
    }
  }

  // ------------------------------------------------------------------ if

  lemma {:induction false} CachedThenOne<T>(cfg: Config<T>, s: State<T>, acts: seq<Action<T>>, mid: State<T>,
                                            act: Action<T>, n: Peer, key: string)
    requires RunsCached(cfg, s, acts, mid, n, key) && Enabled(mid, act) && !act.ReplaceTable?
    requires Cached(Apply(cfg, mid, act), n, key)
    ensures RunsCached(cfg, s, acts + [act], Apply(cfg, mid, act), n, key)
    decreases |acts|
  {
    hide Apply, Cached;
    if acts == [] {
      assert (acts + [act])[1..] == [];
      assert RunsCached(cfg, Apply(cfg, mid, act), [], Apply(cfg, mid, act), n, key);
    } else {
      assert (acts + [act])[1..] == acts[1..] + [act];
      CachedThenOne(cfg, Apply(cfg, s, acts[0]), acts[1..], mid, act, n, key);
    }
  }

  ghost predicate Kept<T>(cfg: Config<T>, s: State<T>, acts: seq<Action<T>>, cur: State<T>, n: Peer, key: string) {
    RunsCached(cfg, s, acts, cur, n, key) && Inv(cfg.sch, cur) && Placed(cfg.sch, cur) && Cached(cur, n, key)
  }

  /** What is known of a get of a key on the node that owns it. */
  lemma OwnerTask<T>(sch: Scheme<T>, s: State<T>, n: Peer, key: string, t: nat)
    requires Inv(sch, s) && Placed(sch, s) && n in s.nodes && RoutesTo(sch, s.nodes[n].table, key, n)
    requires t < |s.tasks| && GetOn(s.tasks[t], n, key)
    ensures TaskOk(sch, s, t) && key !in s.nodes[n].hot
    ensures var phase := s.tasks[t].phase;
            && !phase.Requesting? && !phase.Awaiting? && !phase.FillingHot? && !phase.FallingBack?
            && !phase.LoadingFallback?
            && (phase.Routed? ==> phase.peer == n) && (phase.Leading? ==> phase.peer == n)
  {
    hide Inv, Placed, RoutesTo, Nearer, ChildOk;
    PlacedTask(sch, s, t);
    OneRoute(sch, s.nodes[n].table, key, n);
  }

  lemma KeptTask<T>(cfg: Config<T>, s: State<T>, acts: seq<Action<T>>, cur: State<T>, n: Peer, key: string, t: nat)
    requires Kept(cfg, s, acts, cur, n, key) && t < |cur.tasks| && GetOn(cur.tasks[t], n, key)
    ensures TaskOk(cfg.sch, cur, t) && n in cur.nodes && key in cur.nodes[n].main && key !in cur.nodes[n].hot
    ensures var phase := cur.tasks[t].phase;
            && !phase.Requesting? && !phase.Awaiting? && !phase.FillingHot? && !phase.FallingBack?
            && !phase.LoadingFallback?
            && (phase.Routed? ==> phase.peer == n) && (phase.Leading? ==> phase.peer == n)
    ensures RoutesTo(cfg.sch, cur.nodes[n].table, key, n)
  {
    hide Inv, RoutesTo, RunsCached, TasksPlaced;
    assert CachesPlaced(cfg.sch, n, cur.nodes[n]);
    OwnerTask(cfg.sch, cur, n, key, t);
  }

  lemma KeptStep<T(!new)>(cfg: Config<T>, s: State<T>, acts: seq<Action<T>>, cur: State<T>, n: Peer, key: string,
                          act: Action<T>)
    returns (acts': seq<Action<T>>, cur': State<T>)
    requires Sound(cfg.sch) && Kept(cfg, s, acts, cur, n, key) && Enabled(cur, act) && (act.Step? || act.LoadReturns?)
    requires act.t < |cur.tasks| && cur.tasks[act.t].node == n && key in TaskMove(cfg, cur, act).node.main
    ensures Kept(cfg, s, acts', cur', n, key)
    ensures var m := TaskMove(cfg, cur, act);
            && m.started == [] && cur'.tasks == cur.tasks[act.t := m.task] && cur'.nodes == cur.nodes[n := m.node]
  {
    hide Inv, Placed, TaskMove, RunsCached;
    acts', cur' := acts + [act], Apply(cfg, cur, act);
    MoveKeepsTask(cfg, cur, act);
    CachedThenOne(cfg, s, acts, cur, act, n, key);
    ActionKeepsInv(cfg, cur, act);
    ActionKeepsPlaced(cfg, cur, act);
  }

  function StepsToClose(phase: Phase): nat {
    match phase
    case LoadingOwn(_) => 2
    case FillingMain(_) => 2
    case _ => 1
  }

  /** A flight that has called the loader already comes to its end, and the key stays cached. */
  lemma {:induction false} OwnFlightEnds<T(!new)>(cfg: Config<T>, s: State<T>, acts: seq<Action<T>>, cur: State<T>,
                                                  n: Peer, key: string, l: nat)
    returns (acts': seq<Action<T>>, cur': State<T>)
    requires Sound(cfg.sch) && Kept(cfg, s, acts, cur, n, key)
    requires l < |cur.tasks| && GetOn(cur.tasks[l], n, key) && InFlight(cur.tasks[l]) && !cur.tasks[l].phase.Leading?
    ensures Kept(cfg, s, acts', cur', n, key)
    ensures |cur'.tasks| == |cur.tasks| && forall i: nat | i < |cur.tasks| && i != l :: cur'.tasks[i] == cur.tasks[i]
    ensures n in cur'.nodes && key !in cur'.nodes[n].flights
    decreases StepsToClose(cur.tasks[l].phase)
  {
    hide Kept, PhaseOk, ChildOk;
    KeptTask(cfg, s, acts, cur, n, key, l);
    if cur.tasks[l].phase.LoadingOwn? {
      acts', cur' := KeptStep(cfg, s, acts, cur, n, key, LoadReturns(l, None));
    } else {
      acts', cur' := KeptStep(cfg, s, acts, cur, n, key, Step(l));
    }
    if InFlight(cur'.tasks[l]) {
      acts', cur' := OwnFlightEnds(cfg, s, acts', cur', n, key, l);
    }
  }

  lemma LeaderLoads<T(!new)>(cfg: Config<T>, s: State<T>, acts: seq<Action<T>>, cur: State<T>, n: Peer, key: string,
                             t: nat)
    requires Sound(cfg.sch) && Kept(cfg, s, acts, cur, n, key)
    requires t < |s.tasks| <= |cur.tasks| && !Loading(s.tasks[t]) && GetOn(cur.tasks[t], n, key)
    requires cur.tasks[t].phase.Leading?
    ensures LoadsAgain(cfg, s, n, key)
  {
    hide Kept, PhaseOk, ChildOk, LookupPeer;
    KeptTask(cfg, s, acts, cur, n, key, t);
    var acts', cur' := KeptStep(cfg, s, acts, cur, n, key, Step(t));
    assert BeginsLoad(s, cur', t, n, key);
    KeptRuns(cfg, s, acts', cur', n, key);
  }

  lemma KeptRuns<T>(cfg: Config<T>, s: State<T>, acts: seq<Action<T>>, cur: State<T>, n: Peer, key: string)
    requires Kept(cfg, s, acts, cur, n, key)
    ensures RunsCached(cfg, s, acts, cur, n, key)
  {
  }

  function StepsToLead(phase: Phase): nat {
    match phase
    case MissedMain => 3
    case Unrouted => 2
    case Routed(_, _) => 1
    case _ => 0
  }

  /** With no flight in its way a get past its probe goes on to lead one. */
  lemma PastProbeLoads<T(!new)>(cfg: Config<T>, s: State<T>, acts: seq<Action<T>>, cur: State<T>, n: Peer, key: string,
                                t: nat)
    requires Sound(cfg.sch) && Kept(cfg, s, acts, cur, n, key)
    requires t < |s.tasks| <= |cur.tasks| && !Loading(s.tasks[t]) && GetOn(cur.tasks[t], n, key)
    requires PastProbe(cur.tasks[t])
    requires n in cur.nodes && (key in cur.nodes[n].flights ==> cur.tasks[t].phase.Leading?)
    ensures LoadsAgain(cfg, s, n, key)
    decreases if t < |cur.tasks| then StepsToLead(cur.tasks[t].phase) else 0
  {
    hide Kept, PhaseOk, ChildOk, LookupPeer, LoadsAgain;
    if cur.tasks[t].phase.Leading? {
      LeaderLoads(cfg, s, acts, cur, n, key, t);
    } else {
      KeptTask(cfg, s, acts, cur, n, key, t);
      FoundOwner(cfg.sch, cur.nodes[n].table, key, n);
      var acts', cur' := KeptStep(cfg, s, acts, cur, n, key, Step(t));
      PastProbeLoads(cfg, s, acts', cur', n, key, t);
    }
  }

  lemma FoundOwner<T>(sch: Scheme<T>, t: Table<T>, key: string, p: Peer)
    requires RoutesTo(sch, t, key, p)
    ensures LookupPeer(sch, t, key).Found? && LookupPeer(sch, t, key).peer == p
  {
  }

  /**
   Exactly when a key that its owner has in the main cache can be loaded there again while it stays cached: if and
   only if some get on that node is past its probe of the main cache and has not yet called the loader or joined a
   flight.
   */
  lemma SecondLoadExactly<T(!new)>(cfg: Config<T>, s: State<T>, n: Peer, key: string)
    requires Sound(cfg.sch) && Inv(cfg.sch, s) && Placed(cfg.sch, s) && Cached(s, n, key)
    ensures LoadsAgain(cfg, s, n, key) <==>
          exists t: nat :: t < |s.tasks| && GetOn(s.tasks[t], n, key) && PastProbe(s.tasks[t])
  {
    hide Inv, Placed, LoadsAgain;
    if t: nat :| t < |s.tasks| && GetOn(s.tasks[t], n, key) && PastProbe(s.tasks[t]) {
      CanLoadAgain(cfg, s, n, key, t);
    } else {
      assert NobodyPast(s, n, key);
      CannotLoadAgain(cfg, s, n, key);
    }
  }

  lemma CannotLoadAgain<T(!new)>(cfg: Config<T>, s: State<T>, n: Peer, key: string)
    requires Sound(cfg.sch) && Inv(cfg.sch, s) && Placed(cfg.sch, s) && NobodyPast(s, n, key)
    ensures !LoadsAgain(cfg, s, n, key)
  {
    hide Inv, Placed, RunsCached, NobodyPast;
    forall acts, final, i: nat | RunsCached(cfg, s, acts, final, n, key) ensures !BeginsLoad(s, final, i, n, key) {
      RunsStayBefore(cfg, s, s, acts, final, n, key);
    }
  }

  lemma CanLoadAgain<T(!new)>(cfg: Config<T>, s: State<T>, n: Peer, key: string, t: nat)
    requires Sound(cfg.sch) && Inv(cfg.sch, s) && Placed(cfg.sch, s) && Cached(s, n, key)
    requires t < |s.tasks| && GetOn(s.tasks[t], n, key) && PastProbe(s.tasks[t])
    ensures LoadsAgain(cfg, s, n, key)
  {
    hide Placed, LoadsAgain, OnOwnRing, TaskOk, RoutesTo;
    assert RunsCached(cfg, s, [], s, n, key);
    if key in s.nodes[n].flights {
      var l := s.nodes[n].flights[key];
      assert FlightOk(s, n, key);
      if s.tasks[l].phase.Leading? {
        PastProbeLoads(cfg, s, [], s, n, key, l);
      } else {
        assert TaskOk(cfg.sch, s, t);
        LeadersFly(cfg.sch, s, t);
        var acts, cur := OwnFlightEnds(cfg, s, [], s, n, key, l);
        PastProbeLoads(cfg, s, acts, cur, n, key, t);
      }
    } else {
      LeadersFly(cfg.sch, s, t);
      PastProbeLoads(cfg, s, [], s, n, key, t);
    }
  }

  lemma LeadersFly<T>(sch: Scheme<T>, s: State<T>, t: nat)
    requires Inv(sch, s) && t < |s.tasks|
    ensures InFlight(s.tasks[t]) ==>
              && s.tasks[t].node in s.nodes && s.tasks[t].key in s.nodes[s.tasks[t].node].flights
              && s.nodes[s.tasks[t].node].flights[s.tasks[t].key] == t
  {
    hide Inv;
    OneTaskIsOk(sch, s, t);
  }
}
