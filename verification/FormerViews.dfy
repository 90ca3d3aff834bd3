/**
 What former views leave behind. If the nodes agree on the owner of a key from now on, but tables changed before,
 an old value may sit in the hot cache of the present owner, or of a node that tasks still take for the owner. It
 stays harmless exactly if no request can reach it, and the same goes for the main caches of former owners.
 */
module FormerViews {
  import opened Wrappers
  import opened VNodes
  import opened Routing
  import opened NodeState
  import opened Cluster
  import opened Structure
  import opened Answers
  import opened Ownership
  import opened Staleness
  import opened StaleRuns
  import opened Alone

  /**
   At the same time as in `s`, no main cache has the key in `cur`, and node `m` still serves it from its hot cache
   as in `s`.
   */
  ghost predicate Brought<T>(cfg: Config<T>, s: State<T>, acts: seq<Action<T>>, cur: State<T>, key: string, m: Peer) {
    && Runs(cfg, s, acts, cur) && TablesFixed(acts) && Inv(cfg.sch, cur) && ClocksOk(cur)
    && cur.clock == s.clock && |s.tasks| <= |cur.tasks| && cur.nodes.Keys == s.nodes.Keys
    && (forall n | n in cur.nodes :: key !in cur.nodes[n].main && cur.nodes[n].table == s.nodes[n].table)
    && m in cur.nodes && s.nodes[m].HotGet(key, s.clock, cfg.ttl).Some?
    && key in cur.nodes[m].hot && cur.nodes[m].hot[key] == s.nodes[m].hot[key]
  }

  /** A move that does not touch what is brought. */
  ghost predicate Harmless<T>(key: string, m: Peer, s: State<T>, cur: State<T>, t: nat, mv: Move<T>)
    requires t < |cur.tasks| && cur.tasks[t].node in cur.nodes
  {
    && key !in mv.node.main && mv.node.table == cur.nodes[cur.tasks[t].node].table
    && (cur.tasks[t].node == m ==>
          key in mv.node.hot && key in cur.nodes[m].hot && mv.node.hot[key] == cur.nodes[m].hot[key])
  }

  lemma BringStep<T(!new)>(cfg: Config<T>, s: State<T>, acts: seq<Action<T>>, cur: State<T>, key: string, m: Peer,
                           act: Action<T>)
    returns (acts': seq<Action<T>>, cur': State<T>)
    requires Sound(cfg.sch) && Brought(cfg, s, acts, cur, key, m) && Enabled(cur, act) && IsTaskAction(act)
    requires act.t < |cur.tasks| && cur.tasks[act.t].node in cur.nodes
    requires Harmless(key, m, s, cur, act.t, TaskMove(cfg, cur, act))
    ensures Brought(cfg, s, acts', cur', key, m)
    ensures var mv := TaskMove(cfg, cur, act);
            && cur'.tasks == cur.tasks[act.t := mv.task] + mv.started
            && cur'.nodes == cur.nodes[cur.tasks[act.t].node := mv.node]
  {
    hide Inv, ClocksOk, TaskMove, Runs;
    acts', cur' := acts + [act], Apply(cfg, cur, act);
    RunsThenOne(cfg, s, acts, cur, act);
    ActionKeepsInv(cfg, cur, act);
    ActionKeepsClocks(cfg, cur, act);
  }

  // ----------------------------------------------------- a request on its way

  lemma BroughtNode<T>(cfg: Config<T>, s: State<T>, acts: seq<Action<T>>, cur: State<T>, key: string, m: Peer, t: nat)
    requires Brought(cfg, s, acts, cur, key, m) && t < |cur.tasks|
    ensures TaskOk(cfg.sch, cur, t) && key !in cur.nodes[cur.tasks[t].node].main
    ensures m in s.nodes && s.nodes[m].HotGet(key, s.clock, cfg.ttl).Some?
    ensures m in cur.nodes && cur.nodes[m].HotGet(key, cur.clock, cfg.ttl) == s.nodes[m].HotGet(key, s.clock, cfg.ttl)
    ensures key in s.nodes[m].hot && key in cur.nodes[m].hot && cur.nodes[m].hot[key] == s.nodes[m].hot[key]
  {
    hide Inv, Runs, ClocksOk, Nearer;
    OneTaskIsOk(cfg.sch, cur, t);
  }

  /** A served get that has not probed yet finds the value. */
  lemma ProbeFinds<T(!new)>(cfg: Config<T>, s: State<T>, acts: seq<Action<T>>, cur: State<T>, key: string, m: Peer,
                            c: nat)
    returns (acts': seq<Action<T>>, cur': State<T>)
    requires Sound(cfg.sch) && Brought(cfg, s, acts, cur, key, m)
    requires c < |cur.tasks| && cur.tasks[c].op.Get? && cur.tasks[c].key == key && cur.tasks[c].node == m
    requires Unprobed(cur.tasks[c])
    ensures Brought(cfg, s, acts', cur', key, m)
    ensures |cur'.tasks| == |cur.tasks| && forall i: nat | i < |cur.tasks| && i != c :: cur'.tasks[i] == cur.tasks[i]
    ensures cur'.tasks[c].phase == Finished(Ok(s.nodes[m].hot[key].val)) && cur'.tasks[c].node == m
  {
    hide Brought, LookupPeer, PhaseOk, ChildOk;
    acts', cur' := acts, cur;
    BroughtNode(cfg, s, acts', cur', key, m, c);
    if cur'.tasks[c].phase.Fresh? {
      acts', cur' := BringStep(cfg, s, acts', cur', key, m, Step(c));
      BroughtNode(cfg, s, acts', cur', key, m, c);
      acts', cur' := BringStep(cfg, s, acts', cur', key, m, Step(c));
    } else {
      acts', cur' := BringStep(cfg, s, acts', cur', key, m, Step(c));
    }
  }

  /** A request that was sent to node `m` comes back with the value. */
  lemma RequestFinds<T(!new)>(cfg: Config<T>, s: State<T>, acts: seq<Action<T>>, cur: State<T>, key: string, m: Peer,
                              t: nat)
    returns (acts': seq<Action<T>>, cur': State<T>)
    requires Sound(cfg.sch) && Brought(cfg, s, acts, cur, key, m)
    requires t < |cur.tasks| && cur.tasks[t].op.Get? && cur.tasks[t].key == key && cur.tasks[t].phase == Requesting(m)
    requires s.nodes[m].hot[key].val.called < s.now
    ensures Brought(cfg, s, acts', cur', key, m)
    ensures CarriesOld(cur'.tasks, t, s.now) && cur'.tasks[t].key == key
  {
    hide Brought, PhaseOk, ChildOk;
    BroughtNode(cfg, s, acts, cur, key, m, t);
    var c := |cur.tasks|;
    acts', cur' := BringStep(cfg, s, acts, cur, key, m, Deliver(t));
    acts', cur' := ProbeFinds(cfg, s, acts', cur', key, m, c);
  }

  /** So does one that is still to be sent. */
  lemma LeaderFinds<T(!new)>(cfg: Config<T>, s: State<T>, acts: seq<Action<T>>, cur: State<T>, key: string, m: Peer,
                             t: nat)
    returns (acts': seq<Action<T>>, cur': State<T>)
    requires Sound(cfg.sch) && Brought(cfg, s, acts, cur, key, m)
    requires t < |cur.tasks| && cur.tasks[t].op.Get? && cur.tasks[t].key == key && cur.tasks[t].phase.Leading?
    requires Asks(cur.tasks[t], m)
    requires s.nodes[m].hot[key].val.called < s.now
    ensures Brought(cfg, s, acts', cur', key, m)
    ensures CarriesOld(cur'.tasks, t, s.now) && cur'.tasks[t].key == key
  {
    hide Brought, ChildOk, Nearer, LookupPeer, CarriesOld;
    BroughtNode(cfg, s, acts, cur, key, m, t);
    acts', cur' := BringStep(cfg, s, acts, cur, key, m, Step(t));
    acts', cur' := RequestFinds(cfg, s, acts', cur', key, m, t);
  }

  // ------------------------------------------- a flight that stands in the way

  /** How many actions end the flight, if its request fails and its loader too. */
  function StepsToEnd(phase: Phase): nat {
    match phase
    case Leading(_, _) => 5
    case Requesting(_) => 4
    case Awaiting => 4
    case FallingBack => 3
    case LoadingOwn(_) => 2
    case LoadingFallback(_) => 2
    case _ => 1
  }

  function EndingAct<T>(a: Task, t: nat): Action<T> {
    if Loading(a) then LoadReturns(t, None)
    else if a.phase.Requesting? || a.phase.Awaiting? then RpcFails(t)
    else Step(t)
  }

  /** The flight has no value to put into a cache. */
  predicate Empty(a: Task) {
    InFlight(a) && !a.phase.FillingMain? && !a.phase.FillingHot? && (a.phase.Closing? ==> !a.phase.answer.Ok?)
  }

  lemma EndingMove<T>(cfg: Config<T>, s: State<T>, t: nat)
    requires t < |s.tasks| && TaskOk(cfg.sch, s, t) && Empty(s.tasks[t])
    ensures Enabled(s, EndingAct(s.tasks[t], t))
    ensures var a, n, m := s.tasks[t], s.nodes[s.tasks[t].node], TaskMove(cfg, s, EndingAct(s.tasks[t], t));
            && m.started == [] && m.task.op == a.op && m.task.key == a.key && m.task.node == a.node
            && m.node.main == n.main && m.node.hot == n.hot && m.node.table == n.table
            && (if Empty(m.task) then StepsToEnd(m.task.phase) < StepsToEnd(a.phase) && m.node.flights == n.flights
                else m.node.flights == n.flights - {a.key})
  {
    hide LookupPeer, Nearer, ChildOk;
  }

  /** The flight ends without a value; nothing else changes. */
  lemma {:induction false} FlightEnds<T(!new)>(cfg: Config<T>, s: State<T>, acts: seq<Action<T>>, cur: State<T>,
                                               key: string, m: Peer, l: nat)
    returns (acts': seq<Action<T>>, cur': State<T>)
    requires Sound(cfg.sch) && Brought(cfg, s, acts, cur, key, m)
    requires l < |cur.tasks| && Empty(cur.tasks[l]) && cur.tasks[l].key == key
    ensures Brought(cfg, s, acts', cur', key, m)
    ensures |cur'.tasks| == |cur.tasks| && forall i: nat | i < |cur.tasks| && i != l :: cur'.tasks[i] == cur.tasks[i]
    ensures cur.tasks[l].node in cur'.nodes && key !in cur'.nodes[cur.tasks[l].node].flights
    decreases StepsToEnd(cur.tasks[l].phase)
  {
    hide Brought, TaskMove, Empty, StepsToEnd, PhaseOk, ChildOk;
    BroughtNode(cfg, s, acts, cur, key, m, l);
    var a := cur.tasks[l];
    EndingMove(cfg, cur, l);
    acts', cur' := BringStep(cfg, s, acts, cur, key, m, EndingAct(a, l));
    if Empty(cur'.tasks[l]) {
      acts', cur' := FlightEnds(cfg, s, acts', cur', key, m, l);
    }
  }

  /** No flight for the key carries a value. */
  ghost predicate NothingCarried<T>(s: State<T>, key: string) {
    forall t: nat | t < |s.tasks| && s.tasks[t].key == key :: !CarriesValue(s.tasks, t)
  }

  /** The way for gets of the key on node `x` is cleared. */
  lemma ClearTheWay<T(!new)>(cfg: Config<T>, s: State<T>, key: string, m: Peer, x: Peer)
    returns (acts: seq<Action<T>>, cur: State<T>)
    requires Sound(cfg.sch) && Brought(cfg, s, [], s, key, m) && NothingCarried(s, key) && x in s.nodes
    ensures Brought(cfg, s, acts, cur, key, m)
    ensures x in cur.nodes && key !in cur.nodes[x].flights
    ensures |cur.tasks| == |s.tasks|
    ensures forall i: nat | i < |s.tasks| && !InFlight(s.tasks[i]) :: cur.tasks[i] == s.tasks[i]
  {
    hide Runs, ClocksOk, CarriesOld;
    if key in s.nodes[x].flights {
      var l := s.nodes[x].flights[key];
      assert FlightOk(s, x, key);
      assert !CarriesValue(s.tasks, l);
      acts, cur := FlightEnds(cfg, s, [], s, key, m, l);
    } else {
      acts, cur := [], s;
    }
  }

  /** A get that has been routed to node `m` finds the value there. */
  lemma RoutedFinds<T(!new)>(cfg: Config<T>, s: State<T>, acts: seq<Action<T>>, cur: State<T>, key: string, m: Peer,
                             t: nat)
    returns (acts': seq<Action<T>>, cur': State<T>)
    requires Sound(cfg.sch) && Brought(cfg, s, acts, cur, key, m)
    requires t < |cur.tasks| && cur.tasks[t].op.Get? && cur.tasks[t].key == key && cur.tasks[t].phase.Routed?
    requires Asks(cur.tasks[t], m)
    requires cur.tasks[t].node in cur.nodes && key !in cur.nodes[cur.tasks[t].node].flights
    requires s.nodes[m].hot[key].val.called < s.now
    ensures Brought(cfg, s, acts', cur', key, m)
    ensures CarriesOld(cur'.tasks, t, s.now) && cur'.tasks[t].key == key
  {
    hide Brought, ChildOk, Nearer, LookupPeer, CarriesOld;
    BroughtNode(cfg, s, acts, cur, key, m, t);
    acts', cur' := BringStep(cfg, s, acts, cur, key, m, Step(t));
    acts', cur' := LeaderFinds(cfg, s, acts', cur', key, m, t);
  }

  // -------------------------------------------------------- a get called anew

  /** An eviction on another node, or a call, does not touch what is brought either. */
  lemma BringEvent<T(!new)>(cfg: Config<T>, s: State<T>, acts: seq<Action<T>>, cur: State<T>, key: string, m: Peer,
                            act: Action<T>)
    returns (acts': seq<Action<T>>, cur': State<T>)
    requires Sound(cfg.sch) && Brought(cfg, s, acts, cur, key, m) && Enabled(cur, act)
    requires act.Call? || (act.EvictHot? && act.node != m)
    ensures cur' == Apply(cfg, cur, act) && Brought(cfg, s, acts', cur', key, m)
  {
    hide Inv, ClocksOk, Runs;
    acts', cur' := acts + [act], Apply(cfg, cur, act);
    RunsThenOne(cfg, s, acts, cur, act);
    ActionKeepsInv(cfg, cur, act);
    ActionKeepsClocks(cfg, cur, act);
  }

  lemma NewGetIsCalled<T(!new)>(cfg: Config<T>, s: State<T>, acts: seq<Action<T>>, cur: State<T>, key: string, m: Peer,
                                x: Peer)
    returns (acts': seq<Action<T>>, cur': State<T>, j: nat)
    requires Sound(cfg.sch) && Brought(cfg, s, acts, cur, key, m) && x in cur.nodes && x != m
    ensures Brought(cfg, s, acts', cur', key, m)
    ensures j < |cur'.tasks| && cur'.tasks[j].op.Get? && cur'.tasks[j].node == x && cur'.tasks[j].key == key
    ensures cur'.tasks[j].phase.Fresh?
    ensures x in cur'.nodes && key !in cur'.nodes[x].hot && cur'.nodes[x].flights == cur.nodes[x].flights
    ensures cur'.nodes[x].table == cur.nodes[x].table
  {
    hide Brought;
    j := |cur.tasks|;
    acts', cur' := BringEvent(cfg, s, acts, cur, key, m, EvictHot(x, key));
    acts', cur' := BringEvent(cfg, s, acts', cur', key, m, Call(Get, x, key));
  }

  /** A get called on node `x`, where no cache has the key and no flight runs, is routed to its owner. */
  lemma NewGetIsRouted<T(!new)>(cfg: Config<T>, s: State<T>, acts: seq<Action<T>>, cur: State<T>, key: string, m: Peer,
                                x: Peer)
    returns (acts': seq<Action<T>>, cur': State<T>, j: nat)
    requires Sound(cfg.sch) && Brought(cfg, s, acts, cur, key, m) && x in cur.nodes && x != m
    requires key !in cur.nodes[x].flights
    requires RoutesTo(cfg.sch, cur.nodes[x].table, key, m) && ClientFor(cfg.sch, cur.nodes[x].table, key).Some?
    ensures Brought(cfg, s, acts', cur', key, m)
    ensures j < |cur'.tasks| && cur'.tasks[j].op.Get? && cur'.tasks[j].key == key && cur'.tasks[j].phase.Routed?
    ensures Asks(cur'.tasks[j], m)
    ensures cur'.tasks[j].node == x && x in cur'.nodes && key !in cur'.nodes[x].flights
  {
    hide Brought, LookupPeer, TaskOk;
    acts', cur', j := NewGetIsCalled(cfg, s, acts, cur, key, m, x);
    BroughtNode(cfg, s, acts', cur', key, m, j);
    acts', cur' := BringStep(cfg, s, acts', cur', key, m, Step(j));
    BroughtNode(cfg, s, acts', cur', key, m, j);
    acts', cur' := BringStep(cfg, s, acts', cur', key, m, Step(j));
    BroughtNode(cfg, s, acts', cur', key, m, j);
    acts', cur' := BringStep(cfg, s, acts', cur', key, m, Step(j));
  }

  /** If a request may reach an old value in a hot cache, a flight with that value can come about. */
  lemma AskedIsBrought<T(!new)>(cfg: Config<T>, s: State<T>, key: string, owner: Peer, m: Peer)
    returns (acts: seq<Action<T>>, cur: State<T>, t: nat)
    requires Sound(cfg.sch) && AllRouteTo(cfg.sch, s, key, owner) && Brought(cfg, s, [], s, key, m)
    requires NothingCarried(s, key)
    requires s.nodes[m].hot[key].val.called < s.now && MayBeAsked(cfg.sch, s, key, owner, m)
    ensures Brought(cfg, s, acts, cur, key, m) && CarriesOld(cur.tasks, t, s.now) && cur.tasks[t].key == key
  {
    hide CarriesOld, Runs, ClocksOk, RoutesTo, ClientFor;
    if m == owner && OwnerIsAsked(cfg.sch, s.nodes, key, owner) {
      var x :| x in s.nodes && x != owner && ClientFor(cfg.sch, s.nodes[x].table, key).Some?;
      acts, cur := ClearTheWay(cfg, s, key, m, x);
      assert RoutesTo(cfg.sch, s.nodes[x].table, key, m);
      acts, cur, t := NewGetIsRouted(cfg, s, acts, cur, key, m, x);
      acts, cur := RoutedFinds(cfg, s, acts, cur, key, m, t);
    } else {
      t :| t < |s.tasks| && s.tasks[t].op.Get? && s.tasks[t].key == key && HeadsFor(s.tasks, t, m);
      acts, cur := HeadingFinds(cfg, s, key, m, t);
    }
  }

  /** A request that heads for the value finds it. */
  lemma HeadingFinds<T(!new)>(cfg: Config<T>, s: State<T>, key: string, m: Peer, t: nat)
    returns (acts: seq<Action<T>>, cur: State<T>)
    requires Sound(cfg.sch) && Brought(cfg, s, [], s, key, m) && NothingCarried(s, key)
    requires s.nodes[m].hot[key].val.called < s.now
    requires t < |s.tasks| && s.tasks[t].op.Get? && s.tasks[t].key == key && HeadsFor(s.tasks, t, m)
    ensures Brought(cfg, s, acts, cur, key, m) && CarriesOld(cur.tasks, t, s.now) && cur.tasks[t].key == key
  {
    hide Brought, Nearer;
    var a := s.tasks[t];
    BroughtNode(cfg, s, [], s, key, m, t);
    if a.phase.Awaiting? {
      var c := a.child.value;
      acts, cur := ProbeFinds(cfg, s, [], s, key, m, c);
    } else if a.phase.Requesting? {
      acts, cur := RequestFinds(cfg, s, [], s, key, m, t);
    } else if a.phase.Leading? {
      acts, cur := LeaderFinds(cfg, s, [], s, key, m, t);
    } else {
      acts, cur := ClearTheWay(cfg, s, key, m, a.node);
      acts, cur := RoutedFinds(cfg, s, acts, cur, key, m, t);
    }
  }

  // --------------------------------------------------------- exactly when gone

  lemma AskedIsServed<T(!new)>(cfg: Config<T>, s: State<T>, key: string, owner: Peer, m: Peer, delay: nat)
    requires Sound(cfg.sch) && Inv(cfg.sch, s) && Coherent(s) && ClocksOk(s) && AllRouteTo(cfg.sch, s, key, owner)
    requires (forall n | n in s.nodes :: key !in s.nodes[n].main) && NothingCarried(s, key)
    requires m in s.nodes && s.nodes[m].HotGet(key, s.clock, cfg.ttl).Some? && MayBeAsked(cfg.sch, s, key, owner, m)
    ensures MayServeOld(cfg, s, key, delay)
  {
    hide Inv, Coherent, ClocksOk, AllRouteTo, NothingCarried, MayBeAsked, CarriesOld, MayServeOld;
    CachedValueIsOld(s, m, key);
    NothingRuns(cfg, s);
    hide Runs;
    var acts, cur, t := AskedIsBrought(cfg, s, key, owner, m);
    CarrierExists(cur.tasks, t, s.now);
    CarrierNode(cfg, s, acts, cur, key, m, t);
    BroughtIsServed(cfg, s, key, acts, cur, t, delay);
  }

  lemma CarrierNode<T>(cfg: Config<T>, s: State<T>, acts: seq<Action<T>>, cur: State<T>, key: string, m: Peer, t: nat)
    requires Brought(cfg, s, acts, cur, key, m) && t < |cur.tasks|
    ensures cur.tasks[t].node in cur.nodes && key !in cur.nodes[cur.tasks[t].node].main
  {
    hide Brought, PhaseOk, ChildOk;
    BroughtNode(cfg, s, acts, cur, key, m, t);
  }

  lemma NotGoneMeansOld<T(!new)>(cfg: Config<T>, s: State<T>, key: string, owner: Peer, delay: nat)
    requires Sound(cfg.sch) && Inv(cfg.sch, s) && Coherent(s) && ClocksOk(s) && AllRouteTo(cfg.sch, s, key, owner)
    requires !Gone(cfg, s, key, owner)
    ensures MayServeOld(cfg, s, key, delay)
  {
    hide Inv, Coherent, ClocksOk, AllRouteTo, CarriesValue, MayBeAsked, LateAnswer;
    if n :| n in s.nodes && key in s.nodes[n].main {
      CachedValueIsOld(s, n, key);
      var acts, final := CachedKeyIsServed(cfg, s, key, n, delay);
    } else if t: nat :| t < |s.tasks| && s.tasks[t].key == key && CarriesValue(s.tasks, t) {
      CarriedIsOld(cfg.sch, s, t);
      OneTaskIsOk(cfg.sch, s, t);
      var acts, final, v := CarriedValueIsServed(cfg, s, key, t, s.now, delay);
    } else {
      var m :| m in s.nodes && s.nodes[m].HotGet(key, s.clock, cfg.ttl).Some? && MayBeAsked(cfg.sch, s, key, owner, m);
      AskedIsServed(cfg, s, key, owner, m, delay);
    }
  }

  /**
   Exactly when a removal has taken effect, whatever the views were before: no get that starts a time to live later
   returns an old value if and only if the key is gone; otherwise some get does however late it starts.
   */
  lemma GoneExactly<T(!new)>(cfg: Config<T>, s: State<T>, key: string, owner: Peer)
    requires Sound(cfg.sch) && Inv(cfg.sch, s) && Coherent(s) && ClocksOk(s) && AllRouteTo(cfg.sch, s, key, owner)
    ensures Gone(cfg, s, key, owner) <==> !MayServeOld(cfg, s, key, cfg.ttl)
    ensures !Gone(cfg, s, key, owner) ==> forall delay: nat :: MayServeOld(cfg, s, key, delay)
  {
    hide Inv, Coherent, ClocksOk, AllRouteTo, Gone, MayServeOld;
    if Gone(cfg, s, key, owner) {
      GoneMeansNotServed(cfg, s, key, owner);
    } else {
      forall delay: nat ensures MayServeOld(cfg, s, key, delay) {
        NotGoneMeansOld(cfg, s, key, owner, delay);
      }
    }
  }

  // ------------------------------------------------- a former owner, for good

  lemma OwnLoadIsCached<T>(sch: Scheme<T>, me: Peer, ttl: nat, n: Node<T>, key: string, env: Serving.Env)
    requires RoutesTo(sch, n.table, key, me) && n.main == map[] && n.hot == map[] && n.flights == map[]
    requires env.load.Some?
    ensures Serving.Get(sch, me, ttl, n, key, env).0.MainGet(key) == Some(Val(env.load.value, env.loadId, env.calledAt))
    ensures Serving.Get(sch, me, ttl, n, key, env).0.table == n.table
  {
    hide LookupPeer;
  }

  /** The first get of a key on its owner loads and caches it. */
  lemma OwnerCaches<T>(cfg: Config<T>, s: State<T>, n: Peer, key: string, data: string)
    returns (acts: seq<Action<T>>, cur: State<T>, v: Val)
    requires Init(s) && n in s.nodes && RoutesTo(cfg.sch, s.nodes[n].table, key, n)
    ensures Runs(cfg, s, acts, cur) && TablesFixed(acts) && |cur.tasks| == 1 && cur.nodes.Keys == s.nodes.Keys
    ensures cur.nodes[n].MainGet(key) == Some(v) && v.data == data
    ensures forall m | m in s.nodes :: cur.nodes[m].table == s.nodes[m].table
  {
    hide LookupPeer, Runs, Serving.Get, RoutesTo;
    var called := Apply(cfg, s, Call(Get, n, key));
    var env := Serving.Env(called.clock, called.now + 6, 0, called.now + 4, 0, 0, Some(data), None, Removed, false);
    NothingRuns(cfg, s);
    RunsThenOne(cfg, s, [], s, Call(Get, n, key));
    var more;
    more, cur := GetAlone(cfg, called, 0, env);
    RunsThenMore(cfg, s, [] + [Call(Get, n, key)], called, more, cur);
    acts := [] + [Call(Get, n, key)] + more;
    v := Val(data, 0, called.now + 4);
    OwnLoadIsCached(cfg.sch, n, cfg.ttl, Received(called.nodes[n], Caller), key, env);
  }

  lemma OwnRemoveIsDone<T>(sch: Scheme<T>, me: Peer, n: Node<T>, key: string, env: Serving.Env)
    requires RoutesTo(sch, n.table, key, me)
    ensures Serving.Remove(sch, me, n, key, env).1 == Removed
    ensures Serving.Remove(sch, me, n, key, env).0.table == n.table
  {
    hide LookupPeer;
  }

  /** A remove called on the owner of a key is done there; other nodes keep what they have. */
  lemma OwnerRemoves<T>(cfg: Config<T>, s: State<T>, n: Peer, key: string)
    returns (acts: seq<Action<T>>, cur: State<T>)
    requires n in s.nodes && RoutesTo(cfg.sch, s.nodes[n].table, key, n)
    ensures Runs(cfg, s, acts, cur) && TablesFixed(acts) && |cur.tasks| == |s.tasks| + 1
    ensures cur.nodes.Keys == s.nodes.Keys
    ensures var a := cur.tasks[|s.tasks|];
            a.op.Remove? && a.node == n && a.key == key && a.started == s.now && a.phase == Finished(Removed)
    ensures forall m | m in s.nodes :: cur.nodes[m].table == s.nodes[m].table && (m != n ==> cur.nodes[m] == s.nodes[m])
  {
    hide LookupPeer, Runs, Serving.Remove, RoutesTo;
    var called := Apply(cfg, s, Call(Remove, n, key));
    var env := Serving.Env(called.clock, 0, 0, 0, |s.tasks|, |s.loads|, None, None, Removed, false);
    NothingRuns(cfg, s);
    RunsThenOne(cfg, s, [], s, Call(Remove, n, key));
    var more;
    more, cur := RemoveAlone(cfg, called, |s.tasks|, env);
    RunsThenMore(cfg, s, [] + [Call(Remove, n, key)], called, more, cur);
    acts := [] + [Call(Remove, n, key)] + more;
    OwnRemoveIsDone(cfg.sch, n, called.nodes[n], key, env);
  }

  /**
   Node `a` owns a key and caches it; then its table is replaced and `b` owns the key, in the view of both; then a
   remove called on `b` returns without an error. From then on a get on `a` can return the old value, however late
   it is called.
   */
  lemma FormerOwnerServes<T(!new)>(cfg: Config<T>, s: State<T>, a: Peer, b: Peer, table: Table<T>, key: string,
                                   data: string)
    returns (acts: seq<Action<T>>, removed: State<T>, v: Val)
    requires Sound(cfg.sch) && Init(s) && forall n | n in s.nodes :: OnOwnRing(cfg.sch, n, s.nodes[n].table)
    requires a in s.nodes && b in s.nodes && a != b && OnOwnRing(cfg.sch, a, table)
    requires RoutesTo(cfg.sch, s.nodes[a].table, key, a)
    requires RoutesTo(cfg.sch, table, key, b) && RoutesTo(cfg.sch, s.nodes[b].table, key, b)
    ensures Runs(cfg, s, acts, removed) && forall act | act in acts :: Fair(cfg.sch, act)
    ensures removed.nodes.Keys == s.nodes.Keys
    ensures RoutesTo(cfg.sch, removed.nodes[a].table, key, b) && RoutesTo(cfg.sch, removed.nodes[b].table, key, b)
    ensures |removed.tasks| == 2
    ensures var r := removed.tasks[1]; r.op.Remove? && r.node == b && r.key == key && r.phase == Finished(Removed)
    ensures v.data == data && v.called < removed.tasks[1].started
    ensures forall delay: nat :: MayAnswer(cfg, removed, a, key, delay, v)
  {
    hide Runs, OnOwnRing, Fair, Coherent, ClocksOk, RoutesTo, LookupPeer, MayAnswer;
    var first, cached;
    first, cached, v := OwnerCaches(cfg, s, a, key, data);
    var replaced := Apply(cfg, cached, ReplaceTable(a, table));
    RunsThenOne(cfg, s, first, cached, ReplaceTable(a, table));
    var last;
    last, removed := OwnerRemoves(cfg, replaced, b, key);
    acts := first + [ReplaceTable(a, table)] + last;
    RunsThenMore(cfg, s, first + [ReplaceTable(a, table)], replaced, last, removed);
    FixedIsFair(cfg.sch, first);
    FixedIsFair(cfg.sch, last);
    ReplacingIsFair(cfg.sch, a, table);
    StartUpIsCoherent(cfg.sch, s);
    RunsAreCoherent(cfg, s, first, cached);
    StartUpClocks(s);
    RunsKeepClocks(cfg, s, first, cached);
    CachedValueIsOld(cached, a, key);
    forall delay: nat ensures MayAnswer(cfg, removed, a, key, delay, v) {
      StillCached(cfg, removed, key, a, delay);
    }
  }

  /** A get of the key called on node `n` at least `delay` after `s` may return `v`. */
  ghost predicate MayAnswer<T(!new)>(cfg: Config<T>, s: State<T>, n: Peer, key: string, delay: nat, v: Val) {
    exists acts, final, i :: LateAnswer(cfg, s, acts, final, i, n, key, delay, v)
  }

  lemma StillCached<T(!new)>(cfg: Config<T>, s: State<T>, key: string, n: Peer, delay: nat)
    requires n in s.nodes && key in s.nodes[n].main
    ensures MayAnswer(cfg, s, n, key, delay, s.nodes[n].main[key].val)
  {
    hide LateAnswer;
    var acts, final := CachedKeyIsServed(cfg, s, key, n, delay);
  }
}
