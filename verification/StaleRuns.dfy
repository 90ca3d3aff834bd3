/**
 The converse of bounded staleness: in every state in which the key is not gone, a run exists in which a get that
 starts arbitrarily late still returns a value for which the loader was called before. Together with `Staleness`
 this says exactly when a removal takes effect.
 */
module StaleRuns {
  import opened Wrappers
  import opened VNodes
  import opened Routing
  import opened NodeState
  import opened Cluster
  import opened Structure
  import opened Answers
  import opened Ownership
  import opened Staleness

  lemma FixedIsFair<T>(sch: Scheme<T>, acts: seq<Action<T>>)
    requires TablesFixed(acts)
    ensures forall act | act in acts :: Fair(sch, act)
  {
  }

  lemma ReplacingIsFair<T>(sch: Scheme<T>, n: Peer, table: Table<T>)
    requires OnOwnRing(sch, n, table)
    ensures Fair(sch, ReplaceTable(n, table))
  {
  }

  /** What is known of every state reached from start-up with unchanged tables. */
  lemma StartUpLeadsTo<T(!new)>(cfg: Config<T>, s0: State<T>, acts: seq<Action<T>>, s: State<T>)
    requires Sound(cfg.sch) && Init(s0) && Runs(cfg, s0, acts, s) && TablesFixed(acts)
    requires forall n | n in s0.nodes :: OnOwnRing(cfg.sch, n, s0.nodes[n].table)
    ensures Inv(cfg.sch, s) && Coherent(s) && Placed(cfg.sch, s) && ClocksOk(s)
    ensures s.nodes.Keys == s0.nodes.Keys && forall n | n in s0.nodes :: s.nodes[n].table == s0.nodes[n].table
  {
    hide Runs, OnOwnRing, Inv, Coherent, Placed, ClocksOk;
    StartUpIsCoherent(cfg.sch, s0);
    StartUpIsPlaced(cfg.sch, s0);
    StartUpClocks(s0);
    FixedIsFair(cfg.sch, acts);
    RunsStayPlaced(cfg, s0, acts, s);
    RunsKeepClocks(cfg, s0, acts, s);
    RunsAreCoherent(cfg, s0, acts, s);
  }

  // ------------------------------------------------------- a late get on node n

  ghost predicate SameButCounters<T>(n: Node<T>, n': Node<T>) {
    n'.table == n.table && n'.main == n.main && n'.hot == n.hot && n'.flights == n.flights
  }

  /** `cur` is `s` with one more task, a get on node `n` called `wait` later, which is in `phase`. */
  ghost predicate LateGet<T>(wait: nat, s: State<T>, cur: State<T>, n: Peer, key: string, phase: Phase) {
    && cur.clock == s.clock + wait && cur.nodes.Keys == s.nodes.Keys
    && (forall m | m in s.nodes :: SameButCounters(s.nodes[m], cur.nodes[m]))
    && |cur.tasks| == |s.tasks| + 1 && cur.tasks[..|s.tasks|] == s.tasks
    && var a := cur.tasks[|s.tasks|];
    && a.op.Get? && a.node == n && a.key == key && a.origin.Caller? && a.clock == cur.clock && a.phase == phase
    && (phase.Following? ==> a.joined == Some(phase.leader))
  }

  lemma LateCall<T>(cfg: Config<T>, wait: nat, s: State<T>, n: Peer, key: string)
    returns (acts: seq<Action<T>>, cur: State<T>)
    requires n in s.nodes
    ensures Runs(cfg, s, acts, cur) && TablesFixed(acts) && LateGet(wait, s, cur, n, key, Fresh)
  {
    var waited := Apply(cfg, s, Wait(wait));
    cur := Apply(cfg, waited, Call(Get, n, key));
    NothingRuns(cfg, s);
    RunsThenOne(cfg, s, [], s, Wait(wait));
    RunsThenOne(cfg, s, [] + [Wait(wait)], waited, Call(Get, n, key));
    acts := [] + [Wait(wait)] + [Call(Get, n, key)];
  }

  lemma LateStep<T>(cfg: Config<T>, wait: nat, s: State<T>, acts: seq<Action<T>>, cur: State<T>, n: Peer, key: string,
                    phase: Phase, next: Phase)
    returns (acts': seq<Action<T>>, cur': State<T>)
    requires n in s.nodes && Runs(cfg, s, acts, cur) && TablesFixed(acts) && LateGet(wait, s, cur, n, key, phase)
    requires match phase
             case Fresh => if key in s.nodes[n].main then next == Finished(Ok(s.nodes[n].main[key].val))
               else next == MissedMain
             case MissedMain => s.nodes[n].HotGet(key, s.clock + wait, cfg.ttl).None? && next == Unrouted
             case Unrouted =>
               var r := LookupPeer(cfg.sch, s.nodes[n].table, key);
               r.Found? && next == Routed(r.peer, r.client)
             case Routed(_, _) => key in s.nodes[n].flights && next == Following(s.nodes[n].flights[key])
             case _ => false
    ensures Runs(cfg, s, acts', cur') && TablesFixed(acts') && LateGet(wait, s, cur', n, key, next)
  {
    hide LookupPeer, Runs;
    var j := |s.tasks|;
    assert SameButCounters(s.nodes[n], cur.nodes[n]);
    acts', cur' := acts + [Step(j)], Apply(cfg, cur, Step(j));
    RunsThenOne(cfg, s, acts, cur, Step(j));
    assert cur'.tasks[..j] == cur.tasks[..j];
  }

  /** A get called late on the node of a running flight can miss both caches and join the flight. */
  lemma LateGetJoins<T(!new)>(cfg: Config<T>, wait: nat, s: State<T>, key: string, t: nat)
    returns (acts: seq<Action<T>>, cur: State<T>)
    requires Sound(cfg.sch) && Inv(cfg.sch, s) && ClocksOk(s) && wait >= cfg.ttl
    requires t < |s.tasks| && InFlight(s.tasks[t]) && s.tasks[t].key == key
    requires s.tasks[t].node in s.nodes && key !in s.nodes[s.tasks[t].node].main
    ensures Runs(cfg, s, acts, cur) && TablesFixed(acts) && LateGet(wait, s, cur, s.tasks[t].node, key, Following(t))
  {
    hide LookupPeer, LateGet, Runs, OnOwnRing;
    var n := s.tasks[t].node;
    assert TaskOk(cfg.sch, s, t);
    RouteDescends(cfg.sch, n, s.nodes[n].table, key);
    var r := LookupPeer(cfg.sch, s.nodes[n].table, key);
    acts, cur := LateCall(cfg, wait, s, n, key);
    acts, cur := LateStep(cfg, wait, s, acts, cur, n, key, Fresh, MissedMain);
    acts, cur := LateStep(cfg, wait, s, acts, cur, n, key, MissedMain, Unrouted);
    acts, cur := LateStep(cfg, wait, s, acts, cur, n, key, Unrouted, Routed(r.peer, r.client));
    acts, cur := LateStep(cfg, wait, s, acts, cur, n, key, Routed(r.peer, r.client), Following(t));
  }

  // ------------------------------------------------- the flight comes to its end

  predicate HasOld(tasks: seq<Task>, i: nat, before: nat) {
    HasValue(tasks, i) && tasks[i].phase.answer.val.called < before
  }

  predicate AnswersOld(tasks: seq<Task>, c: nat, before: nat) {
    || HasOld(tasks, c, before)
    || (c < |tasks| && tasks[c].phase.Following? && HasOld(tasks, tasks[c].phase.leader, before))
  }

  /** The flight carries a value for which the loader was called earlier than `before`. */
  predicate CarriesOld(tasks: seq<Task>, t: nat, before: nat) {
    && t < |tasks| && InFlight(tasks[t])
    && match tasks[t].phase
       case LoadingOwn(called) => called < before
       case LoadingFallback(called) => called < before
       case FillingMain(v) => v.called < before
       case FillingHot(v) => v.called < before
       case Closing(Ok(v)) => v.called < before
       case Awaiting => tasks[t].child.Some? && AnswersOld(tasks, tasks[t].child.value, before)
       case _ => false
  }

  /** All that is carried now is old. */
  lemma CarriedIsOld<T>(sch: Scheme<T>, s: State<T>, t: nat)
    requires Inv(sch, s) && Coherent(s) && ClocksOk(s) && CarriesValue(s.tasks, t)
    ensures CarriesOld(s.tasks, t, s.now)
  {
    hide Inv, CachesOk;
    assert HeldOk(s.loads, t, s.tasks[t]);
    if s.tasks[t].phase.Awaiting? {
      OneTaskIsOk(sch, s, t);
      var c := s.tasks[t].child.value;
      assert HeldOk(s.loads, c, s.tasks[c]);
      if s.tasks[c].phase.Following? {
        var l := s.tasks[c].phase.leader;
        assert l < |s.tasks| && HeldOk(s.loads, l, s.tasks[l]);
      }
    }
  }

  /** How many steps the value is away from the end of the flight. */
  function StepsToLand(tasks: seq<Task>, t: nat): nat
    requires t < |tasks|
  {
    if tasks[t].phase.Closing? then 1
    else if tasks[t].phase.FillingMain? || tasks[t].phase.FillingHot? then 2
    else if Loading(tasks[t]) then 3
    else if tasks[t].child.Some? && Done(tasks, tasks[t].child.value) then 3
    else 4
  }

  /** What has to happen for the value to come nearer. */
  function NextAct<T>(tasks: seq<Task>, t: nat): Action<T>
    requires t < |tasks|
  {
    if Loading(tasks[t]) then LoadReturns(t, Some(""))
    else if tasks[t].phase.Awaiting? && tasks[t].child.Some? && !Done(tasks, tasks[t].child.value) then
      Step(tasks[t].child.value)
    else Step(t)
  }

  lemma OneActNearer<T>(cfg: Config<T>, s: State<T>, t: nat, before: nat)
    requires Inv(cfg.sch, s) && CarriesOld(s.tasks, t, before)
    ensures Enabled(s, NextAct(s.tasks, t))
    ensures var s' := Apply(cfg, s, NextAct(s.tasks, t));
            && (|| HasOld(s'.tasks, t, before)
                || (CarriesOld(s'.tasks, t, before) && StepsToLand(s'.tasks, t) < StepsToLand(s.tasks, t)))
            && |s'.tasks| == |s.tasks| && s'.tasks[t].child == s.tasks[t].child
            && forall i: nat | i < |s.tasks| && i != t && s.tasks[t].child != Some(i) :: s'.tasks[i] == s.tasks[i]
  {
    hide Inv, LookupPeer, Nearer;
    OneTaskIsOk(cfg.sch, s, t);
    if s.tasks[t].phase.Awaiting? {
      OneTaskIsOk(cfg.sch, s, s.tasks[t].child.value);
    }
  }

  lemma {:induction false} FlightLands<T(!new)>(cfg: Config<T>, s: State<T>, acts: seq<Action<T>>, cur: State<T>,
                                                t: nat, before: nat)
    returns (acts': seq<Action<T>>, cur': State<T>)
    requires Sound(cfg.sch) && Inv(cfg.sch, cur) && CarriesOld(cur.tasks, t, before) && Runs(cfg, s, acts, cur)
    requires TablesFixed(acts)
    ensures Runs(cfg, s, acts', cur') && TablesFixed(acts') && Inv(cfg.sch, cur')
    ensures HasOld(cur'.tasks, t, before) && |cur'.tasks| == |cur.tasks|
    ensures forall i: nat | i < |cur.tasks| && i != t && cur.tasks[t].child != Some(i) :: cur'.tasks[i] == cur.tasks[i]
    decreases if t < |cur.tasks| then StepsToLand(cur.tasks, t) else 0
  {
    hide Inv, Runs, Apply, CarriesOld, HasOld, StepsToLand;
    assert t < |cur.tasks| by { CarrierExists(cur.tasks, t, before); }
    var act: Action<T> := NextAct(cur.tasks, t);
    OneActNearer(cfg, cur, t, before);
    var next := Apply(cfg, cur, act);
    RunsThenOne(cfg, s, acts, cur, act);
    ActionKeepsInv(cfg, cur, act);
    if HasOld(next.tasks, t, before) {
      acts', cur' := acts + [act], next;
    } else {
      acts', cur' := FlightLands(cfg, s, acts + [act], next, t, before);
    }
  }

  lemma CarrierExists(tasks: seq<Task>, t: nat, before: nat)
    requires CarriesOld(tasks, t, before)
    ensures t < |tasks| && InFlight(tasks[t])
  {
  }

  // ---------------------------------------------------------- old values, late

  /** Get `i` of the key, called on node `n` at least `delay` after `s`, returns `v`. */
  ghost predicate LateAnswer<T>(cfg: Config<T>, s: State<T>, acts: seq<Action<T>>, final: State<T>, i: nat,
                                n: Peer, key: string, delay: nat, v: Val) {
    && Runs(cfg, s, acts, final) && TablesFixed(acts)
    && |s.tasks| <= i < |final.tasks|
    && var a := final.tasks[i];
    && a.op.Get? && a.node == n && a.key == key && a.clock >= s.clock + delay && a.phase == Finished(Ok(v))
  }

  /**
   A get of the key called at least `delay` after `s` may still return a value for which the loader was called
   before `s`.
   */
  ghost predicate MayServeOld<T(!new)>(cfg: Config<T>, s: State<T>, key: string, delay: nat) {
    exists acts, final, i, n, v :: LateAnswer(cfg, s, acts, final, i, n, key, delay, v) && v.called < s.now
  }

  lemma CachedValueIsOld<T>(s: State<T>, n: Peer, key: string)
    requires Coherent(s) && ClocksOk(s) && n in s.nodes
    ensures key in s.nodes[n].main ==> s.nodes[n].main[key].val.called < s.now
    ensures key in s.nodes[n].hot ==> s.nodes[n].hot[key].val.called < s.now
  {
    assert CachesOk(s.loads, s.nodes[n]);
  }

  /** A value in the main cache of any node, be it a former owner, is served there at any later time. */
  lemma CachedKeyIsServed<T>(cfg: Config<T>, s: State<T>, key: string, n: Peer, delay: nat)
    returns (acts: seq<Action<T>>, final: State<T>)
    requires n in s.nodes && key in s.nodes[n].main
    ensures LateAnswer(cfg, s, acts, final, |s.tasks|, n, key, delay, s.nodes[n].main[key].val)
  {
    hide Runs, LateGet, LateAnswer;
    var v := s.nodes[n].main[key].val;
    acts, final := LateCall(cfg, delay, s, n, key);
    acts, final := LateStep(cfg, delay, s, acts, final, n, key, Fresh, Finished(Ok(v)));
    ServedLate(cfg, s, key, n, acts, final, delay, v);
  }

  lemma ServedLate<T>(cfg: Config<T>, s: State<T>, key: string, n: Peer, acts: seq<Action<T>>, final: State<T>,
                      delay: nat, v: Val)
    requires Runs(cfg, s, acts, final) && TablesFixed(acts) && LateGet(delay, s, final, n, key, Finished(Ok(v)))
    ensures LateAnswer(cfg, s, acts, final, |s.tasks|, n, key, delay, v)
  {
    hide Runs;
  }

  /** A running flight hands the value that it carries to gets on its node that join it at any later time. */
  lemma CarriedValueIsServed<T(!new)>(cfg: Config<T>, s: State<T>, key: string, t: nat, before: nat, delay: nat)
    returns (acts: seq<Action<T>>, final: State<T>, v: Val)
    requires Sound(cfg.sch) && Inv(cfg.sch, s) && ClocksOk(s)
    requires CarriesOld(s.tasks, t, before) && s.tasks[t].key == key
    requires s.tasks[t].node in s.nodes && key !in s.nodes[s.tasks[t].node].main
    ensures LateAnswer(cfg, s, acts, final, |s.tasks|, s.tasks[t].node, key, delay, v) && v.called < before
    ensures t < |final.tasks| && final.tasks[t].phase == Finished(Ok(v)) && final.tasks[|s.tasks|].joined == Some(t)
  {
    hide Inv, ClocksOk, Runs, Apply, AnswersOld, OnOwnRing;
    var cur;
    var wait := delay + cfg.ttl;
    acts, cur := LateGetJoins(cfg, wait, s, key, t);
    FixedIsFair(cfg.sch, acts);
    RunsKeepInv(cfg, s, acts, cur);
    StillCarries(wait, s, cur, t, key, before);
    var landed;
    acts, landed := FlightLands(cfg, s, acts, cur, t, before);
    var j := |s.tasks|;
    JoinerIsNoChild(cfg, wait, s, cur, t, key);
    assert landed.tasks[j] == cur.tasks[j];
    JoinerGetsAnswer(cfg, landed, t, j);
    RunsThenOne(cfg, s, acts, landed, Step(j));
    acts, final := acts + [Step(j)], Apply(cfg, landed, Step(j));
    v := landed.tasks[t].phase.answer.val;
  }

  lemma StillCarries<T>(wait: nat, s: State<T>, cur: State<T>, t: nat, key: string, before: nat)
    requires CarriesOld(s.tasks, t, before) && LateGet(wait, s, cur, s.tasks[t].node, key, Following(t))
    ensures CarriesOld(cur.tasks, t, before)
  {
    assert forall i: nat | i < |s.tasks| :: cur.tasks[i] == cur.tasks[..|s.tasks|][i];
  }

  lemma JoinerIsNoChild<T>(cfg: Config<T>, wait: nat, s: State<T>, cur: State<T>, t: nat, key: string)
    requires t < |s.tasks| && LateGet(wait, s, cur, s.tasks[t].node, key, Following(t)) && Inv(cfg.sch, cur)
    ensures cur.tasks[t].child != Some(|s.tasks|)
  {
    hide OnOwnRing, PhaseOk, FlightOk;
    assert TaskOk(cfg.sch, cur, t);
  }

  lemma JoinerGetsAnswer<T>(cfg: Config<T>, s: State<T>, t: nat, j: nat)
    requires Inv(cfg.sch, s) && HasValue(s.tasks, t) && j < |s.tasks| && s.tasks[j].op.Get?
    requires s.tasks[j].phase == Following(t)
    ensures CanStep(s, j)
    ensures var s' := Apply(cfg, s, Step(j));
            && |s'.tasks| == |s.tasks| && s'.tasks[j] == s.tasks[j].(phase := s.tasks[t].phase)
            && s'.tasks[t] == s.tasks[t]
  {
    hide OnOwnRing, LookupPeer, Nearer, FlightOk;
    assert TaskOk(cfg.sch, s, j);
  }

  /** A run that leads to a flight with an old value can be continued to a late get that returns it. */
  lemma BroughtIsServed<T(!new)>(cfg: Config<T>, s: State<T>, key: string, acts: seq<Action<T>>, cur: State<T>, t: nat,
                                 delay: nat)
    requires Sound(cfg.sch) && Runs(cfg, s, acts, cur) && TablesFixed(acts) && Inv(cfg.sch, cur) && ClocksOk(cur)
    requires cur.clock >= s.clock && |cur.tasks| >= |s.tasks|
    requires CarriesOld(cur.tasks, t, s.now) && cur.tasks[t].key == key
    requires cur.tasks[t].node in cur.nodes && key !in cur.nodes[cur.tasks[t].node].main
    ensures MayServeOld(cfg, s, key, delay)
  {
    hide Inv, ClocksOk, Runs, HasOld;
    var more, final, v := CarriedValueIsServed(cfg, cur, key, t, s.now, delay);
    RunsThenMore(cfg, s, acts, cur, more, final);
    assert LateAnswer(cfg, s, acts + more, final, |cur.tasks|, cur.tasks[t].node, key, delay, v);
  }

  lemma GoneMeansNotServed<T(!new)>(cfg: Config<T>, s: State<T>, key: string, owner: Peer)
    requires Sound(cfg.sch) && Inv(cfg.sch, s) && ClocksOk(s) && AllRouteTo(cfg.sch, s, key, owner)
    requires Gone(cfg, s, key, owner)
    ensures !MayServeOld(cfg, s, key, cfg.ttl)
  {
    hide Inv, ClocksOk, AllRouteTo, Gone, Runs;
    forall acts, final, i: nat, n, v | LateAnswer(cfg, s, acts, final, i, n, key, cfg.ttl, v)
      ensures v.called >= s.now
    {
      StalenessIsBounded(cfg, s, acts, final, key, owner, i);
    }
  }

  lemma NotDroppedMeansOld<T(!new)>(cfg: Config<T>, s: State<T>, key: string, owner: Peer, delay: nat)
    requires Sound(cfg.sch) && Inv(cfg.sch, s) && Coherent(s) && Placed(cfg.sch, s) && ClocksOk(s)
    requires AllRouteTo(cfg.sch, s, key, owner) && !Dropped(s, key, owner)
    ensures MayServeOld(cfg, s, key, delay)
  {
    hide Inv, Coherent, Placed, ClocksOk, AllRouteTo, CarriesValue, RoutesTo, LateAnswer;
    if owner in s.nodes && key in s.nodes[owner].main {
      CachedValueIsOld(s, owner, key);
      var acts, final := CachedKeyIsServed(cfg, s, key, owner, delay);
    } else {
      var t: nat :| t < |s.tasks| && s.tasks[t].key == key && CarriesValue(s.tasks, t);
      OwnNodeLacksKey(cfg.sch, s, key, owner, t);
      CarriedIsOld(cfg.sch, s, t);
      var acts, final, v := CarriedValueIsServed(cfg, s, key, t, s.now, delay);
    }
  }

  /**
   Where tables did not change before either: no get that starts a time to live later returns an old value if and
   only if the owner has dropped the key and no flight carries a value for it; otherwise some get does however late
   it starts.
   */
  lemma DroppedExactly<T(!new)>(cfg: Config<T>, s: State<T>, key: string, owner: Peer)
    requires Sound(cfg.sch) && Inv(cfg.sch, s) && Coherent(s) && Placed(cfg.sch, s) && ClocksOk(s)
    requires AllRouteTo(cfg.sch, s, key, owner)
    ensures Dropped(s, key, owner) <==> !MayServeOld(cfg, s, key, cfg.ttl)
    ensures !Dropped(s, key, owner) ==> forall delay: nat :: MayServeOld(cfg, s, key, delay)
  {
    hide Inv, Coherent, Placed, ClocksOk, AllRouteTo, Dropped, Gone, MayServeOld;
    if Dropped(s, key, owner) {
      PlacedAndDroppedMeansGone(cfg, s, key, owner);
      GoneMeansNotServed(cfg, s, key, owner);
    } else {
      forall delay: nat ensures MayServeOld(cfg, s, key, delay) {
        NotDroppedMeansOld(cfg, s, key, owner, delay);
      }
    }
  }

  lemma OwnNodeLacksKey<T>(sch: Scheme<T>, s: State<T>, key: string, owner: Peer, t: nat)
    requires Inv(sch, s) && Placed(sch, s) && AllRouteTo(sch, s, key, owner) && t < |s.tasks|
    requires owner in s.nodes ==> key !in s.nodes[owner].main
    ensures s.tasks[t].node in s.nodes && key !in s.nodes[s.tasks[t].node].main
  {
    hide Inv, Placed, AllRouteTo;
    OneTaskIsOk(sch, s, t);
    OneMainCachePerKey(sch, s, key, owner, s.tasks[t].node);
  }
}
