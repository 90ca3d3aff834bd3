/**
 The steps of `Cluster` make up the calls of `Serving`: a task that moves while nothing else does leaves on its
 node, and answers, what the function for the whole call says. So the methods of the node object and the step
 machine describe one program.
 */
module Alone {
  import opened Wrappers
  import opened VNodes
  import opened Routing
  import opened NodeState
  import opened Cluster
  import opened Structure
  import opened Ownership
  import Serving

  /** Since `s` only task `t` has moved; it is in `phase`, its node is `n`, and the loads are `loads`. */
  ghost predicate AloneAt<T>(s: State<T>, cur: State<T>, t: nat, n: Node<T>, phase: Phase, loads: seq<Load>, now: nat) {
    && t < |s.tasks| && |cur.tasks| == |s.tasks| && s.tasks[t].node in s.nodes
    && cur.nodes == s.nodes[s.tasks[t].node := n] && cur.loads == loads && cur.now == now && cur.clock == s.clock
    && (forall i: nat | i < |s.tasks| && i != t :: cur.tasks[i] == s.tasks[i])
    && var a, b := s.tasks[t], cur.tasks[t];
    && b.op == a.op && b.node == a.node && b.key == a.key && b.origin == a.origin && b.child == a.child
    && b.started == a.started && b.clock == a.clock && b.phase == phase
  }

  lemma NobodyMovedYet<T>(cfg: Config<T>, s: State<T>, t: nat)
    requires t < |s.tasks| && s.tasks[t].node in s.nodes
    ensures Runs(cfg, s, [], s)
    ensures AloneAt(s, s, t, s.nodes[s.tasks[t].node], s.tasks[t].phase, s.loads, s.now)
  {
    assert s.nodes == s.nodes[s.tasks[t].node := s.nodes[s.tasks[t].node]];
  }

  lemma NextAlone<T>(cfg: Config<T>, s: State<T>, acts: seq<Action<T>>, cur: State<T>, t: nat, n: Node<T>, phase: Phase,
                     loads: seq<Load>, now: nat, act: Action<T>)
    returns (acts': seq<Action<T>>, cur': State<T>)
    requires Runs(cfg, s, acts, cur) && AloneAt(s, cur, t, n, phase, loads, now)
    requires Enabled(cur, act) && (act == Step(t) || act == RpcFails(t) || (act.LoadReturns? && act.t == t))
    ensures cur.nodes[cur.tasks[t].node] == n
    ensures acts' == acts + [act] && Runs(cfg, s, acts', cur') && (TablesFixed(acts) ==> TablesFixed(acts'))
    ensures var m := TaskMove(cfg, cur, act);
            AloneAt(s, cur', t, m.node, m.task.phase, m.loads, now + 1)
  {
    hide LookupPeer, Runs;
    acts', cur' := acts + [act], Apply(cfg, cur, act);
    RunsThenOne(cfg, s, acts, cur, act);
    MoveKeepsTask(cfg, cur, act);
    assert cur'.nodes == s.nodes[s.tasks[t].node := cur'.nodes[s.tasks[t].node]];
  }

  lemma MoveKeepsTask<T>(cfg: Config<T>, s: State<T>, act: Action<T>)
    requires Enabled(s, act) && (act.Step? || act.RpcFails? || act.LoadReturns?)
    ensures var m, a := TaskMove(cfg, s, act), s.tasks[act.t];
            && m.started == []
            && m.task.op == a.op && m.task.node == a.node && m.task.key == a.key && m.task.origin == a.origin
            && m.task.child == a.child
            && m.task.started == a.started && m.task.clock == a.clock
  {
    hide LookupPeer;
  }

  lemma AtPhase<T>(s: State<T>, cur: State<T>, t: nat, n: Node<T>, phase: Phase, loads: seq<Load>, now: nat)
    requires AloneAt(s, cur, t, n, phase, loads, now)
    ensures t < |cur.tasks| && t < |s.tasks| && s.tasks[t].node in s.nodes && s.tasks[t].node in cur.nodes
    ensures var a, b := s.tasks[t], cur.tasks[t];
            && b.op == a.op && b.node == a.node && b.key == a.key && b.origin == a.origin && b.phase == phase
            && cur.nodes[a.node] == n && cur.loads == loads && cur.now == now && cur.clock == s.clock
  {
  }

  lemma AtTime<T>(s: State<T>, cur: State<T>, t: nat)
    ensures forall n: Node<T>, phase, loads, now | AloneAt(s, cur, t, n, phase, loads, now) ::
          cur.loads == loads && cur.now == now
  {
  }

  /** The node when the request counter of the server side has been bumped, if it is to be. */
  function Received<T>(n: Node<T>, origin: Origin): Node<T> {
    n.(c := n.c.(serverGets := n.c.serverGets + if origin.Request? then 1 else 0))
  }

  /** A get at its start, and the environment it will meet if nothing else moves. */
  ghost predicate Starts<T>(s: State<T>, t: nat, op: Op, env: Serving.Env) {
    && t < |s.tasks| && s.tasks[t].node in s.nodes && s.tasks[t].op == op && s.tasks[t].phase.Fresh?
    && env.clock == s.clock && env.task == t && env.loadId == |s.loads|
  }

  lemma ProbesAlone<T>(cfg: Config<T>, s: State<T>, t: nat, env: Serving.Env)
    returns (acts: seq<Action<T>>, cur: State<T>)
    requires Starts(s, t, Get, env)
    ensures Runs(cfg, s, acts, cur) && TablesFixed(acts)
    ensures var a := s.tasks[t];
            var n0 := s.nodes[a.node];
            var n1 := Received(n0, a.origin).CountGet(false);
            var cached := Serving.Cached(n0, a.key, env.clock, cfg.ttl);
            var answer := Serving.Get(cfg.sch, a.node, cfg.ttl, Received(n0, a.origin), a.key, env);
            if cached then AloneAt(s, cur, t, answer.0, Finished(answer.1), s.loads, cur.now)
            else AloneAt(s, cur, t, n1, Unrouted, s.loads, s.now + 2)
  {
    hide LookupPeer, Runs, Serving.GetOrJoin, AloneAt;
    var a := s.tasks[t];
    var n0 := s.nodes[a.node];
    NobodyMovedYet(cfg, s, t);
    acts, cur := NextAlone(cfg, s, [], s, t, n0, Fresh, s.loads, s.now, Step(t));
    var n1 := Received(n0, a.origin).CountGet(false);
    if n0.MainGet(a.key).None? {
      AtPhase(s, cur, t, n1, MissedMain, s.loads, s.now + 1);
      acts, cur := NextAlone(cfg, s, acts, cur, t, n1, MissedMain, s.loads, s.now + 1, Step(t));
    }
    if Serving.Cached(n0, a.key, env.clock, cfg.ttl) {
      AtTime(s, cur, t);
    }
  }

  /** The get is not answered by a cache, and the lookup finds an owner. */
  ghost predicate Routable<T>(cfg: Config<T>, n: Node<T>, key: string, env: Serving.Env) {
    !Serving.Cached(n, key, env.clock, cfg.ttl) && LookupPeer(cfg.sch, n.table, key).Found?
  }

  lemma RoutesAlone<T>(cfg: Config<T>, s: State<T>, t: nat, env: Serving.Env)
    returns (acts: seq<Action<T>>, cur: State<T>)
    requires Starts(s, t, Get, env)
    ensures Runs(cfg, s, acts, cur) && TablesFixed(acts)
    ensures var a := s.tasks[t];
            var n0 := Received(s.nodes[a.node], a.origin);
            var answer := Serving.Get(cfg.sch, a.node, cfg.ttl, n0, a.key, env);
            var route := LookupPeer(cfg.sch, n0.table, a.key);
            if Routable(cfg, n0, a.key, env)
            then AloneAt(s, cur, t, n0.CountGet(false), Routed(route.peer, route.client), s.loads, s.now + 3)
            else AloneAt(s, cur, t, answer.0, Finished(answer.1), s.loads, cur.now)
  {
    hide LookupPeer, Runs, AloneAt, Serving.GetOrJoin;
    var a := s.tasks[t];
    var n1 := Received(s.nodes[a.node], a.origin).CountGet(false);
    acts, cur := ProbesAlone(cfg, s, t, env);
    if !Serving.Cached(s.nodes[a.node], a.key, env.clock, cfg.ttl) {
      AtPhase(s, cur, t, n1, Unrouted, s.loads, s.now + 2);
      acts, cur := NextAlone(cfg, s, acts, cur, t, n1, Unrouted, s.loads, s.now + 2, Step(t));
      AtTime(s, cur, t);
    }
  }

  /** A get that joins a flight waits for it, and leaves its node as the function for the whole call says. */
  lemma JoinAlone<T>(cfg: Config<T>, s: State<T>, t: nat, env: Serving.Env)
    returns (acts: seq<Action<T>>, cur: State<T>)
    requires Starts(s, t, Get, env) && s.tasks[t].key in s.nodes[s.tasks[t].node].flights
    requires Routable(cfg, s.nodes[s.tasks[t].node], s.tasks[t].key, env)
    ensures Runs(cfg, s, acts, cur) && TablesFixed(acts)
    ensures var a := s.tasks[t];
            var n0 := Received(s.nodes[a.node], a.origin);
            AloneAt(s, cur, t, Serving.Get(cfg.sch, a.node, cfg.ttl, n0, a.key, env).0, Following(n0.flights[a.key]),
                    s.loads, s.now + 4)
  {
    hide LookupPeer, Runs, AloneAt, Serving.GetDeduped;
    var a := s.tasks[t];
    var n1 := Received(s.nodes[a.node], a.origin).CountGet(false);
    acts, cur := RoutesAlone(cfg, s, t, env);
    var route := LookupPeer(cfg.sch, n1.table, a.key);
    AtPhase(s, cur, t, n1, Routed(route.peer, route.client), s.loads, s.now + 3);
    acts, cur := NextAlone(cfg, s, acts, cur, t, n1, Routed(route.peer, route.client), s.loads, s.now + 3, Step(t));
  }

  /**
   A get that needs no reply, whether because it is cached, the node owns the key, has no client, or its request
   fails.
   */
  lemma GetAlone<T>(cfg: Config<T>, s: State<T>, t: nat, env: Serving.Env)
    returns (acts: seq<Action<T>>, cur: State<T>)
    requires Starts(s, t, Get, env) && env.filledAt == s.now + 6
    requires s.tasks[t].key !in s.nodes[s.tasks[t].node].flights && env.reply.None?
    requires var a := s.tasks[t];
             env.calledAt == s.now + if RoutesTo(cfg.sch, s.nodes[a.node].table, a.key, a.node) then 4 else 6
    ensures Runs(cfg, s, acts, cur) && TablesFixed(acts)
    ensures var a := s.tasks[t];
            var answer := Serving.Get(cfg.sch, a.node, cfg.ttl, Received(s.nodes[a.node], a.origin), a.key, env);
            AloneAt(s, cur, t, answer.0, Finished(answer.1), cur.loads, cur.now)
  {
    hide LookupPeer, Runs, AloneAt, Serving.GetDeduped;
    var a := s.tasks[t];
    var n1 := Received(s.nodes[a.node], a.origin).CountGet(false);
    acts, cur := RoutesAlone(cfg, s, t, env);
    AtTime(s, cur, t);
    if Routable(cfg, s.nodes[a.node], a.key, env) {
      var route := LookupPeer(cfg.sch, n1.table, a.key);
      AtPhase(s, cur, t, n1, Routed(route.peer, route.client), s.loads, s.now + 3);
      acts, cur := NextAlone(cfg, s, acts, cur, t, n1, Routed(route.peer, route.client), s.loads, s.now + 3, Step(t));
      acts, cur := ClosureAlone(cfg, s, acts, cur, t, n1.OpenFlight(a.key, t), route.peer, route.client, env);
    }
  }

  /** A get whose request goes out, up to that point. */
  lemma RequestAlone<T>(cfg: Config<T>, s: State<T>, t: nat, env: Serving.Env)
    returns (acts: seq<Action<T>>, cur: State<T>)
    requires Starts(s, t, Get, env) && s.tasks[t].key !in s.nodes[s.tasks[t].node].flights
    requires Forwards(cfg, s.tasks[t].node, s.nodes[s.tasks[t].node], s.tasks[t].key, env)
    ensures Runs(cfg, s, acts, cur) && TablesFixed(acts)
    ensures var a := s.tasks[t];
            var n0 := Received(s.nodes[a.node], a.origin);
            AloneAt(s, cur, t, WhileForwarding(n0, a.key, t),
                    Requesting(LookupPeer(cfg.sch, n0.table, a.key).client.value.target), s.loads, s.now + 5)
  {
    hide LookupPeer, Runs, AloneAt;
    var a := s.tasks[t];
    var n1 := Received(s.nodes[a.node], a.origin).CountGet(false);
    acts, cur := RoutesAlone(cfg, s, t, env);
    var route := LookupPeer(cfg.sch, n1.table, a.key);
    AtPhase(s, cur, t, n1, Routed(route.peer, route.client), s.loads, s.now + 3);
    acts, cur := NextAlone(cfg, s, acts, cur, t, n1, Routed(route.peer, route.client), s.loads, s.now + 3, Step(t));
    var n2 := n1.OpenFlight(a.key, t);
    AtPhase(s, cur, t, n2, Leading(route.peer, route.client), s.loads, s.now + 4);
    acts, cur := NextAlone(cfg, s, acts, cur, t, n2, Leading(route.peer, route.client), s.loads, s.now + 4, Step(t));
  }

  ghost predicate Forwards<T>(cfg: Config<T>, me: Peer, n: Node<T>, key: string, env: Serving.Env) {
    var route := LookupPeer(cfg.sch, n.table, key);
    Routable(cfg, n, key, env) && route.peer != me && route.client.Some?
  }

  /** Node `n` while the request of a get that task `t` leads is outstanding. */
  function WhileForwarding<T>(n: Node<T>, key: string, t: nat): Node<T> {
    n.CountGet(false).OpenFlight(key, t).CountRemoteLoad()
  }

  /** Once a good reply has come, the rest of such a get. `n` is its node as it was at the start. */
  lemma ReplyAlone<T>(cfg: Config<T>, s: State<T>, t: nat, n: Node<T>, env: Serving.Env)
    returns (acts: seq<Action<T>>, cur: State<T>)
    requires CanStep(s, t) && s.tasks[t].op.Get? && s.tasks[t].phase.Awaiting? && env.task == t
    requires env.reply.Some? && s.tasks[s.tasks[t].child.value].phase.answer == Ok(env.reply.value)
    requires env.filledAt == s.now + 1 && env.filledClock == s.clock && s.tasks[t].key !in n.flights
    requires Forwards(cfg, s.tasks[t].node, n, s.tasks[t].key, env)
    requires s.nodes[s.tasks[t].node] == WhileForwarding(n, s.tasks[t].key, t)
    ensures Runs(cfg, s, acts, cur) && TablesFixed(acts)
    ensures var a := s.tasks[t];
            var answer := Serving.Get(cfg.sch, a.node, cfg.ttl, n, a.key, env);
            AloneAt(s, cur, t, answer.0, Finished(answer.1), cur.loads, cur.now)
  {
    hide LookupPeer, Runs, AloneAt;
    var a, v := s.tasks[t], env.reply.value;
    var n1 := WhileForwarding(n, a.key, t);
    NobodyMovedYet(cfg, s, t);
    acts, cur := NextAlone(cfg, s, [], s, t, n1, Awaiting, s.loads, s.now, Step(t));
    AtPhase(s, cur, t, n1, FillingHot(v), s.loads, s.now + 1);
    acts, cur := NextAlone(cfg, s, acts, cur, t, n1, FillingHot(v), s.loads, s.now + 1, Step(t));
    acts, cur := CloseAlone(cfg, s, acts, cur, t, n1.FillHot(a.key, v, s.now + 1, s.clock), Ok(v), s.loads, s.now + 2);
  }

  lemma ClosureAlone<T>(cfg: Config<T>, s: State<T>, acts: seq<Action<T>>, cur: State<T>, t: nat, n: Node<T>,
                        peer: Peer, client: Option<Client>, env: Serving.Env)
    returns (acts': seq<Action<T>>, cur': State<T>)
    requires env.filledAt == s.now + 6 && env.loadId == |s.loads| && env.reply.None?
    requires env.calledAt == s.now + if t < |s.tasks| && peer == s.tasks[t].node then 4 else 6
    requires Runs(cfg, s, acts, cur) && AloneAt(s, cur, t, n, Leading(peer, client), s.loads, s.now + 4)
    requires s.tasks[t].op.Get?
    ensures Runs(cfg, s, acts', cur') && (TablesFixed(acts) ==> TablesFixed(acts'))
    ensures var a := s.tasks[t];
            var answer := Serving.GetDeduped(a.node, n, a.key, peer, client, env);
            AloneAt(s, cur', t, answer.0.CloseFlight(a.key), Finished(answer.1), cur'.loads, cur'.now)
  {
    hide LookupPeer, Runs, AloneAt;
    acts', cur' := acts, cur;
    AtPhase(s, cur', t, n, Leading(peer, client), s.loads, s.now + 4);
    var a := s.tasks[t];
    acts', cur' := NextAlone(cfg, s, acts', cur', t, n, Leading(peer, client), s.loads, s.now + 4, Step(t));
    if peer == a.node {
      acts', cur' := LoadAlone(cfg, s, acts', cur', t, n.CountLocalLoad(), LoadingOwn(s.now + 4), s.now + 5, env);
    } else if client.None? {
      acts', cur' := CloseAlone(cfg, s, acts', cur', t, n.CountUnroutable(), Err(NoClient), s.loads, s.now + 5);
    } else {
      acts', cur' := FallbackAlone(cfg, s, acts', cur', t, n.CountRemoteLoad(), client.value.target, env);
    }
  }

  lemma FallbackAlone<T>(cfg: Config<T>, s: State<T>, acts: seq<Action<T>>, cur: State<T>, t: nat, n: Node<T>,
                         server: Peer, env: Serving.Env)
    returns (acts': seq<Action<T>>, cur': State<T>)
    requires Runs(cfg, s, acts, cur) && AloneAt(s, cur, t, n, Requesting(server), s.loads, s.now + 5)
    requires s.tasks[t].op.Get? && env.loadId == |s.loads| && env.calledAt == s.now + 6
    ensures Runs(cfg, s, acts', cur') && (TablesFixed(acts) ==> TablesFixed(acts'))
    ensures var answer := Serving.LoadLocally(n.CountRemoteLoadError(), env);
            AloneAt(s, cur', t, answer.0.CloseFlight(s.tasks[t].key), Finished(answer.1), cur'.loads, cur'.now)
  {
    hide LookupPeer, Runs, AloneAt;
    var n' := n.CountRemoteLoadError();
    AtPhase(s, cur, t, n, Requesting(server), s.loads, s.now + 5);
    acts', cur' := NextAlone(cfg, s, acts, cur, t, n, Requesting(server), s.loads, s.now + 5, RpcFails(t));
    AtPhase(s, cur', t, n', FallingBack, s.loads, s.now + 6);
    acts', cur' := NextAlone(cfg, s, acts', cur', t, n', FallingBack, s.loads, s.now + 6, Step(t));
    acts', cur' := LoadAlone(cfg, s, acts', cur', t, n'.CountLocalLoad(), LoadingFallback(s.now + 6), s.now + 7, env);
  }

  /** The loader returns, its value is cached if the node owns the key, and the flight is closed. */
  lemma LoadAlone<T>(cfg: Config<T>, s: State<T>, acts: seq<Action<T>>, cur: State<T>, t: nat, n: Node<T>, phase: Phase,
                     now: nat, env: Serving.Env)
    returns (acts': seq<Action<T>>, cur': State<T>)
    requires Runs(cfg, s, acts, cur) && AloneAt(s, cur, t, n, phase, s.loads, now) && s.tasks[t].op.Get?
    requires (phase.LoadingOwn? && env.filledAt == now + 1) || phase.LoadingFallback?
    requires env.loadId == |s.loads| && env.calledAt == phase.called
    ensures Runs(cfg, s, acts', cur') && (TablesFixed(acts) ==> TablesFixed(acts'))
    ensures var key := s.tasks[t].key;
            match env.load
            case None =>
              AloneAt(s, cur', t, n.CountLocalLoadError().CloseFlight(key), Finished(Err(LoaderFailed(env.loadId))),
                      cur'.loads, cur'.now)
            case Some(data) =>
              var v := Val(data, env.loadId, env.calledAt);
              var n' := if phase.LoadingOwn? then n.FillMain(key, v, env.filledAt) else n;
              AloneAt(s, cur', t, n'.CloseFlight(key), Finished(Ok(v)), cur'.loads, cur'.now)
  {
    hide LookupPeer, Runs, AloneAt;
    acts', cur' := acts, cur;
    AtPhase(s, cur', t, n, phase, s.loads, now);
    var a := s.tasks[t];
    var loads := s.loads + [Load(t, phase.called, a.node, a.key, env.load)];
    acts', cur' := NextAlone(cfg, s, acts', cur', t, n, phase, s.loads, now, LoadReturns(t, env.load));
    if env.load.None? {
      acts', cur' := CloseAlone(cfg, s, acts', cur', t, n.CountLocalLoadError(), Err(LoaderFailed(env.loadId)), loads,
                                now + 1);
      return;
    }
    var v := Val(env.load.value, env.loadId, env.calledAt);
    if phase.LoadingOwn? {
      AtPhase(s, cur', t, n, FillingMain(v), loads, now + 1);
      acts', cur' := NextAlone(cfg, s, acts', cur', t, n, FillingMain(v), loads, now + 1, Step(t));
      acts', cur' := CloseAlone(cfg, s, acts', cur', t, n.FillMain(a.key, v, now + 1), Ok(v), loads, now + 2);
    } else {
      acts', cur' := CloseAlone(cfg, s, acts', cur', t, n, Ok(v), loads, now + 1);
    }
  }

  lemma CloseAlone<T>(cfg: Config<T>, s: State<T>, acts: seq<Action<T>>, cur: State<T>, t: nat, n: Node<T>,
                      answer: Answer, loads: seq<Load>, now: nat)
    returns (acts': seq<Action<T>>, cur': State<T>)
    requires Runs(cfg, s, acts, cur) && AloneAt(s, cur, t, n, Closing(answer), loads, now) && s.tasks[t].op.Get?
    ensures Runs(cfg, s, acts', cur') && (TablesFixed(acts) ==> TablesFixed(acts'))
    ensures AloneAt(s, cur', t, n.CloseFlight(s.tasks[t].key), Finished(answer), cur'.loads, cur'.now)
  {
    hide LookupPeer, Runs, AloneAt;
    AtPhase(s, cur, t, n, Closing(answer), loads, now);
    acts', cur' := NextAlone(cfg, s, acts, cur, t, n, Closing(answer), loads, now, Step(t));
    AtPhase(s, cur', t, n.CloseFlight(s.tasks[t].key), Finished(answer), loads, now + 1);
  }

  /** A remove on the owner of the key, or one whose request cannot be sent or fails. */
  lemma RemoveAlone<T>(cfg: Config<T>, s: State<T>, t: nat, env: Serving.Env)
    returns (acts: seq<Action<T>>, cur: State<T>)
    requires Starts(s, t, Remove, env) && !env.removedRemotely
    ensures Runs(cfg, s, acts, cur) && TablesFixed(acts)
    ensures var a := s.tasks[t];
            var answer := Serving.Remove(cfg.sch, a.node, s.nodes[a.node], a.key, env);
            AloneAt(s, cur, t, answer.0, Finished(answer.1), s.loads, cur.now)
  {
    hide LookupPeer, Runs, AloneAt;
    var a := s.tasks[t];
    var n0 := s.nodes[a.node];
    var n1 := n0.ClearHot(a.key);
    NobodyMovedYet(cfg, s, t);
    acts, cur := NextAlone(cfg, s, [], s, t, n0, Fresh, s.loads, s.now, Step(t));
    AtPhase(s, cur, t, n1, Unrouted, s.loads, s.now + 1);
    acts, cur := NextAlone(cfg, s, acts, cur, t, n1, Unrouted, s.loads, s.now + 1, Step(t));
    AtTime(s, cur, t);
    var route := LookupPeer(cfg.sch, n1.table, a.key);
    if route.Found? {
      acts, cur := RoutedRemoveAlone(cfg, s, acts, cur, t, n1, route.peer, route.client);
    }
  }

  lemma RoutedRemoveAlone<T>(cfg: Config<T>, s: State<T>, acts: seq<Action<T>>, cur: State<T>, t: nat, n: Node<T>,
                             peer: Peer, client: Option<Client>)
    returns (acts': seq<Action<T>>, cur': State<T>)
    requires Runs(cfg, s, acts, cur) && AloneAt(s, cur, t, n, Routed(peer, client), s.loads, s.now + 2)
    requires s.tasks[t].op.Remove?
    ensures Runs(cfg, s, acts', cur') && (TablesFixed(acts) ==> TablesFixed(acts'))
    ensures var a := s.tasks[t];
            var own := peer == a.node;
            var answer := if own then Removed else if client.None? then Err(NoClient) else Err(RpcFailed);
            AloneAt(s, cur', t, if own then n.ClearMain(a.key) else n, Finished(answer), s.loads, cur'.now)
  {
    hide LookupPeer, Runs, AloneAt;
    AtPhase(s, cur, t, n, Routed(peer, client), s.loads, s.now + 2);
    acts', cur' := NextAlone(cfg, s, acts, cur, t, n, Routed(peer, client), s.loads, s.now + 2, Step(t));
    if peer != s.tasks[t].node && client.Some? {
      var server := client.value.target;
      AtPhase(s, cur', t, n, Requesting(server), s.loads, s.now + 3);
      acts', cur' := NextAlone(cfg, s, acts', cur', t, n, Requesting(server), s.loads, s.now + 3, RpcFails(t));
    }
    AtTime(s, cur', t);
  }

  /** The remove is forwarded: its node's table sends the key to another peer, on a connection. */
  ghost predicate ForwardsRemove<T>(cfg: Config<T>, me: Peer, n: Node<T>, key: string) {
    var route := LookupPeer(cfg.sch, n.table, key);
    route.Found? && route.peer != me && route.client.Some?
  }

  /** A remove whose request goes out, up to that point. */
  lemma RemoveRequestAlone<T>(cfg: Config<T>, s: State<T>, t: nat, env: Serving.Env)
    returns (acts: seq<Action<T>>, cur: State<T>)
    requires Starts(s, t, Remove, env) && ForwardsRemove(cfg, s.tasks[t].node, s.nodes[s.tasks[t].node], s.tasks[t].key)
    ensures Runs(cfg, s, acts, cur) && TablesFixed(acts)
    ensures var a := s.tasks[t];
            var n := s.nodes[a.node];
            AloneAt(s, cur, t, n.ClearHot(a.key), Requesting(LookupPeer(cfg.sch, n.table, a.key).client.value.target),
                    s.loads, s.now + 3)
  {
    hide LookupPeer, Runs, AloneAt;
    var a := s.tasks[t];
    var n1 := s.nodes[a.node].ClearHot(a.key);
    NobodyMovedYet(cfg, s, t);
    acts, cur := NextAlone(cfg, s, [], s, t, s.nodes[a.node], Fresh, s.loads, s.now, Step(t));
    AtPhase(s, cur, t, n1, Unrouted, s.loads, s.now + 1);
    acts, cur := NextAlone(cfg, s, acts, cur, t, n1, Unrouted, s.loads, s.now + 1, Step(t));
    var route := LookupPeer(cfg.sch, n1.table, a.key);
    AtPhase(s, cur, t, n1, Routed(route.peer, route.client), s.loads, s.now + 2);
    acts, cur := NextAlone(cfg, s, acts, cur, t, n1, Routed(route.peer, route.client), s.loads, s.now + 2, Step(t));
  }

  /** Once the reply has come, the rest of such a remove: it ends without an error if and only if the reply is none. */
  lemma RemoveReplyAlone<T>(cfg: Config<T>, s: State<T>, t: nat, n: Node<T>, env: Serving.Env)
    returns (acts: seq<Action<T>>, cur: State<T>)
    requires CanStep(s, t) && s.tasks[t].op.Remove? && s.tasks[t].phase.Awaiting?
    requires env.removedRemotely <==> !s.tasks[s.tasks[t].child.value].phase.answer.Err?
    requires ForwardsRemove(cfg, s.tasks[t].node, n, s.tasks[t].key)
    requires s.nodes[s.tasks[t].node] == n.ClearHot(s.tasks[t].key)
    ensures Runs(cfg, s, acts, cur) && TablesFixed(acts)
    ensures var a := s.tasks[t];
            var answer := Serving.Remove(cfg.sch, a.node, n, a.key, env);
            AloneAt(s, cur, t, answer.0, Finished(answer.1), s.loads, s.now + 1)
    ensures cur.tasks[t].phase == Finished(if env.removedRemotely then Removed else Err(RpcFailed))
  {
    hide LookupPeer, Runs;
    NobodyMovedYet(cfg, s, t);
    acts, cur := NextAlone(cfg, s, [], s, t, s.nodes[s.tasks[t].node], Awaiting, s.loads, s.now, Step(t));
  }
}
