/**
 How long a removed value can still be served. From any state on, however the views of the nodes differed before:
 if all nodes route the key to one owner from now on and the key is gone, then every get that starts a hot-cache
 time to live later returns a value for which the loader was called later.
 */
module Staleness {
  import opened Wrappers
  import opened VNodes
  import opened Routing
  import opened NodeState
  import opened Cluster
  import opened Structure
  import opened Ownership

  // ------------------------------------------------------------------- clocks

  /**
   Whatever is recorded with an instant happened before now, and whatever is recorded with a time not later than
   that.
   */
  ghost predicate ClocksOk<T>(s: State<T>) {
    && (forall n, key | n in s.nodes && key in s.nodes[n].hot :: s.nodes[n].hot[key].at <= s.clock)
    && (forall i: nat | i < |s.tasks| ::
          s.tasks[i].clock <= s.clock && (Loading(s.tasks[i]) ==> s.tasks[i].phase.called < s.now))
    && (forall l | l in s.loads :: l.called < s.now)
  }

  lemma StepKeepsClocks<T>(cfg: Config<T>, s: State<T>, t: nat)
    requires CanStep(s, t) && ClocksOk(s)
    ensures var m := StepMove(cfg, s, t);
            && m.task.clock == s.tasks[t].clock && m.started == [] && m.loads == s.loads
            && (Loading(m.task) ==> m.task.phase.called <= s.now)
            && forall key | key in m.node.hot ::
                  || m.node.hot[key].at == s.clock
                  || (key in s.nodes[s.tasks[t].node].hot && m.node.hot[key] == s.nodes[s.tasks[t].node].hot[key])
  {
    hide LookupPeer;
  }

  lemma ActionKeepsClocks<T>(cfg: Config<T>, s: State<T>, act: Action<T>)
    requires ClocksOk(s) && Enabled(s, act)
    ensures ClocksOk(Apply(cfg, s, act))
  {
    hide StepMove;
    if act.Step? {
      StepKeepsClocks(cfg, s, act.t);
    }
  }

  lemma StartUpClocks<T>(s: State<T>)
    requires Init(s)
    ensures ClocksOk(s)
  {
  }

  lemma {:induction false} RunsKeepClocks<T>(cfg: Config<T>, s: State<T>, acts: seq<Action<T>>, final: State<T>)
    requires ClocksOk(s) && Runs(cfg, s, acts, final)
    ensures ClocksOk(final)
    decreases |acts|
  {
    hide ClocksOk, Apply;
    if acts != [] {
      ActionKeepsClocks(cfg, s, acts[0]);
      RunsKeepClocks(cfg, Apply(cfg, s, acts[0]), acts[1..], final);
    }
  }

  // ------------------------------------------------------------ when it is gone

  predicate HasValue(tasks: seq<Task>, i: nat) {
    Done(tasks, i) && tasks[i].phase.answer.Ok?
  }

  /** The task serving a request has its answer: it is finished, or the flight it joined is. */
  predicate AnswerReady(tasks: seq<Task>, c: nat) {
    HasValue(tasks, c) || (c < |tasks| && tasks[c].phase.Following? && HasValue(tasks, tasks[c].phase.leader))
  }

  /** A running flight that has called the loader, or already has the value it is going to return. */
  predicate CarriesValue(tasks: seq<Task>, t: nat) {
    && t < |tasks| && InFlight(tasks[t])
    && match tasks[t].phase
       case LoadingOwn(_) => true
       case LoadingFallback(_) => true
       case FillingMain(_) => true
       case FillingHot(_) => true
       case Closing(Ok(_)) => true
       case Awaiting => tasks[t].child.Some? && AnswerReady(tasks, tasks[t].child.value)
       case _ => false
  }

  /** The task is about to send a request to `p`, or has sent it. */
  predicate Asks(a: Task, p: Peer) {
    match a.phase
    case Routed(q, client) => q == p && client.Some? && p != a.node
    case Leading(q, client) => q == p && client.Some? && p != a.node
    case Requesting(q) => q == p
    case _ => false
  }

  predicate Unprobed(a: Task) {
    a.phase.Fresh? || a.phase.MissedMain?
  }

  /** The request of get `t` is on its way to the caches of node `p`. */
  predicate HeadsFor(tasks: seq<Task>, t: nat, p: Peer) {
    && t < |tasks|
    && var a := tasks[t];
    || Asks(a, p)
    || (a.phase.Awaiting? && a.child.Some? && a.child.value < |tasks|
        && tasks[a.child.value].node == p && Unprobed(tasks[a.child.value]))
  }

  /** The connection on which a lookup of the key would send a request. */
  function ClientFor<T>(sch: Scheme<T>, table: Table<T>, key: string): Option<Client> {
    match LookupPeer(sch, table, key)
    case EmptyRing => None
    case Found(_, client) => client
  }

  /** Some other node can send new gets of the key to its owner. */
  ghost predicate OwnerIsAsked<T>(sch: Scheme<T>, nodes: map<Peer, Node<T>>, key: string, owner: Peer) {
    exists x | x in nodes && x != owner :: ClientFor(sch, nodes[x].table, key).Some?
  }

  /** A get of the key that runs on another node is on its way to node `p`, or can be called and sent there. */
  ghost predicate MayBeAsked<T>(sch: Scheme<T>, s: State<T>, key: string, owner: Peer, p: Peer) {
    || (p == owner && OwnerIsAsked(sch, s.nodes, key, owner))
    || exists t: nat | t < |s.tasks| && s.tasks[t].op.Get? && s.tasks[t].key == key :: HeadsFor(s.tasks, t, p)
  }

  /**
   The key is in no main cache, no running flight carries a value for it, and no request can reach a hot cache that
   still serves it. Former owners, the hot cache of the new owner and tasks routed by former tables all matter here.
   */
  ghost predicate Gone<T>(cfg: Config<T>, s: State<T>, key: string, owner: Peer) {
    && (forall n | n in s.nodes :: key !in s.nodes[n].main)
    && (forall t: nat | t < |s.tasks| && s.tasks[t].key == key :: !CarriesValue(s.tasks, t))
    && (forall n | n in s.nodes && s.nodes[n].HotGet(key, s.clock, cfg.ttl).Some? ::
          !MayBeAsked(cfg.sch, s, key, owner, n))
  }

  /**
   Where tables did not change, less is to be said: the owner's main cache lacks the key and no flight carries a
   value for it.
   */
  ghost predicate Dropped<T>(s: State<T>, key: string, owner: Peer) {
    && (owner in s.nodes ==> key !in s.nodes[owner].main)
    && forall t: nat | t < |s.tasks| && s.tasks[t].key == key :: !CarriesValue(s.tasks, t)
  }

  lemma PlacedAndDroppedMeansGone<T>(cfg: Config<T>, s: State<T>, key: string, owner: Peer)
    requires Inv(cfg.sch, s) && Placed(cfg.sch, s) && AllRouteTo(cfg.sch, s, key, owner) && Dropped(s, key, owner)
    ensures Gone(cfg, s, key, owner)
  {
    var sch := cfg.sch;
    hide RoutesTo, CarriesValue, Inv, Placed, AllRouteTo, HeadsFor;
    forall n | n in s.nodes
      ensures key !in s.nodes[n].main
      ensures key in s.nodes[n].hot ==> !MayBeAsked(sch, s, key, owner, n)
    {
      OneMainCachePerKey(sch, s, key, owner, n);
      if key in s.nodes[n].hot {
        forall t: nat | t < |s.tasks| && s.tasks[t].op.Get? && s.tasks[t].key == key ensures !HeadsFor(s.tasks, t, n) {
          if HeadsFor(s.tasks, t, n) {
            OnlyOwnerIsAsked(sch, s, key, owner, t, n);
          }
        }
      }
    }
  }

  lemma OnlyOwnerIsAsked<T>(sch: Scheme<T>, s: State<T>, key: string, owner: Peer, t: nat, p: Peer)
    requires Inv(sch, s) && Placed(sch, s) && AllRouteTo(sch, s, key, owner)
    requires t < |s.tasks| && s.tasks[t].key == key && HeadsFor(s.tasks, t, p)
    ensures p == owner
  {
    hide RoutesTo, OnOwnRing, PhaseOk, FlightOk;
    var a := s.tasks[t];
    assert TaskOk(sch, s, t);
    assert TasksPlaced(sch, s.nodes[a.node].table, a) && ChildPlaced(sch, s, a);
    OneRoute(sch, s.nodes[a.node].table, key, owner);
  }

  /** In particular, no flight for the key runs anywhere. */
  lemma NoFlightNoValue<T>(sch: Scheme<T>, s: State<T>, key: string, owner: Peer)
    requires Inv(sch, s) && owner in s.nodes && key !in s.nodes[owner].main
    requires forall n | n in s.nodes :: key !in s.nodes[n].flights
    ensures Dropped(s, key, owner)
  {
    hide OnOwnRing, PhaseOk, ChildOk, FlightOk;
    forall t: nat | t < |s.tasks| && s.tasks[t].key == key ensures !CarriesValue(s.tasks, t) {
      assert TaskOk(sch, s, t);
    }
  }

  // ---------------------------------------------------------------- the mark

  /**
   The state when the key was gone: its instant, time and number of tasks, which requests were unanswered, which hot
   caches still served the key.
   */
  datatype Mark = Mark(key: string, owner: Peer, at: nat, clock: nat, tasks: nat, unanswered: set<nat>,
                       holders: set<Peer>)

  predicate IsLate(mk: Mark, i: nat) {
    i >= mk.tasks || i in mk.unanswered
  }

  predicate IsNew(mk: Mark, v: Val) {
    v.called >= mk.at
  }

  predicate NewIfOk(mk: Mark, phase: Phase) {
    phase.Finished? && phase.answer.Ok? ==> IsNew(mk, phase.answer.val)
  }

  predicate NodeFresh<T>(ttl: nat, mk: Mark, p: Peer, n: Node<T>) {
    && (mk.key in n.main ==> IsNew(mk, n.main[mk.key].val))
    && (mk.key in n.hot ==>
          || IsNew(mk, n.hot[mk.key].val)
          || n.hot[mk.key].at + ttl <= mk.clock
          || (p in mk.holders && n.hot[mk.key].at <= mk.clock))
  }

  /**
   What a flight for the key holds is new, its request was unanswered or is later, and none goes where an old value
   is.
   */
  ghost predicate HeldFresh(mk: Mark, a: Task) {
    match a.phase
    case LoadingOwn(called) => called >= mk.at
    case LoadingFallback(called) => called >= mk.at
    case FillingMain(v) => IsNew(mk, v)
    case FillingHot(v) => IsNew(mk, v)
    case Closing(Ok(v)) => IsNew(mk, v)
    case Awaiting => a.child.Some? ==> IsLate(mk, a.child.value)
    case _ => forall p | p in mk.holders :: !Asks(a, p)
  }

  /** Somebody still waits for the answer to the request that the task serves. */
  predicate Awaited(tasks: seq<Task>, a: Task) {
    a.origin.Request? && a.origin.parent < |tasks| && tasks[a.origin.parent].phase.Awaiting?
  }

  /** Tasks whose answer has to be new: called late or where no old value is, or awaited. */
  predicate Watched(ttl: nat, mk: Mark, tasks: seq<Task>, i: nat, a: Task) {
    || (i >= mk.tasks && (a.clock >= mk.clock + ttl || a.node !in mk.holders))
    || (IsLate(mk, i) && Awaited(tasks, a))
  }

  predicate LateFresh(ttl: nat, mk: Mark, tasks: seq<Task>, i: nat, a: Task) {
    Watched(ttl, mk, tasks, i, a) ==>
      && NewIfOk(mk, a.phase)
      && (a.phase.Following? && a.phase.leader < |tasks| ==> NewIfOk(mk, tasks[a.phase.leader].phase))
      && (Unprobed(a) ==> a.clock >= mk.clock + ttl || a.node !in mk.holders)
  }

  ghost predicate TaskFresh(ttl: nat, mk: Mark, tasks: seq<Task>, i: nat)
    requires i < |tasks|
  {
    var a := tasks[i];
    a.op.Get? && a.key == mk.key ==> HeldFresh(mk, a) && LateFresh(ttl, mk, tasks, i, a)
  }

  ghost predicate Fresh<T>(ttl: nat, mk: Mark, s: State<T>) {
    && mk.at <= s.now && mk.clock <= s.clock && mk.tasks <= |s.tasks|
    && (forall n | n in s.nodes :: NodeFresh(ttl, mk, n, s.nodes[n]))
    && (forall i: nat | i < |s.tasks| :: TaskFresh(ttl, mk, s.tasks, i))
  }

  /** All nodes route the key to the owner, and none sends gets there if it still had the key in its hot cache. */
  ghost predicate Settled<T>(sch: Scheme<T>, mk: Mark, nodes: map<Peer, Node<T>>) {
    forall n | n in nodes ::
      && RoutesTo(sch, nodes[n].table, mk.key, mk.owner)
      && (mk.owner in mk.holders && n != mk.owner ==> ClientFor(sch, nodes[n].table, mk.key).None?)
  }

  ghost predicate Setting<T>(sch: Scheme<T>, mk: Mark, s: State<T>) {
    Inv(sch, s) && ClocksOk(s) && Settled(sch, mk, s.nodes)
  }

  ghost predicate MoveFresh<T>(ttl: nat, mk: Mark, s: State<T>, t: nat, m: Move<T>)
    requires t < |s.tasks|
  {
    var a := s.tasks[t];
    && m.task.op == a.op && m.task.key == a.key && m.task.node == a.node && m.task.clock == a.clock
    && m.task.origin == a.origin
    && !a.phase.Finished?
    && (m.task.phase.Awaiting? ==> a.phase.Awaiting? || a.child.None?)
    && NodeFresh(ttl, mk, a.node, m.node)
    && (a.op.Get? && a.key == mk.key ==>
          && HeldFresh(mk, m.task) && LateFresh(ttl, mk, s.tasks, t, m.task)
          && (InFlight(a) ==> NewIfOk(mk, m.task.phase)))
    && (m.task.phase.Following? && a.op.Get? ==> m.task.phase.leader != t)
    && (forall b | b in m.started :: b.phase.Fresh? && (b.op.Get? && b.key == mk.key ==> b.node !in mk.holders))
  }

  lemma SettledTask<T>(ttl: nat, mk: Mark, sch: Scheme<T>, s: State<T>, t: nat)
    requires Setting(sch, mk, s) && Fresh(ttl, mk, s) && t < |s.tasks|
    ensures TaskOk(sch, s, t) && TaskFresh(ttl, mk, s.tasks, t)
    ensures NodeFresh(ttl, mk, s.tasks[t].node, s.nodes[s.tasks[t].node])
    ensures s.tasks[t].clock <= s.clock && mk.at <= s.now && mk.clock <= s.clock
    ensures var table := s.nodes[s.tasks[t].node].table;
            && RoutesTo(sch, table, mk.key, mk.owner)
            && (mk.owner in mk.holders && s.tasks[t].node != mk.owner ==> ClientFor(sch, table, mk.key).None?)
  {
    hide OnOwnRing, RoutesTo, ClientFor, FlightOk, TaskFresh, NodeFresh;
  }

  lemma CacheProbeIsFresh<T>(cfg: Config<T>, mk: Mark, s: State<T>, t: nat)
    requires Setting(cfg.sch, mk, s) && Fresh(cfg.ttl, mk, s)
    requires CanStep(s, t) && s.tasks[t].op.Get? && Unprobed(s.tasks[t])
    ensures MoveFresh(cfg.ttl, mk, s, t, StepMove(cfg, s, t))
  {
    hide Setting, Fresh, Nearer, LookupPeer, PhaseOk, ChildOk, RoutesTo, ClientFor;
    SettledTask(cfg.ttl, mk, cfg.sch, s, t);
  }

  lemma LookupIsFresh<T>(cfg: Config<T>, mk: Mark, s: State<T>, t: nat)
    requires Setting(cfg.sch, mk, s) && Fresh(cfg.ttl, mk, s)
    requires CanStep(s, t) && s.tasks[t].op.Get? && !InFlight(s.tasks[t]) && !Unprobed(s.tasks[t])
    ensures MoveFresh(cfg.ttl, mk, s, t, StepMove(cfg, s, t))
  {
    hide Setting, Fresh, Nearer, LookupPeer, PhaseOk, ChildOk;
    var a := s.tasks[t];
    SettledTask(cfg.ttl, mk, cfg.sch, s, t);
    if a.phase.Routed? && a.key in s.nodes[a.node].flights {
      FlightHasLeader(cfg.sch, mk, s, a.node, a.key);
    } else if a.phase.Routed? {
      assert forall p :: Asks(a.(phase := Leading(a.phase.peer, a.phase.client)), p) <==> Asks(a, p);
    }
  }

  lemma FlightHasLeader<T>(sch: Scheme<T>, mk: Mark, s: State<T>, n: Peer, key: string)
    requires Setting(sch, mk, s) && n in s.nodes && key in s.nodes[n].flights
    ensures FlightOk(s, n, key)
  {
  }

  lemma ReplyIsFresh<T>(cfg: Config<T>, mk: Mark, s: State<T>, t: nat)
    requires Setting(cfg.sch, mk, s) && Fresh(cfg.ttl, mk, s)
    requires CanStep(s, t) && s.tasks[t].op.Get? && s.tasks[t].phase.Awaiting?
    ensures MoveFresh(cfg.ttl, mk, s, t, StepMove(cfg, s, t))
  {
    hide Setting, Fresh, Nearer, LookupPeer, RoutesTo, ClientFor;
    SettledTask(cfg.ttl, mk, cfg.sch, s, t);
    SettledTask(cfg.ttl, mk, cfg.sch, s, s.tasks[t].child.value);
  }

  lemma FlightIsFresh<T>(cfg: Config<T>, mk: Mark, s: State<T>, t: nat)
    requires Setting(cfg.sch, mk, s) && Fresh(cfg.ttl, mk, s)
    requires CanStep(s, t) && InFlight(s.tasks[t]) && !s.tasks[t].phase.Awaiting?
    ensures MoveFresh(cfg.ttl, mk, s, t, StepMove(cfg, s, t))
  {
    hide Setting, Fresh, Nearer, LookupPeer, RoutesTo, ClientFor, ChildOk;
    SettledTask(cfg.ttl, mk, cfg.sch, s, t);
  }

  lemma RemoveIsFresh<T>(cfg: Config<T>, mk: Mark, s: State<T>, t: nat)
    requires Setting(cfg.sch, mk, s) && Fresh(cfg.ttl, mk, s) && CanStep(s, t) && s.tasks[t].op.Remove?
    ensures MoveFresh(cfg.ttl, mk, s, t, StepMove(cfg, s, t))
  {
    hide Setting, Fresh, LookupPeer, PhaseOk, ChildOk;
    SettledTask(cfg.ttl, mk, cfg.sch, s, t);
  }

  lemma LoadIsFresh<T>(cfg: Config<T>, mk: Mark, s: State<T>, t: nat, outcome: Option<string>)
    requires Setting(cfg.sch, mk, s) && Fresh(cfg.ttl, mk, s) && CanLoad(s, t)
    ensures MoveFresh(cfg.ttl, mk, s, t, LoadMove(s, t, outcome))
  {
    hide Setting, Fresh, Nearer;
    SettledTask(cfg.ttl, mk, cfg.sch, s, t);
  }

  lemma DeliveryIsFresh<T>(cfg: Config<T>, mk: Mark, s: State<T>, t: nat)
    requires Setting(cfg.sch, mk, s) && Fresh(cfg.ttl, mk, s) && CanDeliver(s, t)
    ensures MoveFresh(cfg.ttl, mk, s, t, DeliverMove(s, t))
  {
    hide Setting, Fresh, Nearer, RoutesTo, ClientFor;
    SettledTask(cfg.ttl, mk, cfg.sch, s, t);
    MarkIsPast(cfg.ttl, mk, s);
    assert Asks(s.tasks[t], s.tasks[t].phase.server);
  }

  lemma FailureIsFresh<T>(cfg: Config<T>, mk: Mark, s: State<T>, t: nat)
    requires Setting(cfg.sch, mk, s) && Fresh(cfg.ttl, mk, s) && CanFail(s, t)
    ensures MoveFresh(cfg.ttl, mk, s, t, FailMove(s, t))
  {
    hide Setting, Fresh, Nearer, RoutesTo, ClientFor;
    SettledTask(cfg.ttl, mk, cfg.sch, s, t);
  }

  lemma MarkIsPast<T>(ttl: nat, mk: Mark, s: State<T>)
    requires Fresh(ttl, mk, s)
    ensures mk.tasks <= |s.tasks|
  {
  }

  lemma MoveIsFresh<T>(cfg: Config<T>, mk: Mark, s: State<T>, act: Action<T>)
    requires Setting(cfg.sch, mk, s) && Fresh(cfg.ttl, mk, s) && Enabled(s, act) && IsTaskAction(act)
    ensures MoveFresh(cfg.ttl, mk, s, act.t, TaskMove(cfg, s, act))
  {
    hide Setting, Fresh, MoveFresh, StepMove, LoadMove, DeliverMove, FailMove;
    if act.Step? {
      if s.tasks[act.t].op.Remove? {
        RemoveIsFresh(cfg, mk, s, act.t);
      } else if s.tasks[act.t].phase.Awaiting? {
        ReplyIsFresh(cfg, mk, s, act.t);
      } else if InFlight(s.tasks[act.t]) {
        FlightIsFresh(cfg, mk, s, act.t);
      } else {
        if Unprobed(s.tasks[act.t]) {
          CacheProbeIsFresh(cfg, mk, s, act.t);
        } else {
          LookupIsFresh(cfg, mk, s, act.t);
        }
      }
    } else if act.LoadReturns? {
      LoadIsFresh(cfg, mk, s, act.t, act.outcome);
    } else if act.Deliver? {
      DeliveryIsFresh(cfg, mk, s, act.t);
    } else {
      FailureIsFresh(cfg, mk, s, act.t);
    }
  }

  /** Whoever follows the moving task, or waits for it, learns nothing old from it. */
  lemma BystanderStaysFresh<T>(sch: Scheme<T>, ttl: nat, mk: Mark, s: State<T>, t: nat, m: Move<T>, i: nat)
    requires t < |s.tasks| && i < |s.tasks| && i != t && s.tasks[t].node in s.nodes
    requires TaskOk(sch, s, i) && TaskOk(sch, s, t) && TaskFresh(ttl, mk, s.tasks, i)
    requires TaskFresh(ttl, mk, s.tasks, t) && MoveFresh(ttl, mk, s, t, m)
    ensures TaskFresh(ttl, mk, Commit(s, t, m).tasks, i)
  {
    hide Nearer, ChildOk, HeldFresh, NodeFresh;
    var tasks := Commit(s, t, m).tasks;
    var a := s.tasks[i];
    assert tasks[i] == a;
    assert a.origin.Request? && a.origin.parent != t ==> tasks[a.origin.parent] == s.tasks[a.origin.parent];
    assert a.phase.Following? && a.phase.leader != t ==> tasks[a.phase.leader] == s.tasks[a.phase.leader];
  }

  lemma MoverStaysFresh<T>(sch: Scheme<T>, ttl: nat, mk: Mark, s: State<T>, t: nat, m: Move<T>)
    requires t < |s.tasks| && s.tasks[t].node in s.nodes && TaskOk(sch, s, t) && MoveFresh(ttl, mk, s, t, m)
    requires m.task.phase.Following? && m.task.op.Get? ==> m.task.phase.leader < |s.tasks|
    ensures TaskFresh(ttl, mk, Commit(s, t, m).tasks, t)
  {
    hide Nearer, ChildOk, HeldFresh, NodeFresh;
    var tasks := Commit(s, t, m).tasks;
    var a := s.tasks[t];
    assert tasks[t] == m.task;
    assert a.origin.Request? ==> tasks[a.origin.parent] == s.tasks[a.origin.parent];
  }

  lemma CommitKeepsFresh<T>(sch: Scheme<T>, ttl: nat, mk: Mark, s: State<T>, t: nat, m: Move<T>)
    requires Inv(sch, s) && Fresh(ttl, mk, s) && t < |s.tasks| && s.tasks[t].node in s.nodes
    requires MoveFresh(ttl, mk, s, t, m)
    requires MoveOk(sch, s, t, m)
    ensures Fresh(ttl, mk, Commit(s, t, m))
  {
    hide Inv, HeldFresh, NodeFresh, TaskFresh, MoveOk, LateFresh;
    var s' := Commit(s, t, m);
    OneTaskIsOk(sch, s, t);
    forall i: nat | i < |s'.tasks| ensures TaskFresh(ttl, mk, s'.tasks, i) {
      if i == t {
        LeadersExist(sch, s, t, m);
        MoverStaysFresh(sch, ttl, mk, s, t, m);
      } else if i < |s.tasks| {
        OneTaskIsOk(sch, s, i);
        BystanderStaysFresh(sch, ttl, mk, s, t, m, i);
      } else {
        assert s'.tasks[i] in m.started;
        StartedIsFresh(ttl, mk, s'.tasks, i);
      }
    }
  }

  lemma LeadersExist<T>(sch: Scheme<T>, s: State<T>, t: nat, m: Move<T>)
    requires t < |s.tasks| && s.tasks[t].node in s.nodes && MoveOk(sch, s, t, m)
    ensures m.task.phase.Following? ==> m.task.phase.leader < |s.tasks|
  {
    hide Nearer;
  }

  lemma StartedIsFresh(ttl: nat, mk: Mark, tasks: seq<Task>, i: nat)
    requires i < |tasks| && tasks[i].phase.Fresh?
    requires tasks[i].op.Get? && tasks[i].key == mk.key ==> tasks[i].origin.Caller? || tasks[i].node !in mk.holders
    ensures TaskFresh(ttl, mk, tasks, i)
  {
  }

  lemma EnvironmentKeepsFresh<T>(cfg: Config<T>, mk: Mark, s: State<T>, act: Action<T>)
    requires Inv(cfg.sch, s) && Fresh(cfg.ttl, mk, s) && Enabled(s, act) && !IsTaskAction(act) && !act.ReplaceTable?
    ensures Fresh(cfg.ttl, mk, Apply(cfg, s, act))
  {
    hide OnOwnRing, Nearer, FlightOk, ChildOk, HeldFresh, TaskFresh, TaskOk;
    var s' := Apply(cfg, s, act);
    forall i: nat | i < |s'.tasks| ensures TaskFresh(cfg.ttl, mk, s'.tasks, i) {
      if i < |s.tasks| {
        assert TaskFresh(cfg.ttl, mk, s.tasks, i) && TaskOk(cfg.sch, s, i);
        LongerListIsFresh(cfg.sch, cfg.ttl, mk, s, s'.tasks, i);
      } else {
        StartedIsFresh(cfg.ttl, mk, s'.tasks, i);
      }
    }
  }

  lemma LongerListIsFresh<T>(sch: Scheme<T>, ttl: nat, mk: Mark, s: State<T>, more: seq<Task>, i: nat)
    requires i < |s.tasks| && TaskFresh(ttl, mk, s.tasks, i) && TaskOk(sch, s, i) && s.tasks <= more
    ensures TaskFresh(ttl, mk, more, i)
  {
    hide Nearer, ChildOk, HeldFresh;
  }

  lemma ActionKeepsSettled<T(!new)>(cfg: Config<T>, mk: Mark, s: State<T>, act: Action<T>)
    requires Sound(cfg.sch) && Inv(cfg.sch, s) && Settled(cfg.sch, mk, s.nodes) && Enabled(s, act) && !act.ReplaceTable?
    ensures Settled(cfg.sch, mk, Apply(cfg, s, act).nodes)
  {
    hide Inv, TaskMove, RoutesTo, ClientFor;
    if IsTaskAction(act) {
      MovesAreOk(cfg, s, act);
    }
  }

  lemma ActionKeepsFresh<T(!new)>(cfg: Config<T>, mk: Mark, s: State<T>, act: Action<T>)
    requires Sound(cfg.sch) && Setting(cfg.sch, mk, s) && Fresh(cfg.ttl, mk, s) && Enabled(s, act) && !act.ReplaceTable?
    ensures Setting(cfg.sch, mk, Apply(cfg, s, act)) && Fresh(cfg.ttl, mk, Apply(cfg, s, act))
  {
    hide Inv, ClocksOk, Settled, Fresh, MoveFresh, MoveOk, TaskMove;
    ActionKeepsInv(cfg, s, act);
    ActionKeepsClocks(cfg, s, act);
    ActionKeepsSettled(cfg, mk, s, act);
    if IsTaskAction(act) {
      MovesAreOk(cfg, s, act);
      MoveIsFresh(cfg, mk, s, act);
      CommitKeepsFresh(cfg.sch, cfg.ttl, mk, s, act.t, TaskMove(cfg, s, act));
    } else {
      EnvironmentKeepsFresh(cfg, mk, s, act);
    }
  }

  lemma {:induction false} RunsStayFresh<T(!new)>(cfg: Config<T>, mk: Mark, s: State<T>, acts: seq<Action<T>>,
                                                  final: State<T>)
    requires Sound(cfg.sch) && Setting(cfg.sch, mk, s) && Fresh(cfg.ttl, mk, s) && Runs(cfg, s, acts, final)
    requires TablesFixed(acts)
    ensures Fresh(cfg.ttl, mk, final)
    decreases |acts|
  {
    hide Setting, Fresh, Apply;
    if acts != [] {
      ActionKeepsFresh(cfg, mk, s, acts[0]);
      RunsStayFresh(cfg, mk, Apply(cfg, s, acts[0]), acts[1..], final);
    }
  }

  // --------------------------------------------------------- bounded staleness

  ghost function MarkOf<T>(ttl: nat, s: State<T>, key: string, owner: Peer): Mark {
    Mark(key, owner, s.now, s.clock, |s.tasks|, set c: nat | c < |s.tasks| && !AnswerReady(s.tasks, c),
         set n | n in s.nodes && s.nodes[n].HotGet(key, s.clock, ttl).Some?)
  }

  lemma GoneIsFresh<T>(cfg: Config<T>, s: State<T>, key: string, owner: Peer)
    requires Inv(cfg.sch, s) && ClocksOk(s) && AllRouteTo(cfg.sch, s, key, owner) && Gone(cfg, s, key, owner)
    ensures var mk := MarkOf(cfg.ttl, s, key, owner); Setting(cfg.sch, mk, s) && Fresh(cfg.ttl, mk, s)
  {
    hide OnOwnRing, RoutesTo, LookupPeer, FlightOk, TaskOk, MayBeAsked, CarriesValue;
    var mk := MarkOf(cfg.ttl, s, key, owner);
    GoneIsSettled(cfg, s, key, owner);
    forall i: nat | i < |s.tasks| ensures TaskFresh(cfg.ttl, mk, s.tasks, i) {
      if s.tasks[i].op.Get? && s.tasks[i].key == key {
        GoneTaskIsFresh(cfg, s, key, owner, i);
      }
    }
  }

  lemma GoneIsSettled<T>(cfg: Config<T>, s: State<T>, key: string, owner: Peer)
    requires AllRouteTo(cfg.sch, s, key, owner) && Gone(cfg, s, key, owner)
    ensures Settled(cfg.sch, MarkOf(cfg.ttl, s, key, owner), s.nodes)
  {
    hide RoutesTo, ClientFor, CarriesValue, HeadsFor;
    if owner in s.nodes && s.nodes[owner].HotGet(key, s.clock, cfg.ttl).Some? {
      assert !MayBeAsked(cfg.sch, s, key, owner, owner);
    }
  }

  lemma GoneTaskIsFresh<T>(cfg: Config<T>, s: State<T>, key: string, owner: Peer, i: nat)
    requires Inv(cfg.sch, s) && Gone(cfg, s, key, owner)
    requires i < |s.tasks| && s.tasks[i].op.Get? && s.tasks[i].key == key
    ensures TaskFresh(cfg.ttl, MarkOf(cfg.ttl, s, key, owner), s.tasks, i)
  {
    hide Inv, Nearer, OwnerIsAsked;
    var mk := MarkOf(cfg.ttl, s, key, owner);
    var a := s.tasks[i];
    OneTaskIsOk(cfg.sch, s, i);
    assert !CarriesValue(s.tasks, i);
    forall p | p in mk.holders ensures !HeadsFor(s.tasks, i, p) {
      assert !MayBeAsked(cfg.sch, s, key, owner, p);
    }
    if Awaited(s.tasks, a) {
      var parent := a.origin.parent;
      OneTaskIsOk(cfg.sch, s, parent);
      forall p | p in mk.holders ensures !HeadsFor(s.tasks, parent, p) {
        assert !MayBeAsked(cfg.sch, s, key, owner, p);
      }
    }
  }

  /**
   Bounded staleness: once the key is gone, a get that starts a time to live later, or on a node whose hot cache did not
   serve the key, returns a value for which the loader was called since.
   */
  lemma StalenessIsBounded<T(!new)>(cfg: Config<T>, s: State<T>, acts: seq<Action<T>>, final: State<T>, key: string,
                                    owner: Peer, i: nat)
    requires Sound(cfg.sch) && Inv(cfg.sch, s) && ClocksOk(s) && AllRouteTo(cfg.sch, s, key, owner)
    requires Gone(cfg, s, key, owner)
    requires Runs(cfg, s, acts, final) && TablesFixed(acts)
    requires |s.tasks| <= i < |final.tasks| && final.tasks[i].op.Get? && final.tasks[i].key == key
    requires HasValue(final.tasks, i)
    requires
      || final.tasks[i].clock >= s.clock + cfg.ttl
      || (final.tasks[i].node in s.nodes && s.nodes[final.tasks[i].node].HotGet(key, s.clock, cfg.ttl).None?)
    ensures final.tasks[i].phase.answer.val.called >= s.now
  {
    hide Inv, ClocksOk, AllRouteTo, Gone, Runs, Setting, HeldFresh, NodeFresh;
    var mk := MarkOf(cfg.ttl, s, key, owner);
    GoneIsFresh(cfg, s, key, owner);
    RunsStayFresh(cfg, mk, s, acts, final);
    assert TaskFresh(cfg.ttl, mk, final.tasks, i);
  }
}
