/**
 A cluster of nodes serving gets and removes, as a machine that takes one atomic step at a time.

 A task is one execution of `get` or `remove` on one node, started by a caller on that node or by a request of
 another node. The task that leads a single flight stands for the flight itself: `flights` maps the key to it,
 and tasks that join follow it. Requests may be delivered late or fail at any moment, entries may be evicted and
 routing tables replaced at any moment, and loaders return what they like.
 */
module Cluster {
  import opened Wrappers
  import opened VNodes
  import opened Routing
  import opened NodeState

  datatype Config<!T> = Config(sch: Scheme<T>, ttl: nat)

  datatype Op = Get | Remove

  datatype Origin = Caller | Request(parent: nat)

  datatype Phase =
    | Fresh                                         // nothing done yet
    | MissedMain                                    // get: main cache probed
    | Unrouted                                      // caches done with, owner not looked up yet
    | Routed(peer: Peer, client: Option<Client>)    // owner looked up
    | Following(leader: nat)                        // get: joined a running flight
    | Leading(peer: Peer, client: Option<Client>)   // get: runs the closure of the flight, as in the rest to Closing
    | LoadingOwn(called: nat)                       // the loader was called for a key this node owns
    | FillingMain(val: Val)
    | Requesting(server: Peer)                      // request sent and not yet received (also by removes)
    | Awaiting                                      // request received, reply outstanding (also by removes)
    | FillingHot(val: Val)
    | FallingBack                                   // the request failed
    | LoadingFallback(called: nat)                  // the loader was called because the request failed
    | Closing(answer: Answer)                       // the closure has returned
    | Finished(answer: Answer)

  /** What a get may have done: returned a value from a cache, sent a request, and seen the request fail. */
  datatype Deed = HitCache | SentRequest | RequestFailed

  /**
   A task was `started` at an instant, when the clock said `clock`. The last seven fields but `phase` record what it did
   and when: `child` is what its request started, `joined` the flight it followed.
   */
  datatype Task = Task(
    op: Op, node: Peer, key: string, origin: Origin, started: nat, clock: nat,
    missedMainAt: Option<nat>, hotClearedAt: Option<nat>, mainClearedAt: Option<nat>,
    child: Option<nat>, joined: Option<nat>, did: set<Deed>, phase: Phase)

  /** One call of a loader by a task, and what came of it; `None` is an error. */
  datatype Load = Load(task: nat, called: nat, node: Peer, key: string, outcome: Option<string>)

  /**
   `now` numbers the instants, one for each action; `clock` is the time, which passes as it likes between actions,
   or not at all.
   */
  datatype State<T> = State(nodes: map<Peer, Node<T>>, tasks: seq<Task>, loads: seq<Load>, now: nat, clock: nat)

  datatype Action<T> =
    | Call(op: Op, node: Peer, key: string)
    | Step(t: nat)                                  // the next local step of a task
    | LoadReturns(t: nat, outcome: Option<string>)
    | Deliver(t: nat)
    | RpcFails(t: nat)
    | EvictMain(node: Peer, key: string)
    | EvictHot(node: Peer, key: string)
    | ReplaceTable(node: Peer, table: Table<T>)
    | Wait(d: nat)

  // -------------------------------------------------------- shape of a task

  predicate PhaseFits(a: Task) {
    a.op.Remove? ==>
      || a.phase.Fresh? || a.phase.Unrouted? || a.phase.Routed?
      || a.phase.Requesting? || a.phase.Awaiting? || a.phase.Finished?
  }

  /** The task runs the closure of the single flight for its key on its node. */
  predicate InFlight(a: Task) {
    && a.op.Get?
    && !a.phase.Fresh? && !a.phase.MissedMain? && !a.phase.Unrouted? && !a.phase.Routed?
    && !a.phase.Following? && !a.phase.Finished?
  }

  predicate Loading(a: Task) {
    a.phase.LoadingOwn? || a.phase.LoadingFallback?
  }

  function NewTask(op: Op, node: Peer, key: string, origin: Origin, now: nat, clock: nat): Task {
    Task(op, node, key, origin, now, clock, None, None, None, None, None, {}, Fresh)
  }

  predicate Done(tasks: seq<Task>, i: nat) {
    i < |tasks| && tasks[i].phase.Finished?
  }

  // ---------------------------------------------------------------- the steps

  /** What a step does: the task itself, the node it runs on, the log of loads, and a task that it starts elsewhere. */
  datatype Move<T> = Move(task: Task, node: Node<T>, loads: seq<Load>, started: seq<Task>)

  predicate CanStep<T>(s: State<T>, t: nat) {
    && t < |s.tasks|
    && var a := s.tasks[t];
    && a.node in s.nodes && PhaseFits(a)
    && !Loading(a) && !a.phase.Requesting? && !a.phase.Finished?
    && (a.phase.Awaiting? ==> a.child.Some? && Done(s.tasks, a.child.value))
    && (a.phase.Following? ==> Done(s.tasks, a.phase.leader))
  }

  function StepGet<T>(cfg: Config<T>, s: State<T>, t: nat): (Task, Node<T>)
    requires CanStep(s, t) && s.tasks[t].op.Get?
  {
    var a := s.tasks[t];
    var n := s.nodes[a.node];
    match a.phase
    case Fresh =>
      var n' := n.CountGet(a.origin.Request?);
      (match n.MainGet(a.key)
       case Some(v) => (a.(phase := Finished(Ok(v)), did := a.did + {HitCache}), n'.CountHit())
       case None => (a.(phase := MissedMain, missedMainAt := Some(s.now)), n'))
    case MissedMain =>
      (match n.HotGet(a.key, s.clock, cfg.ttl)
       case Some(v) => (a.(phase := Finished(Ok(v)), did := a.did + {HitCache}), n.CountHit())
       case None => (a.(phase := Unrouted), n))
    case Unrouted =>
      (match LookupPeer(cfg.sch, n.table, a.key)
       case EmptyRing => (a.(phase := Finished(Err(RingIsEmpty))), n.CountUnroutable())
       case Found(p, client) => (a.(phase := Routed(p, client)), n))
    case Routed(p, client) =>
      if a.key in n.flights then
        (a.(phase := Following(n.flights[a.key]), joined := Some(n.flights[a.key])), n.CountJoin())
      else (a.(phase := Leading(p, client)), n.OpenFlight(a.key, t))
    case Following(l) => (a.(phase := s.tasks[l].phase), n)
    case Leading(p, client) =>
      if p == a.node then (a.(phase := LoadingOwn(s.now)), n.CountLocalLoad())
      else (match client
            case None => (a.(phase := Closing(Err(NoClient))), n.CountUnroutable())
            case Some(cl) =>
              (a.(phase := Requesting(cl.target), did := a.did + {SentRequest}), n.CountRemoteLoad()))
    case FillingMain(v) => (a.(phase := Closing(Ok(v))), n.FillMain(a.key, v, s.now))
    case Awaiting =>
      (match s.tasks[a.child.value].phase.answer
       case Ok(v) => (a.(phase := FillingHot(v)), n)
       case _ => (a.(phase := FallingBack, did := a.did + {RequestFailed}), n.CountRemoteLoadError()))
    case FillingHot(v) => (a.(phase := Closing(Ok(v))), n.FillHot(a.key, v, s.now, s.clock))
    case FallingBack => (a.(phase := LoadingFallback(s.now)), n.CountLocalLoad())
    case Closing(answer) => (a.(phase := Finished(answer)), n.CloseFlight(a.key))
  }

  function StepRemove<T>(cfg: Config<T>, s: State<T>, t: nat): (Task, Node<T>)
    requires CanStep(s, t) && s.tasks[t].op.Remove?
  {
    var a := s.tasks[t];
    var n := s.nodes[a.node];
    match a.phase
    case Fresh => (a.(phase := Unrouted, hotClearedAt := Some(s.now)), n.ClearHot(a.key))
    case Unrouted =>
      (match LookupPeer(cfg.sch, n.table, a.key)
       case EmptyRing => (a.(phase := Finished(Err(RingIsEmpty))), n)
       case Found(p, client) => (a.(phase := Routed(p, client)), n))
    case Routed(p, client) =>
      if p == a.node then (a.(phase := Finished(Removed), mainClearedAt := Some(s.now)), n.ClearMain(a.key))
      else (match client
            case None => (a.(phase := Finished(Err(NoClient))), n)
            case Some(cl) => (a.(phase := Requesting(cl.target)), n))
    case Awaiting =>
      (match s.tasks[a.child.value].phase.answer
       case Err(_) => (a.(phase := Finished(Err(RpcFailed))), n)
       case _ => (a.(phase := Finished(Removed)), n))
  }

  function StepMove<T>(cfg: Config<T>, s: State<T>, t: nat): Move<T>
    requires CanStep(s, t)
  {
    var (a, n) := if s.tasks[t].op.Get? then StepGet(cfg, s, t) else StepRemove(cfg, s, t);
    Move(a, n, s.loads, [])
  }

  predicate CanLoad<T>(s: State<T>, t: nat) {
    t < |s.tasks| && s.tasks[t].node in s.nodes && Loading(s.tasks[t])
  }

  function LoadMove<T>(s: State<T>, t: nat, outcome: Option<string>): Move<T>
    requires CanLoad(s, t)
  {
    var a := s.tasks[t];
    var n := s.nodes[a.node];
    var loads := s.loads + [Load(t, a.phase.called, a.node, a.key, outcome)];
    match outcome
    case None => Move(a.(phase := Closing(Err(LoaderFailed(|s.loads|)))), n.CountLocalLoadError(), loads, [])
    case Some(data) =>
      var v := Val(data, |s.loads|, a.phase.called);
      Move(a.(phase := if a.phase.LoadingOwn? then FillingMain(v) else Closing(Ok(v))), n, loads, [])
  }

  predicate CanDeliver<T>(s: State<T>, t: nat) {
    t < |s.tasks| && s.tasks[t].node in s.nodes && s.tasks[t].phase.Requesting? && s.tasks[t].phase.server in s.nodes
  }

  function DeliverMove<T>(s: State<T>, t: nat): Move<T>
    requires CanDeliver(s, t)
  {
    var a := s.tasks[t];
    Move(a.(phase := Awaiting, child := Some(|s.tasks|)), s.nodes[a.node], s.loads,
         [NewTask(a.op, a.phase.server, a.key, Request(t), s.now, s.clock)])
  }

  /** A request may fail before it arrives, while it is served, or on the way back. */
  predicate CanFail<T>(s: State<T>, t: nat) {
    t < |s.tasks| && s.tasks[t].node in s.nodes && (s.tasks[t].phase.Requesting? || s.tasks[t].phase.Awaiting?)
  }

  function FailMove<T>(s: State<T>, t: nat): Move<T>
    requires CanFail(s, t)
  {
    var a := s.tasks[t];
    var n := s.nodes[a.node];
    if a.op.Get? then
      Move(a.(phase := FallingBack, did := a.did + {RequestFailed}), n.CountRemoteLoadError(), s.loads, [])
    else Move(a.(phase := Finished(Err(RpcFailed))), n, s.loads, [])
  }

  // --------------------------------------------------------------- the machine

  /** The action is a step of some task, as opposed to something its environment does. */
  predicate IsTaskAction<T>(act: Action<T>) {
    act.Step? || act.LoadReturns? || act.Deliver? || act.RpcFails?
  }

  predicate Enabled<T>(s: State<T>, act: Action<T>) {
    match act
    case Call(_, node, _) => node in s.nodes
    case Step(t) => CanStep(s, t)
    case LoadReturns(t, _) => CanLoad(s, t)
    case Deliver(t) => CanDeliver(s, t)
    case RpcFails(t) => CanFail(s, t)
    case EvictMain(node, _) => node in s.nodes
    case EvictHot(node, _) => node in s.nodes
    case ReplaceTable(node, _) => node in s.nodes
    case Wait(_) => true
  }

  function TaskMove<T>(cfg: Config<T>, s: State<T>, act: Action<T>): Move<T>
    requires Enabled(s, act) && IsTaskAction(act)
  {
    match act
    case Step(t) => StepMove(cfg, s, t)
    case LoadReturns(t, outcome) => LoadMove(s, t, outcome)
    case Deliver(t) => DeliverMove(s, t)
    case RpcFails(t) => FailMove(s, t)
  }

  function Commit<T>(s: State<T>, t: nat, m: Move<T>): State<T>
    requires t < |s.tasks|
  {
    State(s.nodes[s.tasks[t].node := m.node], s.tasks[t := m.task] + m.started, m.loads, s.now + 1, s.clock)
  }

  function Apply<T>(cfg: Config<T>, s: State<T>, act: Action<T>): State<T>
    requires Enabled(s, act)
  {
    if IsTaskAction(act) then Commit(s, act.t, TaskMove(cfg, s, act))
    else
      var s' := s.(now := s.now + 1);
      match act
      case Call(op, node, key) => s'.(tasks := s.tasks + [NewTask(op, node, key, Caller, s.now, s.clock)])
      case EvictMain(node, key) => s'.(nodes := s.nodes[node := s.nodes[node].ClearMain(key)])
      case EvictHot(node, key) => s'.(nodes := s.nodes[node := s.nodes[node].ClearHot(key)])
      case ReplaceTable(node, table) => s'.(nodes := s.nodes[node := s.nodes[node].(table := table)])
      case Wait(d) => s'.(clock := s.clock + d)
  }

  /** Nodes at start-up: any tables, empty caches, nothing running, all counters zero. */
  ghost predicate Init<T>(s: State<T>) {
    && s.tasks == [] && s.loads == []
    && forall n | n in s.nodes :: s.nodes[n] == Node(s.nodes[n].table, map[], map[], map[], ZERO)
  }

  /** The actions can be taken from `s` one after another and lead to `final`. */
  ghost predicate Runs<T>(cfg: Config<T>, s: State<T>, acts: seq<Action<T>>, final: State<T>)
    decreases |acts|
  {
    if acts == [] then s == final
    else Enabled(s, acts[0]) && Runs(cfg, Apply(cfg, s, acts[0]), acts[1..], final)
  }
}
