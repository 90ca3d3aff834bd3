/**
 A whole get or remove on one node, as a function of the node and of what its environment answers, and what a
 caller may rely on: when it fails, what it leaves in the caches, and what the next call then finds.
 */
module Serving {
  import opened Wrappers
  import opened VNodes
  import opened Routing
  import opened NodeState
  import opened Ownership
  import opened Metrics

  /**
   What a call meets outside its node: the clock when it probes and fills the caches, the instants at which it fills
   them and calls its loader, its number among the tasks, its load, the reply to its request (`None` when the
   request fails), and what a running flight ends with.
   */
  datatype Env = Env(
    clock: nat, filledAt: nat, filledClock: nat, calledAt: nat, task: nat, loadId: nat, load: Option<string>,
    reply: Option<Val>, joined: Answer, removedRemotely: bool)

  function LoadLocally<T>(n: Node<T>, env: Env): (Node<T>, Answer) {
    match env.load
    case None => (n.CountLocalLoad().CountLocalLoadError(), Err(LoaderFailed(env.loadId)))
    case Some(data) => (n.CountLocalLoad(), Ok(Val(data, env.loadId, env.calledAt)))
  }

  /** The closure of a flight. */
  function GetDeduped<T>(me: Peer, n: Node<T>, key: string, peer: Peer, client: Option<Client>, env: Env)
    : (Node<T>, Answer)
  {
    if peer == me then
      var (n', r) := LoadLocally(n, env);
      (if r.Ok? then n'.FillMain(key, r.val, env.filledAt) else n', r)
    else if client.None? then (n.CountUnroutable(), Err(NoClient))
    else
      match env.reply
      case Some(v) => (n.CountRemoteLoad().FillHot(key, v, env.filledAt, env.filledClock), Ok(v))
      case None => LoadLocally(n.CountRemoteLoad().CountRemoteLoadError(), env)
  }

  function GetOrJoin<T>(me: Peer, n: Node<T>, key: string, peer: Peer, client: Option<Client>, env: Env)
    : (Node<T>, Answer)
  {
    if key in n.flights then (n.CountJoin(), env.joined)
    else
      var (n', r) := GetDeduped(me, n.OpenFlight(key, env.task), key, peer, client, env);
      (n'.CloseFlight(key), r)
  }

  function Get<T>(sch: Scheme<T>, me: Peer, ttl: nat, n: Node<T>, key: string, env: Env): (Node<T>, Answer) {
    var n' := n.CountGet(false);
    if n.MainGet(key).Some? then (n'.CountHit(), Ok(n.MainGet(key).value))
    else if n.HotGet(key, env.clock, ttl).Some? then (n'.CountHit(), Ok(n.HotGet(key, env.clock, ttl).value))
    else
      match LookupPeer(sch, n.table, key)
      case EmptyRing => (n'.CountUnroutable(), Err(RingIsEmpty))
      case Found(peer, client) => GetOrJoin(me, n', key, peer, client, env)
  }

  function Remove<T>(sch: Scheme<T>, me: Peer, n: Node<T>, key: string, env: Env): (Node<T>, Answer) {
    match LookupPeer(sch, n.table, key)
    case EmptyRing => (n.ClearHot(key), Err(RingIsEmpty))
    case Found(peer, client) =>
      if peer == me then (n.ClearHot(key).ClearMain(key), Removed)
      else if client.None? then (n.ClearHot(key), Err(NoClient))
      else (n.ClearHot(key), if env.removedRemotely then Removed else Err(RpcFailed))
  }

  // --------------------------------------------------------- what callers get

  predicate Cached<T>(n: Node<T>, key: string, clock: nat, ttl: nat) {
    n.MainGet(key).Some? || n.HotGet(key, clock, ttl).Some?
  }

  /** Nothing is cached, and the load that the get needs fails: its own, or that of the flight it joins. */
  predicate LoadsInVain<T>(sch: Scheme<T>, me: Peer, ttl: nat, n: Node<T>, key: string, env: Env) {
    && !Cached(n, key, env.clock, ttl)
    && if key in n.flights then env.joined.Err?
       else env.load.None? && (env.reply.None? || RoutesTo(sch, n.table, key, me))
  }

  /** With ring and map in step, a get fails exactly if loading fails; a failed request never makes it fail. */
  lemma GetFailsExactly<T(!new)>(sch: Scheme<T>, me: Peer, ttl: nat, n: Node<T>, key: string, env: Env)
    requires Sound(sch) && Synced(sch, me, n.table)
    ensures Get(sch, me, ttl, n, key, env).1.Err? <==> LoadsInVain(sch, me, ttl, n, key, env)
  {
    hide Synced;
    LookupFindsOwner(sch, me, n.table, key);
  }

  /**
   What a get that leads its own flight returned is served from the cache from then on, unless its request had
   failed.
   */
  lemma GetIsRemembered<T>(sch: Scheme<T>, me: Peer, ttl: nat, n: Node<T>, key: string, env: Env, later: Env)
    requires Get(sch, me, ttl, n, key, env).1.Ok? && key !in n.flights
    requires RoutesTo(sch, n.table, key, me) || env.reply.Some? || Cached(n, key, env.clock, ttl)
    requires key !in n.main && !RoutesTo(sch, n.table, key, me) ==>
               later.clock < (if n.HotGet(key, env.clock, ttl).Some? then n.hot[key].at else env.filledClock) + ttl
    requires n.HotGet(key, env.clock, ttl).Some? ==> later.clock < n.hot[key].at + ttl
    ensures var (n1, r) := Get(sch, me, ttl, n, key, env);
            Get(sch, me, ttl, n1, key, later) == (n1.(c := n1.c.(gets := n1.c.gets + 1, hits := n1.c.hits + 1)), r)
  {
    hide LookupPeer;
  }

  /** A get that falls back on its own loader caches nothing, so that the next get asks the owner again. */
  lemma FallbackIsForgotten<T>(sch: Scheme<T>, me: Peer, ttl: nat, n: Node<T>, key: string, env: Env)
    requires !Cached(n, key, env.clock, ttl) && key !in n.flights
    requires env.reply.None? && !RoutesTo(sch, n.table, key, me)
    ensures var n1 := Get(sch, me, ttl, n, key, env).0;
            n1.main == n.main && n1.hot == n.hot && n1.flights == n.flights && !Cached(n1, key, env.clock, ttl)
  {
    hide LookupPeer;
    assert n.flights[key := env.task] - {key} == n.flights;
  }

  lemma ClosureTouchesOneKey<T>(me: Peer, n: Node<T>, key: string, peer: Peer, client: Option<Client>, env: Env)
    ensures var n1 := GetDeduped(me, n, key, peer, client, env).0;
            && n1.table == n.table && n1.flights == n.flights
            && n1.main - {key} == n.main - {key} && n1.hot - {key} == n.hot - {key}
  {
  }

  /**
   A get changes nothing about other keys, leaves no flight behind, and does not touch what a cache already serves.
   */
  lemma GetTouchesOneKey<T>(sch: Scheme<T>, me: Peer, ttl: nat, n: Node<T>, key: string, env: Env)
    ensures var n1 := Get(sch, me, ttl, n, key, env).0;
            && n1.table == n.table && n1.flights == n.flights
            && n1.main - {key} == n.main - {key} && n1.hot - {key} == n.hot - {key}
            && (Cached(n, key, env.clock, ttl) ==> n1.main == n.main && n1.hot == n.hot)
  {
    hide LookupPeer, GetDeduped;
    var route := LookupPeer(sch, n.table, key);
    if key !in n.flights && route.Found? {
      assert n.flights[key := env.task] - {key} == n.flights;
      ClosureTouchesOneKey(me, n.CountGet(false).OpenFlight(key, env.task), key, route.peer, route.client, env);
    }
  }

  /** After a remove on its owner, a key is loaded anew by the next get, and its value is that of the new load. */
  lemma RemovedIsLoadedAnew<T>(sch: Scheme<T>, me: Peer, ttl: nat, n: Node<T>, key: string, env: Env, later: Env)
    requires RoutesTo(sch, n.table, key, me) && key !in n.flights
    ensures var (n1, r) := Remove(sch, me, n, key, env);
            && r == Removed && !Cached(n1, key, later.clock, ttl)
            && Get(sch, me, ttl, n1, key, later).1 == match later.load {
                 case Some(data) => Ok(Val(data, later.loadId, later.calledAt))
                 case None => Err(LoaderFailed(later.loadId)) }
  {
    hide LookupPeer;
  }

  /**
   A remove elsewhere leaves the main cache of this node alone: a key that it cached while it owned it is still
   served.
   */
  lemma RemoveSparesFormerOwner<T>(sch: Scheme<T>, me: Peer, ttl: nat, n: Node<T>, key: string, env: Env, later: Env)
    requires !RoutesTo(sch, n.table, key, me)
    ensures var n1 := Remove(sch, me, n, key, env).0;
            && n1 == n.ClearHot(key)
            && (Cached(n1, key, later.clock, ttl) <==> key in n.main)
            && (key in n.main ==> Get(sch, me, ttl, n1, key, later).1 == Ok(n.main[key].val))
  {
    hide LookupPeer;
  }

  lemma ClosureIsAccountedFor<T>(me: Peer, n: Node<T>, key: string, peer: Peer, client: Option<Client>, env: Env,
                                 uncounted: nat)
    requires Balanced(n.c, uncounted + 1)
    ensures Balanced(GetDeduped(me, n, key, peer, client, env).0.c, uncounted)
  {
  }

  /** Every get is accounted for by exactly one of the other counters; a remove counts nowhere. */
  lemma CallsKeepBalance<T>(sch: Scheme<T>, me: Peer, ttl: nat, n: Node<T>, key: string, env: Env, uncounted: nat)
    requires Balanced(n.c, uncounted)
    ensures Balanced(Get(sch, me, ttl, n, key, env).0.c, uncounted)
    ensures Remove(sch, me, n, key, env).0.c == n.c
  {
    hide LookupPeer, GetDeduped;
    var route := LookupPeer(sch, n.table, key);
    if key !in n.flights && route.Found? && !Cached(n, key, env.clock, ttl) {
      ClosureIsAccountedFor(me, n.CountGet(false).OpenFlight(key, env.task), key, route.peer, route.client, env,
                            uncounted);
    }
  }

  lemma ClosureKeepsPlacement<T>(sch: Scheme<T>, me: Peer, n: Node<T>, key: string, peer: Peer, client: Option<Client>,
                                 env: Env)
    requires CachesPlaced(sch, me, n) && RoutesTo(sch, n.table, key, peer)
    ensures CachesPlaced(sch, me, GetDeduped(me, n, key, peer, client, env).0)
  {
    hide LookupPeer;
  }

  /** A node goes on keeping in its main cache only keys it owns, and in its hot cache only keys it does not. */
  lemma CallsKeepPlacement<T>(sch: Scheme<T>, me: Peer, ttl: nat, n: Node<T>, key: string, env: Env)
    requires CachesPlaced(sch, me, n)
    ensures CachesPlaced(sch, me, Get(sch, me, ttl, n, key, env).0)
    ensures CachesPlaced(sch, me, Remove(sch, me, n, key, env).0)
  {
    hide LookupPeer, GetDeduped;
    var route := LookupPeer(sch, n.table, key);
    if key !in n.flights && route.Found? {
      ClosureKeepsPlacement(sch, me, n.CountGet(false).OpenFlight(key, env.task), key, route.peer, route.client, env);
    }
  }

  // ------------------------------------------------------------ whole contracts

  /**
   A call about `key` changed nothing about the table, the flights and other keys, and left no key in a cache where
   it does not belong.
   */
  ghost predicate Respects<T>(sch: Scheme<T>, me: Peer, n: Node<T>, n': Node<T>, key: string) {
    && n'.table == n.table && n'.flights == n.flights
    && n'.main - {key} == n.main - {key} && n'.hot - {key} == n.hot - {key}
    && (CachesPlaced(sch, me, n) ==> CachesPlaced(sch, me, n'))
  }

  /** The counters account for `gets` more gets than before. */
  ghost predicate Accounts(c: Counters, c': Counters, gets: nat) {
    forall uncounted: nat :: Balanced(c, uncounted + gets) ==> Balanced(c', uncounted)
  }

  /**
   A value that a flight returned is served from a cache from then on, unless it was loaded because the request
   failed.
   */
  predicate Remembers<T>(me: Peer, n': Node<T>, key: string, peer: Peer, env: Env, r: Answer) {
    r.Ok? && (peer == me || env.reply.Some?) ==>
      if peer == me then n'.MainGet(key) == Some(r.val)
        else key in n'.hot && n'.hot[key] == HotEntry(r.val, env.filledAt, env.filledClock)
  }

  lemma ClosureContract<T>(sch: Scheme<T>, me: Peer, n: Node<T>, key: string, peer: Peer, client: Option<Client>,
                           env: Env)
    ensures var (n', r) := GetDeduped(me, n, key, peer, client, env);
            && (RoutesTo(sch, n.table, key, peer) ==> Respects(sch, me, n, n', key))
            && Accounts(n.c, n'.c, 1) && Remembers(me, n', key, peer, env, r)
            && (peer != me ==> n'.main == n.main) && (peer == me ==> n'.hot == n.hot)
            && (r.Err? ==> n'.main == n.main && n'.hot == n.hot)
  {
    hide RoutesTo, GetDeduped, Balanced, CachesPlaced, Remembers;
    ClosureTouchesOneKey(me, n, key, peer, client, env);
    ClosureFills(me, n, key, peer, client, env);
    forall uncounted: nat | Balanced(n.c, uncounted + 1)
      ensures Balanced(GetDeduped(me, n, key, peer, client, env).0.c, uncounted)
    {
      ClosureIsAccountedFor(me, n, key, peer, client, env, uncounted);
    }
    if CachesPlaced(sch, me, n) && RoutesTo(sch, n.table, key, peer) {
      ClosureKeepsPlacement(sch, me, n, key, peer, client, env);
    }
  }

  lemma ClosureFills<T>(me: Peer, n: Node<T>, key: string, peer: Peer, client: Option<Client>, env: Env)
    ensures var (n', r) := GetDeduped(me, n, key, peer, client, env);
            && Remembers(me, n', key, peer, env, r)
            && (peer != me ==> n'.main == n.main) && (peer == me ==> n'.hot == n.hot)
            && (r.Err? ==> n'.main == n.main && n'.hot == n.hot)
  {
  }

  lemma FlightContract<T>(sch: Scheme<T>, me: Peer, n: Node<T>, key: string, peer: Peer, client: Option<Client>,
                          env: Env)
    ensures var (n', r) := GetOrJoin(me, n, key, peer, client, env);
            && (RoutesTo(sch, n.table, key, peer) ==> Respects(sch, me, n, n', key))
            && Accounts(n.c, n'.c, 1)
            && (if key in n.flights then r == env.joined && n'.main == n.main && n'.hot == n.hot
              else Remembers(me, n', key, peer, env, r))
  {
    hide RoutesTo, GetDeduped, CachesPlaced;
    if key !in n.flights {
      assert n.flights[key := env.task] - {key} == n.flights;
      var flying := n.OpenFlight(key, env.task);
      ClosureContract(sch, me, flying, key, peer, client, env);
      var closed := GetDeduped(me, flying, key, peer, client, env).0;
      SamePlacement(sch, me, n, flying);
      SamePlacement(sch, me, closed, closed.CloseFlight(key));
    } else {
      SamePlacement(sch, me, n, n.CountJoin());
    }
  }

  lemma SamePlacement<T>(sch: Scheme<T>, me: Peer, n: Node<T>, n': Node<T>)
    requires n'.table == n.table && n'.main == n.main && n'.hot == n.hot
    ensures CachesPlaced(sch, me, n) <==> CachesPlaced(sch, me, n')
  {
    hide RoutesTo;
  }

  // ------------------------------------------------- how a get is answered

  /** How a get is answered: from a cache, not at all, by the flight it joins, by its own loader, or by the owner. */
  datatype Course = Hit(val: Val) | Nowhere(failure: Failure) | Joins | Loads | Replied(val: Val) | FallsBack

  /** The course of a get, by what the node has and what its environment answers. */
  ghost predicate Takes<T>(sch: Scheme<T>, me: Peer, ttl: nat, n: Node<T>, key: string, env: Env, course: Course) {
    var route := LookupPeer(sch, n.table, key);
    var missed := !Cached(n, key, env.clock, ttl);
    var leads := missed && route.Found? && key !in n.flights;
    var asks := leads && route.peer != me && route.client.Some?;
    match course
    case Hit(v) =>
      || (key in n.main && v == n.main[key].val)
      || (key !in n.main && key in n.hot && env.clock < n.hot[key].at + ttl && v == n.hot[key].val)
    case Nowhere(RingIsEmpty) => missed && route.EmptyRing?
    case Nowhere(NoClient) => leads && route.peer != me && route.client.None?
    case Nowhere(_) => false
    case Joins => missed && route.Found? && key in n.flights
    case Loads => leads && route.peer == me
    case Replied(v) => asks && env.reply == Some(v)
    case FallsBack => asks && env.reply == None
  }

  function One(b: bool): nat {
    if b then 1 else 0
  }

  /** What a course does to the counters, each of them for itself. */
  predicate CountsAs(course: Course, env: Env, c: Counters, c': Counters) {
    var loads := course.Loads? || course.FallsBack?;
    && c'.gets == c.gets + 1 && c'.serverGets == c.serverGets
    && c'.hits == c.hits + One(course.Hit?) && c'.joins == c.joins + One(course.Joins?)
    && c'.localLoads == c.localLoads + One(loads)
    && c'.localLoadErrors == c.localLoadErrors + One(loads && env.load.None?)
    && c'.remoteLoads == c.remoteLoads + One(course.Replied? || course.FallsBack?)
    && c'.remoteLoadErrors == c.remoteLoadErrors + One(course.FallsBack?)
    && c'.unroutable == c.unroutable + One(course.Nowhere?)
  }

  /** What a course answers. */
  predicate AnswersAs(course: Course, env: Env, r: Answer) {
    match course
    case Hit(v) => r == Ok(v)
    case Nowhere(f) => r == Err(f)
    case Joins => r == env.joined
    case Replied(v) => r == Ok(v)
    case _ =>
      match env.load
      case Some(data) => r == Ok(Val(data, env.loadId, env.calledAt))
      case None => r == Err(LoaderFailed(env.loadId))
  }

  /**
   What the main cache holds for the key afterwards: a new value if the node loaded it as its owner, and what it
   held before otherwise.
   */
  predicate FillsAs<T>(course: Course, n: Node<T>, n': Node<T>, key: string, r: Answer) {
    && n'.MainGet(key) == (if course.Loads? && r.Ok? then Some(r.val) else n.MainGet(key))
    && (course.Replied? ==> key in n'.hot && n'.hot[key].val == course.val)
    && (!course.Replied? ==> n'.hot == n.hot)
  }

  /** Every get takes one course, and is counted and answered as that demands, whatever else goes on. */
  ghost predicate TakesCourse<T>(sch: Scheme<T>, me: Peer, ttl: nat, n: Node<T>, key: string, env: Env, n': Node<T>,
                                 r: Answer) {
    exists course ::
      && Takes(sch, me, ttl, n, key, env, course)
      && CountsAs(course, env, n.c, n'.c) && AnswersAs(course, env, r) && FillsAs(course, n, n', key, r)
  }

  lemma GetTakesCourse<T>(sch: Scheme<T>, me: Peer, ttl: nat, n: Node<T>, key: string, env: Env)
    ensures var (n', r) := Get(sch, me, ttl, n, key, env); TakesCourse(sch, me, ttl, n, key, env, n', r)
  {
    var course := CourseOf(sch, me, ttl, n, key, env);
    var (n', r) := Get(sch, me, ttl, n, key, env);
    CourseIsTaken(sch, me, ttl, n, key, env);
    hide Get, Takes, CountsAs, AnswersAs, FillsAs, CourseOf;
    assert Takes(sch, me, ttl, n, key, env, course);
  }

  ghost function CourseOf<T>(sch: Scheme<T>, me: Peer, ttl: nat, n: Node<T>, key: string, env: Env): Course {
    if n.MainGet(key).Some? then Hit(n.MainGet(key).value)
    else if n.HotGet(key, env.clock, ttl).Some? then Hit(n.HotGet(key, env.clock, ttl).value)
    else
      match LookupPeer(sch, n.table, key)
      case EmptyRing => Nowhere(RingIsEmpty)
      case Found(peer, client) =>
        if key in n.flights then Joins else ClosureCourse(me, peer, client, env)
  }

  lemma CourseIsTaken<T>(sch: Scheme<T>, me: Peer, ttl: nat, n: Node<T>, key: string, env: Env)
    ensures var (n', r) := Get(sch, me, ttl, n, key, env);
            var course := CourseOf(sch, me, ttl, n, key, env);
            && Takes(sch, me, ttl, n, key, env, course)
            && CountsAs(course, env, n.c, n'.c) && AnswersAs(course, env, r) && FillsAs(course, n, n', key, r)
  {
    hide LookupPeer, Get, CountsAs, AnswersAs, FillsAs;
    CourseCounts(sch, me, ttl, n, key, env);
    CourseAnswers(sch, me, ttl, n, key, env);
  }

  ghost function ClosureCourse(me: Peer, peer: Peer, client: Option<Client>, env: Env): Course {
    if peer == me then Loads
    else if client.None? then Nowhere(NoClient)
    else match env.reply
      case Some(v) => Replied(v)
      case None => FallsBack
  }

  lemma ClosureCounts<T>(me: Peer, n: Node<T>, key: string, peer: Peer, client: Option<Client>, env: Env, c: Counters)
    requires n.c == c.(gets := c.gets + 1)
    ensures CountsAs(ClosureCourse(me, peer, client, env), env, c, GetDeduped(me, n, key, peer, client, env).0.c)
  {
  }

  lemma CourseCounts<T>(sch: Scheme<T>, me: Peer, ttl: nat, n: Node<T>, key: string, env: Env)
    ensures CountsAs(CourseOf(sch, me, ttl, n, key, env), env, n.c, Get(sch, me, ttl, n, key, env).0.c)
  {
    hide LookupPeer, GetDeduped;
    var route := LookupPeer(sch, n.table, key);
    if !Cached(n, key, env.clock, ttl) && route.Found? && key !in n.flights {
      var flying := n.CountGet(false).OpenFlight(key, env.task);
      hide CountsAs;
      ClosureCounts(me, flying, key, route.peer, route.client, env, n.c);
    }
  }

  lemma CourseAnswers<T>(sch: Scheme<T>, me: Peer, ttl: nat, n: Node<T>, key: string, env: Env)
    ensures var (n', r) := Get(sch, me, ttl, n, key, env);
            var course := CourseOf(sch, me, ttl, n, key, env);
            AnswersAs(course, env, r) && FillsAs(course, n, n', key, r)
  {
    hide LookupPeer;
  }

  /** No get can take two courses. */
  lemma CourseIsUnique<T>(sch: Scheme<T>, me: Peer, ttl: nat, n: Node<T>, key: string, env: Env, a: Course, b: Course)
    requires Takes(sch, me, ttl, n, key, env, a) && Takes(sch, me, ttl, n, key, env, b)
    ensures a == b
  {
    hide LookupPeer;
  }

  lemma GetContract<T>(sch: Scheme<T>, me: Peer, ttl: nat, n: Node<T>, key: string, env: Env)
    ensures var (n', r) := Get(sch, me, ttl, n, key, env);
            && Respects(sch, me, n, n', key) && Accounts(n.c, n'.c, 0) && TakesCourse(sch, me, ttl, n, key, env, n', r)
            && (Cached(n, key, env.clock, ttl) ==> r.Ok? && n'.main == n.main && n'.hot == n.hot)
  {
    hide RoutesTo, Get, CachesPlaced, Balanced, TakesCourse;
    GetTouchesOneKey(sch, me, ttl, n, key, env);
    GetTakesCourse(sch, me, ttl, n, key, env);
    HitsAnswer(sch, me, ttl, n, key, env);
    forall uncounted: nat | Balanced(n.c, uncounted)
      ensures Balanced(Get(sch, me, ttl, n, key, env).0.c, uncounted)
    {
      CallsKeepBalance(sch, me, ttl, n, key, env, uncounted);
    }
    if CachesPlaced(sch, me, n) {
      CallsKeepPlacement(sch, me, ttl, n, key, env);
    }
  }

  lemma HitsAnswer<T>(sch: Scheme<T>, me: Peer, ttl: nat, n: Node<T>, key: string, env: Env)
    ensures Cached(n, key, env.clock, ttl) ==> Get(sch, me, ttl, n, key, env).1.Ok?
  {
    hide LookupPeer, GetOrJoin;
  }

  /** After a remove the key is out of the hot cache and, on its owner, out of both; nothing else changes. */
  ghost predicate Removes<T>(sch: Scheme<T>, me: Peer, n: Node<T>, n': Node<T>, key: string) {
    && Respects(sch, me, n, n', key) && n'.c == n.c && key !in n'.hot
    && (if RoutesTo(sch, n.table, key, me) then key !in n'.main else n'.main == n.main)
  }

  /** A remove succeeds on the owner, and elsewhere exactly if the request does; an error tells why. */
  ghost predicate RemoveAnswers<T>(sch: Scheme<T>, me: Peer, n: Node<T>, key: string, env: Env, r: Answer) {
    var route := LookupPeer(sch, n.table, key);
    && (r == Removed <==>
          route.Found? && (route.peer == me || (route.client.Some? && env.removedRemotely)))
    && (r == Err(RingIsEmpty) <==> route.EmptyRing?)
    && (r == Err(NoClient) <==> route.Found? && route.peer != me && route.client.None?)
    && (r == Err(RpcFailed) <==> route.Found? && route.peer != me && route.client.Some? && !env.removedRemotely)
  }

  lemma RemoveContract<T>(sch: Scheme<T>, me: Peer, n: Node<T>, key: string, env: Env)
    ensures var (n', r) := Remove(sch, me, n, key, env);
            Removes(sch, me, n, n', key) && RemoveAnswers(sch, me, n, key, env, r)
  {
    hide LookupPeer, CachesPlaced;
    if CachesPlaced(sch, me, n) {
      CallsKeepPlacement(sch, me, 0, n, key, env);
    }
  }

  /** Counting the request beforehand makes no other difference to a get. */
  lemma ServedLike<T>(sch: Scheme<T>, me: Peer, ttl: nat, n: Node<T>, counted: Node<T>, key: string, env: Env)
    requires counted == n.(c := n.c.(serverGets := n.c.serverGets + 1))
    ensures Cached(counted, key, env.clock, ttl) == Cached(n, key, env.clock, ttl)
    ensures LoadsInVain(sch, me, ttl, counted, key, env) == LoadsInVain(sch, me, ttl, n, key, env)
    ensures forall n' :: Respects(sch, me, counted, n', key) ==> Respects(sch, me, n, n', key)
    ensures forall c :: Accounts(counted.c, c, 0) ==> Accounts(n.c, c, 0)
    ensures var c' := Get(sch, me, ttl, counted, key, env).0.c;
            c'.serverGets == n.c.serverGets + 1 && c'.gets == n.c.gets + 1
    ensures env.joined != Removed ==> Get(sch, me, ttl, counted, key, env).1 != Removed
  {
    hide RoutesTo, LookupPeer, CachesPlaced, Get;
    SamePlacement(sch, me, n, counted);
    GetsAreCounted(sch, me, ttl, counted, key, env);
    forall c | Accounts(counted.c, c, 0) ensures Accounts(n.c, c, 0) {
      forall uncounted: nat | Balanced(n.c, uncounted) ensures Balanced(c, uncounted) {
        assert Balanced(counted.c, uncounted + 0);
      }
    }
  }

  lemma ClosureCountsNoGet<T>(me: Peer, n: Node<T>, key: string, peer: Peer, client: Option<Client>, env: Env)
    ensures var (n', r) := GetDeduped(me, n, key, peer, client, env);
            n'.c.gets == n.c.gets && n'.c.serverGets == n.c.serverGets && r != Removed
  {
  }

  lemma GetsAreCounted<T>(sch: Scheme<T>, me: Peer, ttl: nat, n: Node<T>, key: string, env: Env)
    ensures var (n', r) := Get(sch, me, ttl, n, key, env);
            n'.c.gets == n.c.gets + 1 && n'.c.serverGets == n.c.serverGets && (env.joined != Removed ==> r != Removed)
  {
    hide LookupPeer, GetDeduped;
    var route := LookupPeer(sch, n.table, key);
    if key !in n.flights && route.Found? {
      ClosureCountsNoGet(me, n.CountGet(false).OpenFlight(key, env.task), key, route.peer, route.client, env);
    }
  }
}
