/**
 One node as the program keeps it: an object whose routing table, caches, flights and counters are updated in
 place. Membership calls are complete, with their loops. A get or a remove is one call that nothing interrupts,
 given what its environment answers; what interleaved calls do is the business of `Cluster`, whose steps use the
 same functions on nodes as the methods here.
 */
module Groupcache {
  import opened Wrappers
  import opened VNodes
  import opened HashRing
  import opened Routing
  import opened RoutingTable
  import opened Membership
  import opened NodeState
  import opened Serving

  /** How one attempt to connect to a peer goes; `Panics` is a connection task that cannot be joined. */
  datatype Attempt = Accepts(client: Client) | Refuses | Panics

  datatype SetOutcome = Updated | JoinError | ConnectionErrors(failed: seq<Peer>)

  /** The result says how the attempt for its peer went. */
  predicate Reports(net: Peer -> Attempt, r: ConnResult) {
    match net(r.peer)
    case Accepts(client) => r == Connected(r.peer, client)
    case Refuses => r == Refused(r.peer)
    case Panics => false
  }

  function Refusals(results: seq<ConnResult>): seq<Peer> {
    if results == [] then []
    else
      var last := results[|results| - 1];
      Refusals(results[..|results| - 1]) + if last.Refused? then [last.peer] else []
  }

  /** The errors are the refused peers, each of them once for each time it was refused, in the order of the results. */
  ghost predicate ReportsInOrder(results: seq<ConnResult>, errors: seq<Peer>) {
    exists at: seq<nat> :: ReportedAt(results, errors, at)
  }

  /** The `j`-th error comes from the result at `at[j]`, and no refused result is left out. */
  ghost predicate ReportedAt(results: seq<ConnResult>, errors: seq<Peer>, at: seq<nat>) {
    && |at| == |errors|
    && (forall j, k | 0 <= j < k < |at| :: at[j] < at[k])
    && (forall j | 0 <= j < |at| :: at[j] < |results| && results[at[j]] == Refused(errors[j]))
    && (forall i: nat | i < |results| && results[i].Refused? :: i in at)
  }

  lemma {:induction false} RefusalsAreReported(results: seq<ConnResult>)
    ensures ReportsInOrder(results, Refusals(results))
  {
    if results == [] {
      assert ReportedAt([], [], []);
    } else {
      var front, last := results[..|results| - 1], results[|results| - 1];
      RefusalsAreReported(front);
      var at: seq<nat> :| ReportedAt(front, Refusals(front), at);
      OneMoreReport(front, Refusals(front), at, last);
      assert front + [last] == results;
    }
  }

  lemma OneMoreReport(front: seq<ConnResult>, errors: seq<Peer>, at: seq<nat>, last: ConnResult)
    requires ReportedAt(front, errors, at)
    ensures ReportsInOrder(front + [last], errors + if last.Refused? then [last.peer] else [])
  {
    var results := front + [last];
    if last.Refused? {
      var more := at + [|front|];
      forall i: nat | i < |results| && results[i].Refused? ensures i in more {
        if i < |front| {
          assert front[i].Refused? && i in at;
        } else {
          assert more[|at|] == i;
        }
      }
      assert ReportedAt(results, errors + [last.peer], more);
    } else {
      forall i: nat | i < |results| && results[i].Refused? ensures i in at {
        assert front[i].Refused?;
      }
      assert errors + [] == errors;
      assert ReportedAt(results, errors, at);
    }
  }

  lemma ReportsAreDistinct(results: seq<ConnResult>, errors: seq<Peer>, at: seq<nat>)
    requires ReportedAt(results, errors, at) && DistinctPeers(results)
    ensures Distinct(errors)
  {
    forall j, k | 0 <= j < k < |errors| ensures errors[j] != errors[k] {
      assert at[j] < at[k];
      assert results[at[j]].peer != results[at[k]].peer;
    }
  }

  lemma ReportsAreComplete(results: seq<ConnResult>, errors: seq<Peer>, at: seq<nat>, p: Peer)
    requires ReportedAt(results, errors, at)
    ensures p in errors <==> Refused(p) in results
  {
    if p in errors {
      var j :| 0 <= j < |errors| && errors[j] == p;
      assert results[at[j]] == Refused(p);
    }
    if Refused(p) in results {
      var i :| 0 <= i < |results| && results[i] == Refused(p);
      var j :| 0 <= j < |at| && at[j] == i;
      assert errors[j] == p;
    }
  }

  /** If each peer has one result, each refused one is reported once. */
  lemma ReportsAreExact(results: seq<ConnResult>, errors: seq<Peer>)
    requires ReportsInOrder(results, errors) && DistinctPeers(results)
    ensures Distinct(errors)
    ensures forall p :: p in errors <==> Refused(p) in results
  {
    hide ReportedAt, Distinct, DistinctPeers;
    var at: seq<nat> :| ReportedAt(results, errors, at);
    ReportsAreDistinct(results, errors, at);
    forall p ensures p in errors <==> Refused(p) in results {
      ReportsAreComplete(results, errors, at, p);
    }
  }

  /** A list without repetition has as many entries as the set of them. */
  lemma {:induction false} DistinctCount(s: seq<Peer>, wanted: set<Peer>)
    requires Distinct(s) && forall p :: p in s <==> p in wanted
    ensures Lists(s, wanted)
  {
    if s == [] {
      assert wanted == {};
    } else {
      var front, last := s[..|s| - 1], s[|s| - 1];
      assert s == front + [last];
      assert forall i | 0 <= i < |front| :: front[i] == s[i] && s[i] != s[|s| - 1];
      assert forall p :: p in s <==> p in front || p == last;
      DistinctCount(front, wanted - {last});
      assert |wanted| == |wanted - {last}| + 1;
    }
  }

  /** The errors of a call are its refused new peers, each of them once. */
  lemma ErrorsListRefusals(results: seq<ConnResult>, errors: seq<Peer>, wanted: set<Peer>, net: Peer -> Attempt)
    requires Attempts(results, wanted) && forall r | r in results :: Reports(net, r)
    requires ReportsInOrder(results, errors)
    ensures Lists(errors, set p | p in wanted && net(p).Refuses?)
  {
    hide ReportsInOrder;
    ReportsAreExact(results, errors);
    AllConnected(results, wanted, net);
    DistinctCount(errors, set p | p in wanted && net(p).Refuses?);
  }

  class GroupcacheInner {
    const me: Peer
    const ttl: nat
    const routing: RoutingState
    var mainCache: map<string, MainEntry>
    var hotCache: map<string, HotEntry>
    var flights: map<string, nat>
    var counters: Counters

    /** The node as `Cluster` sees it. */
    function State(): Node<VNode>
      reads this, routing
    {
      Node(routing.Value(), mainCache, hotCache, flights, counters)
    }

    constructor (me: Peer, hash: string -> u64, ttl: nat)
      ensures this.me == me && this.ttl == ttl && routing.hash == hash && fresh(routing)
      ensures State() == Node(WithLocalPeer(Names(hash), me), map[], map[], map[], ZERO)
    {
      this.me := me;
      this.ttl := ttl;
      this.routing := new RoutingState.WithLocalPeer(hash, me);
      this.mainCache := map[];
      this.hotCache := map[];
      this.flights := map[];
      this.counters := ZERO;
    }

    // ------------------------------------------------------------ get and remove

    method LoadLocallyInstrumented(env: Env) returns (r: Answer)
      modifies this
      ensures (State(), r) == LoadLocally(old(State()), env)
    {
      counters := counters.(localLoads := counters.localLoads + 1);
      match env.load {
        case Some(data) => r := Ok(Val(data, env.loadId, env.calledAt));
        case None =>
          counters := counters.(localLoadErrors := counters.localLoadErrors + 1);
          r := Err(LoaderFailed(env.loadId));
      }
    }

    method LoadRemotelyInstrumented(env: Env) returns (r: Option<Val>)
      modifies this
      ensures r == env.reply
      ensures r.Some? ==> State() == old(State()).CountRemoteLoad()
      ensures r.None? ==> State() == old(State()).CountRemoteLoad().CountRemoteLoadError()
    {
      counters := counters.(remoteLoads := counters.remoteLoads + 1);
      r := env.reply;
      if r.None? {
        counters := counters.(remoteLoadErrors := counters.remoteLoadErrors + 1);
      }
    }

    method GetDeduped(key: string, peer: Peer, client: Option<Client>, env: Env) returns (r: Answer)
      modifies this
      ensures (State(), r) == Serving.GetDeduped(me, old(State()), key, peer, client, env)
      ensures RoutesTo(Names(routing.hash), routing.Value(), key, peer) ==>
            Respects(Names(routing.hash), me, old(State()), State(), key)
      ensures Accounts(old(counters), counters, 1)
      ensures Remembers(me, State(), key, peer, env, r)
      ensures peer != me ==> mainCache == old(mainCache)
      ensures peer == me ==> hotCache == old(hotCache)
      ensures r.Err? ==> mainCache == old(mainCache) && hotCache == old(hotCache)
    {
      hide Names, Respects, Accounts, Remembers, RoutesTo;
      ClosureContract(Names(routing.hash), me, State(), key, peer, client, env);
      if peer == me {
        r := LoadLocallyInstrumented(env);
        if r.Ok? {
          mainCache := State().FillMain(key, r.val, env.filledAt).main;
        }
        return r;
      }
      if client.None? {
        counters := counters.(unroutable := counters.unroutable + 1);
        return Err(NoClient);
      }
      var res := LoadRemotelyInstrumented(env);
      match res {
        case Some(v) =>
          hotCache := hotCache[key := HotEntry(v, env.filledAt, env.filledClock)];
          r := Ok(v);
        case None =>
          r := LoadLocallyInstrumented(env);
      }
    }

    /** Joins the flight for the key if one is running, and runs the closure otherwise. */
    method GetDedupedInstrumented(key: string, peer: Peer, client: Option<Client>, env: Env) returns (r: Answer)
      modifies this
      ensures (State(), r) == GetOrJoin(me, old(State()), key, peer, client, env)
      ensures RoutesTo(Names(routing.hash), routing.Value(), key, peer) ==>
            Respects(Names(routing.hash), me, old(State()), State(), key)
      ensures Accounts(old(counters), counters, 1)
      ensures key in old(flights) ==> r == env.joined && mainCache == old(mainCache) && hotCache == old(hotCache)
      ensures key !in old(flights) ==> Remembers(me, State(), key, peer, env, r)
    {
      hide Serving.GetDeduped, Names, Respects, Accounts, Remembers, RoutesTo;
      FlightContract(Names(routing.hash), me, State(), key, peer, client, env);
      if key in flights {
        counters := counters.(joins := counters.joins + 1);
        return env.joined;
      }
      flights := flights[key := env.task];
      r := GetDeduped(key, peer, client, env);
      flights := flights - {key};
    }

    /** With ring and map in step, only a failing load can make a get fail. */
    method GetInternal(key: string, env: Env) returns (r: Answer)
      modifies this
      ensures (State(), r) == Serving.Get(Names(routing.hash), me, ttl, old(State()), key, env)
      ensures Collisionless(routing.hash) && Synced(Names(routing.hash), me, routing.Value()) ==>
                (r.Err? <==> LoadsInVain(Names(routing.hash), me, ttl, old(State()), key, env))
      ensures Respects(Names(routing.hash), me, old(State()), State(), key)
      ensures Accounts(old(counters), counters, 0)
      ensures TakesCourse(Names(routing.hash), me, ttl, old(State()), key, env, State(), r)
      ensures Cached(old(State()), key, env.clock, ttl) ==>
            r.Ok? && mainCache == old(mainCache) && hotCache == old(hotCache)
    {
      hide Names, Synced, Collisionless, Routing.LookupPeer, RoutesTo;
      hide GetOrJoin, LoadsInVain, Respects, Accounts, Remembers, TakesCourse;
      GetContract(Names(routing.hash), me, ttl, State(), key, env);
      OnlyLoadsFail(routing.hash, me, ttl, State(), key, env);
      counters := counters.(gets := counters.gets + 1);
      var cached := State().MainGet(key);
      if cached.Some? {
        counters := counters.(hits := counters.hits + 1);
        return Ok(cached.value);
      }
      cached := State().HotGet(key, env.clock, ttl);
      if cached.Some? {
        counters := counters.(hits := counters.hits + 1);
        return Ok(cached.value);
      }
      match routing.LookupPeer(key) {
        case EmptyRing =>
          counters := counters.(unroutable := counters.unroutable + 1);
          r := Err(RingIsEmpty);
        case Found(peer, client) =>
          r := GetDedupedInstrumented(key, peer, client, env);
      }
    }

    method RemoveInternal(key: string, env: Env) returns (r: Answer)
      modifies this
      ensures (State(), r) == Serving.Remove(Names(routing.hash), me, old(State()), key, env)
      ensures Removes(Names(routing.hash), me, old(State()), State(), key)
      ensures RemoveAnswers(Names(routing.hash), me, old(State()), key, env, r)
    {
      hide Names, Routing.LookupPeer, Removes, RemoveAnswers;
      RemoveContract(Names(routing.hash), me, State(), key, env);
      hotCache := hotCache - {key};
      match routing.LookupPeer(key) {
        case EmptyRing => r := Err(RingIsEmpty);
        case Found(peer, client) =>
          if peer == me {
            mainCache := mainCache - {key};
            r := Removed;
          } else if client.None? {
            r := Err(NoClient);
          } else {
            r := if env.removedRemotely then Removed else Err(RpcFailed);
          }
      }
    }

    /** Serves the get of another node; every error becomes a failed request. */
    method ServeGet(key: string, env: Env) returns (reply: Option<Val>)
      modifies this
      ensures var n := old(State());
              var (n', r) := Serving.Get(Names(routing.hash), me, ttl, n.(c := n.c.(serverGets := n.c.serverGets + 1)),
                                         key, env);
              State() == n' && (reply == match r { case Ok(v) => Some(v) case _ => None })
      ensures counters.serverGets == old(counters.serverGets) + 1 && counters.gets == old(counters.gets) + 1
      ensures Respects(Names(routing.hash), me, old(State()), State(), key) && Accounts(old(counters), counters, 0)
      ensures Cached(old(State()), key, env.clock, ttl) ==>
            reply.Some? && mainCache == old(mainCache) && hotCache == old(hotCache)
      ensures Collisionless(routing.hash) && Synced(Names(routing.hash), me, routing.Value()) &&
              env.joined != Removed ==>
                (reply.None? <==> LoadsInVain(Names(routing.hash), me, ttl, old(State()), key, env))
    {
      hide Names, Serving.Get, Synced, Collisionless, LoadsInVain, RoutesTo, TakesCourse, Respects, Accounts;
      ghost var before := State();
      counters := counters.(serverGets := counters.serverGets + 1);
      ghost var counted := State();
      ServedLike(Names(routing.hash), me, ttl, before, counted, key, env);
      var r := GetInternal(key, env);
      match r {
        case Ok(v) => reply := Some(v);
        case _ => reply := None;
      }
    }

    /** Serves the remove of another node; every error becomes a failed request. */
    method ServeRemove(key: string, env: Env) returns (ok: bool)
      modifies this
      ensures var (n', r) := Serving.Remove(Names(routing.hash), me, old(State()), key, env);
              State() == n' && (ok <==> !r.Err?)
      ensures Removes(Names(routing.hash), me, old(State()), State(), key)
      ensures var route := Routing.LookupPeer(Names(routing.hash), routing.Value(), key);
              ok <==> route.Found? && (route.peer == me || (route.client.Some? && env.removedRemotely))
    {
      hide Names, Serving.Remove, RoutesTo, Respects, Routing.LookupPeer;
      var r := RemoveInternal(key, env);
      return !r.Err?;
    }

    // -------------------------------------------------------------- membership

    /** Starts one connection attempt per new peer and collects them as they complete. */
    method ConnectToNewPeers(updated: set<Peer>, current: set<Peer>, net: Peer -> Attempt)
      returns (r: Result<seq<ConnResult>, Peer>)
      ensures r.Failure? <==> exists p :: p in updated && p !in current && net(p).Panics?
      ensures r.Success? ==> Attempts(r.value, updated - current) && forall c | c in r.value :: Reports(net, c)
    {
      hide Attempts, Collected;
      ghost var wanted := updated - current;
      var todo := updated - current;
      var running: set<Peer> := {};
      while todo != {}
        invariant todo !! running && todo + running == wanted
      {
        var p :| p in todo;
        running := running + {p};
        todo := todo - {p};
      }
      var results: seq<ConnResult> := [];
      NothingCollected(net);
      assert wanted - running == {};
      while running != {}
        invariant running <= wanted && Collected(net, results, wanted - running)
      {
        var p :| p in running;
        var one: ConnResult;
        match net(p) {
          case Panics => return Failure(p);
          case Accepts(client) => one := Connected(p, client);
          case Refuses => one := Refused(p);
        }
        OneMoreAttempt(net, results, wanted - running, one);
        OneLess(wanted, running, p);
        results := results + [one];
        running := running - {p};
      }
      assert wanted - running == wanted;
      AllCollected(net, results, wanted);
      return Success(results);
    }

    method UpdateRoutingTable(results: seq<ConnResult>, toRemove: seq<Peer>) returns (errors: seq<Peer>)
      modifies routing
      ensures routing.Value() == UpdateTable(Names(routing.hash), old(routing.Value()), results, toRemove)
      ensures ReportsInOrder(results, errors)
    {
      hide Names, AddVNodes, RemoveVNodes, Synced, ReportsInOrder;
      errors := [];
      for i := 0 to |results|
        invariant routing.Value() == AddConnected(Names(routing.hash), old(routing.Value()), results[..i])
        invariant errors == Refusals(results[..i])
      {
        assert results[..i + 1][..i] == results[..i];
        match results[i] {
          case Connected(peer, client) => routing.AddPeer(peer, client);
          case Refused(peer) => errors := errors + [peer];
        }
      }
      assert results[..|results|] == results;
      ghost var added := routing.Value();
      for i := 0 to |toRemove|
        invariant routing.Value() == RemoveListed(Names(routing.hash), added, toRemove[..i])
      {
        assert toRemove[..i + 1][..i] == toRemove[..i];
        routing.RemovePeer(toRemove[i]);
      }
      assert toRemove[..|toRemove|] == toRemove;
      RefusalsAreReported(results);
    }

    method Listing(s: set<Peer>) returns (list: seq<Peer>)
      ensures Lists(list, s)
    {
      var rest := s;
      list := [];
      while rest != {}
        invariant rest <= s && Lists(list, s - rest)
      {
        var p :| p in rest;
        assert s - (rest - {p}) == (s - rest) + {p};
        list := list + [p];
        rest := rest - {p};
      }
      assert s - rest == s;
    }

    /** Replaces the membership by `updated`, as far as the new peers can be reached. */
    method SetPeers(updated: set<Peer>, net: Peer -> Attempt) returns (r: SetOutcome, ghost op: MemberOp)
      modifies routing
      ensures op.SetAll? && op.updated == updated && Admissible(old(routing.Value()), op)
      ensures routing.Value() == ApplyOp(Names(routing.hash), old(routing.Value()), op)
      ensures Collisionless(routing.hash) && Synced(Names(routing.hash), me, old(routing.Value())) ==>
                Synced(Names(routing.hash), me, routing.Value())
      ensures r.JoinError? <==> exists p :: p in updated && p !in old(routing.peers) && net(p).Panics?
      ensures r.JoinError? ==> routing.Value() == old(routing.Value())
      ensures !r.JoinError? ==>
                && (forall p :: p in routing.peers <==> p in updated && (p in old(routing.peers) || net(p).Accepts?))
                && (forall p | p in routing.peers ::
                      routing.peers[p] == if p in old(routing.peers) then old(routing.peers)[p] else net(p).client)
      ensures r.Updated? <==> forall p | p in updated && p !in old(routing.peers) :: net(p).Accepts?
      ensures r.ConnectionErrors? ==>
                Lists(r.failed, set p | p in updated && p !in old(routing.peers) && net(p).Refuses?)
    {
      hide Names, UpdateTable, Synced, Collisionless, ReportsInOrder;
      var current := routing.Peers();
      var attempts := ConnectToNewPeers(updated, current, net);
      if attempts.Failure? {
        op := SetAll(updated, false, [], []);
        return JoinError, op;
      }
      var results := attempts.value;
      var toRemove := Listing(current - updated);
      op := SetAll(updated, true, results, toRemove);
      CallKeepsSync(routing.hash, me, routing.Value(), op);
      if |toRemove| == 0 && |results| == 0 {
        NothingToDo(Names(routing.hash), routing.Value(), results, toRemove);
        assert updated - current == {} && current - updated == {};
        return Updated, op;
      }
      var errors := UpdateRoutingTable(results, toRemove);
      SetPeersEffect(Names(routing.hash), old(routing.Value()), updated, net, results, toRemove);
      ErrorsListRefusals(results, errors, updated - current, net);
      NoErrorsNoRefusals(errors, results, updated - current, net);
      assert (set p | p in updated - current && net(p).Refuses?)
          == set p | p in updated && p !in old(routing.peers) && net(p).Refuses?;
      r := if |errors| == 0 then Updated else ConnectionErrors(errors);
    }

    /** Connects to one more peer; a peer already connected is left alone, a failed connection changes nothing. */
    method AddPeer(peer: Peer, net: Peer -> Attempt) returns (ok: bool)
      modifies routing
      ensures ok <==> peer in old(routing.peers) || net(peer).Accepts?
      ensures routing.Value() == ApplyOp(Names(routing.hash), old(routing.Value()),
                                         AddOne(peer, if net(peer).Accepts? then Some(net(peer).client) else None))
      ensures Collisionless(routing.hash) && Synced(Names(routing.hash), me, old(routing.Value())) ==>
                Synced(Names(routing.hash), me, routing.Value())
      ensures peer !in old(routing.peers) && ok ==> routing.peers == old(routing.peers)[peer := net(peer).client]
      ensures peer in old(routing.peers) || !ok ==> routing.Value() == old(routing.Value())
    {
      hide Names, AddVNodes, Synced, Collisionless;
      ghost var client := if net(peer).Accepts? then Some(net(peer).client) else None;
      CallKeepsSync(routing.hash, me, routing.Value(), AddOne(peer, client));
      if routing.ContainsPeer(peer) {
        return true;
      }
      if !net(peer).Accepts? {
        return false;
      }
      routing.AddPeer(peer, net(peer).client);
      return true;
    }

    method RemovePeer(peer: Peer)
      modifies routing
      ensures routing.Value() == ApplyOp(Names(routing.hash), old(routing.Value()), RemoveOne(peer))
      ensures Collisionless(routing.hash) && Synced(Names(routing.hash), me, old(routing.Value())) ==>
                Synced(Names(routing.hash), me, routing.Value())
      ensures routing.peers == old(routing.peers) - {peer}
    {
      hide Names, RemoveVNodes, Synced, Collisionless;
      CallKeepsSync(routing.hash, me, routing.Value(), RemoveOne(peer));
      if !routing.ContainsPeer(peer) {
        return;
      }
      routing.RemovePeer(peer);
    }
  }

  lemma OneLess(wanted: set<Peer>, running: set<Peer>, p: Peer)
    requires running <= wanted && p in running
    ensures wanted - (running - {p}) == (wanted - running) + {p}
  {
  }

  /** The attempts for the peers in `done` have come back, and are reported as they went. */
  ghost predicate Collected(net: Peer -> Attempt, results: seq<ConnResult>, done: set<Peer>) {
    && Attempts(results, done)
    && (forall r | r in results :: Reports(net, r))
    && (forall p | p in done :: !net(p).Panics?)
  }

  lemma NothingCollected(net: Peer -> Attempt)
    ensures Collected(net, [], {})
  {
  }

  lemma OneMoreAttempt(net: Peer -> Attempt, results: seq<ConnResult>, done: set<Peer>, one: ConnResult)
    requires Collected(net, results, done) && one.peer !in done && Reports(net, one)
    ensures Collected(net, results + [one], done + {one.peer})
  {
    var more := results + [one];
    assert one in more;
    forall p | p in done + {one.peer} ensures exists r :: r in more && r.peer == p {
      if p in done {
        var r :| r in results && r.peer == p;
        assert r in more;
      }
    }
  }

  lemma AllCollected(net: Peer -> Attempt, results: seq<ConnResult>, wanted: set<Peer>)
    requires Collected(net, results, wanted)
    ensures Attempts(results, wanted) && forall r | r in results :: Reports(net, r)
    ensures forall p | p in wanted :: !net(p).Panics?
  {
  }

  lemma CallKeepsSync(hash: string -> u64, me: Peer, t: Table<VNode>, op: MemberOp)
    requires Admissible(t, op)
    ensures Collisionless(hash) && Synced(Names(hash), me, t) ==> Synced(Names(hash), me, ApplyOp(Names(hash), t, op))
  {
    hide Names, Synced, ApplyOp, Collisionless;
    if Collisionless(hash) && Synced(Names(hash), me, t) {
      NamesAreSound(hash);
      OpKeepsSync(Names(hash), me, t, op);
    }
  }

  lemma OnlyLoadsFail(hash: string -> u64, me: Peer, ttl: nat, n: Node<VNode>, key: string, env: Env)
    ensures Collisionless(hash) && Synced(Names(hash), me, n.table) ==>
              (Serving.Get(Names(hash), me, ttl, n, key, env).1.Err? <==>
                    LoadsInVain(Names(hash), me, ttl, n, key, env))
  {
    hide Names, Synced, Collisionless, LoadsInVain, Serving.Get;
    if Collisionless(hash) && Synced(Names(hash), me, n.table) {
      NamesAreSound(hash);
      GetFailsExactly(Names(hash), me, ttl, n, key, env);
    }
  }

  lemma NothingToDo<T>(sch: Scheme<T>, t: Table<T>, results: seq<ConnResult>, removals: seq<Peer>)
    requires results == [] && removals == []
    ensures UpdateTable(sch, t, results, removals) == t
  {
  }

  lemma AllConnected(results: seq<ConnResult>, wanted: set<Peer>, net: Peer -> Attempt)
    requires Attempts(results, wanted) && forall r | r in results :: Reports(net, r)
    ensures (forall r | r in results :: r.Connected?) <==> forall p | p in wanted :: net(p).Accepts?
    ensures forall p :: p in ConnectedPeers(results) <==> p in wanted && net(p).Accepts?
    ensures forall p :: Refused(p) in results <==> p in wanted && net(p).Refuses?
  {
  }

  lemma NoErrorsNoRefusals(errors: seq<Peer>, results: seq<ConnResult>, wanted: set<Peer>, net: Peer -> Attempt)
    requires Attempts(results, wanted) && forall r | r in results :: Reports(net, r)
    requires Lists(errors, set p | p in wanted && net(p).Refuses?)
    ensures |errors| == 0 <==> forall p | p in wanted :: net(p).Accepts?
  {
    AllConnected(results, wanted, net);
    NobodyPanicked(results, wanted, net);
    if |errors| == 0 {
      forall p | p in wanted ensures net(p).Accepts? {
        assert p !in errors;
      }
    } else {
      assert errors[0] in errors;
    }
  }

  lemma NobodyPanicked(results: seq<ConnResult>, wanted: set<Peer>, net: Peer -> Attempt)
    requires Attempts(results, wanted) && forall r | r in results :: Reports(net, r)
    ensures forall p | p in wanted :: !net(p).Panics?
  {
  }

  lemma SetPeersEffect<T>(sch: Scheme<T>, t: Table<T>, updated: set<Peer>, net: Peer -> Attempt,
                          results: seq<ConnResult>, removals: seq<Peer>)
    requires Attempts(results, updated - t.peers.Keys) && Lists(removals, t.peers.Keys - updated)
    requires forall r | r in results :: Reports(net, r)
    ensures var peers := UpdateTable(sch, t, results, removals).peers;
            && (forall p :: p in peers <==> p in updated && (p in t.peers || net(p).Accepts?))
            && (forall p | p in peers :: peers[p] == if p in t.peers then t.peers[p] else net(p).client)
  {
    hide AddConnected, RemoveListed, ConnectedPeers;
    AddConnectedPeers(sch, t, results);
    RemoveListedPeers(sch, AddConnected(sch, t, results), removals);
    AllConnected(results, updated - t.peers.Keys, net);
    forall p | p in UpdateTable(sch, t, results, removals).peers && p !in t.peers
      ensures UpdateTable(sch, t, results, removals).peers[p] == net(p).client
    {
      var r :| r in results && r.peer == p;
      assert Reports(net, r);
    }
  }
}
