/**
 The state of one node, and the atomic pieces in which its gets and removes read and change it.

 Values carry the index of the load that produced them and the instant at which the loader was called for it. The
 program stores neither; they are kept here so that one can say where a cached or returned value came from.
 */
module NodeState {
  import opened Wrappers
  import opened Routing

  datatype Val = Val(data: string, load: nat, called: nat)

  datatype Failure = LoaderFailed(load: nat) | RingIsEmpty | NoClient | RpcFailed

  datatype Answer = Ok(val: Val) | Removed | Err(failure: Failure)

  /** `since` is the instant from which the key has been cached without a gap. */
  datatype MainEntry = MainEntry(val: Val, since: nat)

  /** `made` is the instant of the insertion, `at` what the clock said then; the time to live runs from `at`. */
  datatype HotEntry = HotEntry(val: Val, made: nat, at: nat)

  /**
   The exported metrics, and two counts of events that have no metric: joined flights and lookups that led nowhere.
   */
  datatype Counters = Counters(
    gets: nat, serverGets: nat, hits: nat, localLoads: nat, localLoadErrors: nat,
    remoteLoads: nat, remoteLoadErrors: nat, joins: nat, unroutable: nat)

  const ZERO := Counters(0, 0, 0, 0, 0, 0, 0, 0, 0)

  /** `flights` maps a key to whoever runs the closure of its single flight. */
  datatype Node<T> = Node(
    table: Table<T>, main: map<string, MainEntry>, hot: map<string, HotEntry>, flights: map<string, nat>, c: Counters)
  {
    function CountGet(served: bool): Node<T> {
      this.(c := c.(gets := c.gets + 1, serverGets := c.serverGets + if served then 1 else 0))
    }

    function CountHit(): Node<T> { this.(c := c.(hits := c.hits + 1)) }
    function CountJoin(): Node<T> { this.(c := c.(joins := c.joins + 1)) }
    function CountLocalLoad(): Node<T> { this.(c := c.(localLoads := c.localLoads + 1)) }
    function CountLocalLoadError(): Node<T> { this.(c := c.(localLoadErrors := c.localLoadErrors + 1)) }
    function CountRemoteLoad(): Node<T> { this.(c := c.(remoteLoads := c.remoteLoads + 1)) }
    function CountRemoteLoadError(): Node<T> { this.(c := c.(remoteLoadErrors := c.remoteLoadErrors + 1)) }
    function CountUnroutable(): Node<T> { this.(c := c.(unroutable := c.unroutable + 1)) }

    function MainGet(key: string): Option<Val> {
      if key in main then Some(main[key].val) else None
    }

    /** A hot entry is served until its time to live has passed. */
    function HotGet(key: string, clock: nat, ttl: nat): Option<Val> {
      if key in hot && clock < hot[key].at + ttl then Some(hot[key].val) else None
    }

    function FillMain(key: string, v: Val, now: nat): Node<T> {
      this.(main := main[key := MainEntry(v, if key in main then main[key].since else now)])
    }

    function FillHot(key: string, v: Val, now: nat, clock: nat): Node<T> {
      this.(hot := hot[key := HotEntry(v, now, clock)])
    }

    function ClearMain(key: string): Node<T> { this.(main := main - {key}) }
    function ClearHot(key: string): Node<T> { this.(hot := hot - {key}) }

    function OpenFlight(key: string, leader: nat): Node<T> { this.(flights := flights[key := leader]) }
    function CloseFlight(key: string): Node<T> { this.(flights := flights - {key}) }
  }
}
