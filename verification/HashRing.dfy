/**
 The consistent-hash ring: a sequence of nodes kept in the order of their 64-bit hashes.

 `Add`, `Remove` and `Get` state the contract of the ring the routing table is built on: adding keeps
 duplicates, removing takes out one entry with the hash of its argument, and a lookup returns the first
 entry whose hash is at least the hash of the key, or entry 0 when there is none.
 */
module HashRing {
  import opened Wrappers

  type u64 = x: int | 0 <= x < 0x1_0000_0000_0000_0000

  /** No two nodes share a hash. */
  ghost predicate NoCollisions<T(!new)>(hash: T -> u64) {
    forall u: T, v: T | hash(u) == hash(v) :: u == v
  }

  ghost predicate Sorted<T>(hash: T -> u64, ring: seq<T>) {
    forall i, j | 0 <= i < j < |ring| :: hash(ring[i]) <= hash(ring[j])
  }

  /** The number of leading entries with a hash below `h`. */
  function FirstAtLeast<T>(hash: T -> u64, ring: seq<T>, h: u64): (n: nat)
    ensures n <= |ring|
    ensures forall i | 0 <= i < n :: hash(ring[i]) < h
    ensures n < |ring| ==> h <= hash(ring[n])
  {
    if ring == [] || h <= hash(ring[0]) then 0 else 1 + FirstAtLeast(hash, ring[1..], h)
  }

  /** The number of leading entries with a hash of at most `h`. */
  function FirstAbove<T>(hash: T -> u64, ring: seq<T>, h: u64): (n: nat)
    ensures n <= |ring|
    ensures forall i | 0 <= i < n :: hash(ring[i]) <= h
    ensures n < |ring| ==> h < hash(ring[n])
  {
    if ring == [] || h < hash(ring[0]) then 0 else 1 + FirstAbove(hash, ring[1..], h)
  }

  function Add<T>(hash: T -> u64, ring: seq<T>, v: T): (r: seq<T>) {
    var n := FirstAbove(hash, ring, hash(v));
    ring[..n] + [v] + ring[n..]
  }

  function Remove<T>(hash: T -> u64, ring: seq<T>, v: T): (r: seq<T>) {
    var n := FirstAtLeast(hash, ring, hash(v));
    if n < |ring| && hash(ring[n]) == hash(v) then ring[..n] + ring[n + 1..] else ring
  }

  function Get<T>(hash: T -> u64, ring: seq<T>, key: u64): Option<T> {
    if ring == [] then None
    else
      var n := FirstAtLeast(hash, ring, key);
      if n == |ring| then Some(ring[0]) else Some(ring[n])
  }

  // ------------------------------------------------------- clockwise distance

  /** How far clockwise from `from` the point `to` lies. */
  function Distance(from: u64, to: u64): u64 {
    if from <= to then to - from else to - from + 0x1_0000_0000_0000_0000
  }

  lemma DistanceIsModular(from: u64, to: u64)
    ensures Distance(from, to) == (to - from) % 0x1_0000_0000_0000_0000
  {
  }

  lemma DistanceIsInjective(from: u64, a: u64, b: u64)
    requires Distance(from, a) == Distance(from, b)
    ensures a == b
  {
  }

  /** The wrapping lookup returns an entry at the smallest clockwise distance from the key. */
  lemma GetIsClosest<T>(hash: T -> u64, ring: seq<T>, key: u64)
    requires Sorted(hash, ring)
    ensures ring == [] <==> Get(hash, ring, key).None?
    ensures Get(hash, ring, key).Some? ==>
              var v := Get(hash, ring, key).value;
              v in ring && forall u | u in ring :: Distance(key, hash(v)) <= Distance(key, hash(u))
  {
    if ring != [] {
      var n := FirstAtLeast(hash, ring, key);
      var m := if n == |ring| then 0 else n;
      forall u | u in ring
        ensures Distance(key, hash(ring[m])) <= Distance(key, hash(u))
      {
        var i :| 0 <= i < |ring| && ring[i] == u;
        assert m <= i ==> hash(ring[m]) <= hash(ring[i]);
      }
    }
  }

  // -------------------------------------------------- rings as sorted multisets

  lemma CutIntoBags<T>(s: seq<T>, n: nat)
    requires n <= |s|
    ensures multiset(s) == multiset(s[..n]) + multiset(s[n..])
  {
    assert s == s[..n] + s[n..];
  }

  /** Adding puts in one more copy of the node. */
  lemma AddPutsOne<T>(hash: T -> u64, ring: seq<T>, v: T)
    ensures multiset(Add(hash, ring, v)) == multiset(ring) + multiset{v}
  {
    CutIntoBags(ring, FirstAbove(hash, ring, hash(v)));
  }

  lemma AddKeepsSorted<T>(hash: T -> u64, ring: seq<T>, v: T)
    requires Sorted(hash, ring)
    ensures Sorted(hash, Add(hash, ring, v))
  {
    var n := FirstAbove(hash, ring, hash(v));
    InsertKeepsSorted(hash, ring, n, v);
  }

  lemma InsertKeepsSorted<T>(hash: T -> u64, ring: seq<T>, n: nat, v: T)
    requires Sorted(hash, ring) && n <= |ring|
    requires forall i | 0 <= i < n :: hash(ring[i]) <= hash(v)
    requires n < |ring| ==> hash(v) <= hash(ring[n])
    ensures Sorted(hash, ring[..n] + [v] + ring[n..])
  {
    var r := ring[..n] + [v] + ring[n..];
    forall i, j | 0 <= i < j < |r| ensures hash(r[i]) <= hash(r[j]) {
      assert j > n ==> r[j] == ring[j - 1];
      assert i < n ==> r[i] == ring[i];
      assert i > n ==> r[i] == ring[i - 1];
      assert n < j && n < |ring| ==> hash(ring[n]) <= hash(ring[j - 1]);
    }
  }

  lemma RemoveKeepsSorted<T>(hash: T -> u64, ring: seq<T>, v: T)
    requires Sorted(hash, ring)
    ensures Sorted(hash, Remove(hash, ring, v))
  {
    var n := FirstAtLeast(hash, ring, hash(v));
    var r := Remove(hash, ring, v);
    forall i, j | 0 <= i < j < |r| ensures hash(r[i]) <= hash(r[j]) {
      if r != ring {
        assert r[i] == ring[if i < n then i else i + 1];
        assert r[j] == ring[if j < n then j else j + 1];
      }
    }
  }

  lemma WithoutOne<T>(s: seq<T>, n: nat)
    requires n < |s|
    ensures multiset(s[..n] + s[n + 1..]) == multiset(s) - multiset{s[n]}
  {
    assert s == s[..n] + [s[n]] + s[n + 1..];
  }

  lemma SearchFinds<T(!new)>(hash: T -> u64, ring: seq<T>, v: T)
    requires NoCollisions(hash) && Sorted(hash, ring) && v in ring
    ensures FirstAtLeast(hash, ring, hash(v)) < |ring|
    ensures ring[FirstAtLeast(hash, ring, hash(v))] == v
  {
    var n := FirstAtLeast(hash, ring, hash(v));
    var i :| 0 <= i < |ring| && ring[i] == v;
    assert n <= i && hash(ring[n]) <= hash(ring[i]);
  }

  /** Removing takes out exactly one copy of the node, and nothing when there is none. */
  lemma RemoveTakesOne<T(!new)>(hash: T -> u64, ring: seq<T>, v: T)
    requires NoCollisions(hash) && Sorted(hash, ring)
    ensures multiset(Remove(hash, ring, v)) == multiset(ring) - multiset{v}
  {
    var n := FirstAtLeast(hash, ring, hash(v));
    if v in ring {
      SearchFinds(hash, ring, v);
    }
    if n < |ring| && hash(ring[n]) == hash(v) {
      WithoutOne(ring, n);
    } else {
      assert v !in multiset(ring);
    }
  }

  lemma TailBag<T>(s: seq<T>)
    requires s != []
    ensures multiset(s[1..]) == multiset(s) - multiset{s[0]}
  {
    assert s == [s[0]] + s[1..];
  }

  lemma FirstIsLeast<T>(hash: T -> u64, ring: seq<T>, v: T)
    requires Sorted(hash, ring) && v in multiset(ring)
    ensures ring != [] && hash(ring[0]) <= hash(v)
  {
    var i :| 0 <= i < |ring| && ring[i] == v;
  }

  /** A sorted ring is determined by how often each node is on it. */
  lemma {:induction false} SortedRingsAgree<T(!new)>(hash: T -> u64, a: seq<T>, b: seq<T>)
    requires NoCollisions(hash) && Sorted(hash, a) && Sorted(hash, b)
    requires multiset(a) == multiset(b)
    ensures a == b
  {
    if a == [] {
      assert |multiset(b)| == 0;
    } else {
      FirstIsLeast(hash, b, a[0]);
      FirstIsLeast(hash, a, b[0]);
      TailBag(a);
      TailBag(b);
      SortedRingsAgree(hash, a[1..], b[1..]);
    }
  }
}
