/** The backend set, the round-robin selector, the connection manager and the farm. */
module Backends {
  import opened Options
  import opened BackendModel

  class BackendSet {
    const partitions: seq<Partition>
    var markers: seq<nat>

    ghost predicate Valid()
      reads this
    {
      |markers| == |partitions|
    }

    constructor (partitions: seq<Partition>)
      ensures Valid() && this.partitions == partitions && forall i :: 0 <= i < |markers| ==> markers[i] == 0
    {
      this.partitions := partitions;
      markers := seq(|partitions|, _ => 0);
    }

    /** The bounds check admits an index one past the end, which no caller may use. */
    method MarkPartition(id: nat) returns (marker: nat)
      requires Valid() && id != |markers|
      modifies this
      ensures Valid()
      ensures id < |markers| ==> markers == old(markers)[id := old(markers)[id] + 1] && marker == markers[id]
      ensures id > |markers| ==> markers == old(markers) && marker == 0
    {
      if id > |markers| {
        return 0;
      }
      markers := markers[id := markers[id] + 1];
      return markers[id];
    }
  }

  lemma PickStep(parts: seq<Partition>, markers: seq<nat>, i: nat, retry: nat)
    requires |markers| == |parts| && i < |parts|
    ensures Pick(parts[i..], markers[i..], retry) ==
            if retry < |parts[i]| then Some(parts[i][(markers[i] + retry) % |parts[i]|])
            else Pick(parts[i + 1..], markers[i + 1..], retry - |parts[i]|)
    ensures Chosen(parts[i..], retry) ==
            if retry < |parts[i]| then 0 else 1 + Chosen(parts[i + 1..], retry - |parts[i]|)
  {
    assert parts[i..][1..] == parts[i + 1..] && markers[i..][1..] == markers[i + 1..];
  }

  /** The snapshot decides which backend; the shared set only has its marker moved on. */
  method Select(backends: BackendSet, markers: seq<nat>, retryCount: nat) returns (r: Option<Backend>)
    requires backends.Valid() && |markers| == |backends.partitions|
    modifies backends
    ensures backends.Valid()
    ensures r == Pick(backends.partitions, markers, retryCount)
    ensures backends.markers == Marked(backends.partitions, old(backends.markers), retryCount)
  {
    var parts := backends.partitions;
    var retry := retryCount;
    var i := 0;
    assert parts[0..] == parts && markers[0..] == markers;
    while i < |markers|
      invariant 0 <= i <= |markers| && retry >= 0
      invariant Pick(parts[i..], markers[i..], retry) == Pick(parts, markers, retryCount)
      invariant i + Chosen(parts[i..], retry) == Chosen(parts, retryCount)
      invariant backends.markers == old(backends.markers)
    {
      PickStep(parts, markers, i, retry);
      var partitionSize := |parts[i]|;
      if retry >= partitionSize {
        retry := retry - partitionSize;
      } else {
        var point := (markers[i] + retry) % partitionSize;
        var _ := backends.MarkPartition(i);
        return Some(parts[i][point]);
      }
      i := i + 1;
    }
    return None;
  }

  /** One session's view of its backends: the markers are copied when the session begins. */
  class ConnectionManager {
    const backends: BackendSet
    const snapshot: seq<nat>
    const robin: bool

    ghost predicate Valid()
      reads backends
    {
      backends.Valid() && Sized()
    }

    ghost predicate Sized() {
      |snapshot| == |backends.partitions|
    }

    constructor (backends: BackendSet, robin: bool)
      requires backends.Valid()
      ensures Valid() && this.backends == backends && snapshot == backends.markers && this.robin == robin
    {
      this.backends := backends;
      snapshot := backends.markers;
      this.robin := robin;
    }

    /** What each request yields. It reads no mutable state, so marking by other sessions cannot change it. */
    ghost function Connection(retry: nat): Option<Backend>
      requires Sized()
    {
      if robin then Pick(backends.partitions, snapshot, retry)
      else if retry == 0 && backends.partitions != [] && backends.partitions[0] != [] then
        Some(backends.partitions[0][0])
      else None
    }

    /** The backends in the order they are offered. */
    ghost function Offer(): seq<Backend>
      requires Sized()
    {
      if robin then Order(backends.partitions, snapshot)
      else if backends.partitions != [] && backends.partitions[0] != [] then [backends.partitions[0][0]]
      else []
    }

    lemma ConnectionFollowsOffer(retry: nat)
      requires Sized()
      ensures Connection(retry) == if retry < |Offer()| then Some(Offer()[retry]) else None
    {
      PickFollowsOrder(backends.partitions, snapshot, retry);
    }

    method GetConnection(retryCount: nat) returns (r: Option<Backend>)
      requires Valid()
      modifies backends
      ensures Valid() && r == Connection(retryCount)
      ensures backends.markers == if robin then Marked(backends.partitions, old(backends.markers), retryCount)
                                  else old(backends.markers)
    {
      if robin {
        r := Select(backends, snapshot, retryCount);
      } else {
        if retryCount > 0 {
          return None;
        }
        if |backends.partitions| == 0 {
          return None;
        }
        if |backends.partitions[0]| == 0 {
          return None;
        }
        return Some(backends.partitions[0][0]);
      }
    }
  }

  /** Splits every partition in two, the local one first, leaving out what would be empty. */
  method PartitionByAffinity(backends: BackendSet, datacenter: string) returns (r: BackendSet)
    ensures fresh(r) && r.Valid() && r.partitions == Affine(backends.partitions, datacenter)
    ensures forall i :: 0 <= i < |r.markers| ==> r.markers[i] == 0
  {
    var parts := backends.partitions;
    var partitions: seq<Partition> := [];
    for i := 0 to |parts|
      invariant partitions == Affine(parts[..i], datacenter)
    {
      var partition := parts[i];
      var withAffinity: Partition, noAffinity: Partition := [], [];
      for j := 0 to |partition|
        invariant withAffinity == Only(partition[..j], datacenter, true)
        invariant noAffinity == Only(partition[..j], datacenter, false)
      {
        assert partition[..j + 1][..j] == partition[..j];
        if partition[j].datacenter == datacenter {
          withAffinity := withAffinity + [partition[j]];
        } else {
          noAffinity := noAffinity + [partition[j]];
        }
      }
      assert partition[..|partition|] == partition;
      assert parts[..i + 1][..i] == parts[..i];
      if |withAffinity| > 0 {
        partitions := partitions + [withAffinity];
      }
      if |noAffinity| > 0 {
        partitions := partitions + [noAffinity];
      }
    }
    assert parts[..|parts|] == parts;
    r := new BackendSet(partitions);
  }

  class Datacenter {
    var name: string

    constructor (name: string)
      ensures this.name == name
    {
      this.name := name;
    }
  }

  predicate NamedByKey(store: map<string, Backend>) {
    forall m :: m in store ==> store[m].name == m
  }

  ghost function Listed(store: map<string, Backend>, members: set<string>): set<Backend>
    requires members <= store.Keys
  {
    set m | m in members :: store[m]
  }

  lemma ListedGrows(store: map<string, Backend>, done: set<string>, m: string)
    requires NamedByKey(store) && done <= store.Keys && m in store && m !in done
    ensures store[m] !in Listed(store, done)
    ensures Listed(store, done + {m}) == Listed(store, done) + {store[m]}
  {
  }

  lemma {:induction false} ListedSize(store: map<string, Backend>, members: set<string>)
    requires NamedByKey(store) && members <= store.Keys
    ensures |Listed(store, members)| == |members|
    decreases members
  {
    if members == {} {
      assert Listed(store, members) == {};
    } else {
      var m :| m in members;
      ListedSize(store, members - {m});
      ListedGrows(store, members - {m}, m);
      assert members == members - {m} + {m};
    }
  }

  /** Looks every member up, in whatever order the unordered set yields them. */
  method Enumerate(store: map<string, Backend>, members: set<string>) returns (p: Partition)
    requires NamedByKey(store) && members <= store.Keys
    ensures multiset(p) == multiset(Listed(store, members))
  {
    p := [];
    var rest := members;
    ghost var done: set<string> := {};
    assert Listed(store, {}) == {};
    while rest != {}
      invariant done + rest == members && done !! rest
      invariant multiset(p) == multiset(Listed(store, done))
      decreases rest
    {
      var m :| m in rest;
      ListedGrows(store, done, m);
      p := p + [store[m]];
      rest, done := rest - {m}, done + {m};
    }
    assert done == members;
  }

  /**
   * A farm of existing backends. `order` is whatever order the unordered member set was last
   * enumerated in and `divided` the datacenter it was last partitioned for; a change of the
   * datacenter takes effect with the next repartitioning.
   */
  class Farm {
    const store: map<string, Backend>
    const datacenter: Datacenter
    var members: set<string>
    var policies: nat
    var backendSet: BackendSet
    ghost var order: Partition
    ghost var divided: string

    ghost predicate Known()
      reads this
    {
      NamedByKey(store) && members <= store.Keys
    }

    ghost predicate Valid()
      reads this
    {
      && Known()
      && multiset(order) == multiset(Listed(store, members))
      && backendSet.partitions == Repartitioned([order], divided, policies)
    }

    constructor (members: set<string>, store: map<string, Backend>, datacenter: Datacenter)
      requires NamedByKey(store) && members <= store.Keys
      ensures Valid() && fresh(backendSet) && backendSet.Valid()
      ensures this.members == members && policies == 0 && this.store == store
      ensures this.datacenter == datacenter && divided == datacenter.name
    {
      this.store, this.datacenter := store, datacenter;
      this.members, policies := members, 0;
      backendSet := new BackendSet([]);
      new;
      Repartition();
    }

    /** A new set replaces the old one, which sessions already connecting keep. */
    method Repartition()
      requires Known()
      modifies this`backendSet, this`order, this`divided
      ensures Valid() && fresh(backendSet) && backendSet.Valid()
      ensures divided == datacenter.name
    {
      var initialPartition := Enumerate(store, members);
      var newSet := new BackendSet([initialPartition]);
      for i := 0 to policies
        invariant fresh(newSet) && newSet.Valid()
        invariant newSet.partitions == Repartitioned([initialPartition], datacenter.name, i)
      {
        newSet := PartitionByAffinity(newSet, datacenter.name);
      }
      backendSet := newSet;
      order, divided := initialPartition, datacenter.name;
    }

    method AddMember(backend: string)
      requires Valid() && backend in store
      modifies this
      ensures Valid() && fresh(backendSet) && backendSet.Valid() && divided == datacenter.name
      ensures members == old(members) + {backend} && policies == old(policies)
    {
      members := members + {backend};
      Repartition();
    }

    method RemoveMember(backend: string)
      requires Valid()
      modifies this
      ensures Valid() && fresh(backendSet) && backendSet.Valid() && divided == datacenter.name
      ensures members == old(members) - {backend} && policies == old(policies)
    {
      members := members - {backend};
      Repartition();
    }

    method AddPartitionPolicy()
      requires Valid()
      modifies this
      ensures Valid() && fresh(backendSet) && backendSet.Valid() && divided == datacenter.name
      ensures members == old(members) && policies == old(policies) + 1
    {
      policies := policies + 1;
      Repartition();
    }

    /**
     * However often the farm was repartitioned and its markers were moved, a new session is
     * offered every member exactly once, the local ones first, and then nothing.
     */
    method AcquireConnection() returns (manager: ConnectionManager)
      requires Valid() && backendSet.Valid()
      ensures manager.Valid() && fresh(manager) && manager.robin && manager.backends == backendSet && manager.snapshot == backendSet.markers
      ensures |manager.Offer()| == |members|
      ensures multiset(manager.Offer()) == multiset(Listed(store, members))
      ensures policies > 0 ==> LocalsFirst(manager.Offer(), divided)
      ensures forall k: nat :: manager.Connection(k) == if k < |members| then Some(manager.Offer()[k]) else None
    {
      manager := new ConnectionManager(backendSet, true);
      FarmOffer(order, divided, policies, manager.snapshot);
      ListedSize(store, members);
      assert |multiset(order)| == |members|;
    }
  }
}
