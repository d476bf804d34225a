/** Pooled buffers and the handles that own them. */
module BufferPools {
  import opened Bytes

  predicate Ascending(s: seq<nat>) {
    forall i, j :: 0 <= i < j < |s| ==> s[i] <= s[j]
  }

  lemma PrependAscending(x: nat, s: seq<nat>)
    requires Ascending(s) && forall y :: y in s ==> x <= y
    ensures Ascending([x] + s)
  {
    forall i, j | 0 <= i < j < |s| + 1 ensures ([x] + s)[i] <= ([x] + s)[j] {
      assert ([x] + s)[j] == s[j - 1];
      assert s[j - 1] in s;
    }
  }

  function Insert(x: nat, s: seq<nat>): seq<nat> {
    if s == [] then [x]
    else if x <= s[0] then [x] + s
    else [s[0]] + Insert(x, s[1..])
  }

  lemma {:induction false} InsertKeeps(x: nat, s: seq<nat>)
    ensures multiset(Insert(x, s)) == multiset(s) + multiset{x}
  {
    if s != [] && s[0] < x {
      InsertKeeps(x, s[1..]);
      assert s == [s[0]] + s[1..];
    }
  }

  lemma {:induction false} InsertOrders(x: nat, s: seq<nat>)
    requires Ascending(s)
    ensures Ascending(Insert(x, s))
  {
    if s == [] {
    } else if x <= s[0] {
      PrependAscending(x, s);
    } else {
      var r := Insert(x, s[1..]);
      InsertOrders(x, s[1..]);
      InsertKeeps(x, s[1..]);
      forall y | y in r ensures s[0] <= y {
        assert y in multiset(r);
      }
      hide Insert;
      PrependAscending(s[0], r);
    }
  }

  function Sort(s: seq<nat>): seq<nat> {
    if s == [] then [] else Insert(s[0], Sort(s[1..]))
  }

  lemma {:induction false} SortSorts(s: seq<nat>)
    ensures Ascending(Sort(s)) && multiset(Sort(s)) == multiset(s)
  {
    if s != [] {
      SortSorts(s[1..]);
      InsertOrders(s[0], Sort(s[1..]));
      InsertKeeps(s[0], Sort(s[1..]));
      assert s == [s[0]] + s[1..];
    }
  }

  /**
   * The pool knows which buffers are out. Giving one back is allowed only while it is out,
   * so a buffer handed out once is given back at most once.
   */
  class BufferPool {
    const buckets: seq<nat>
    var spillover: nat
    ghost var live: set<array<Byte>>
    ghost var returned: set<array<Byte>>

    ghost predicate Valid()
      reads this
    {
      live !! returned && Ascending(buckets)
    }

    constructor (buckets: seq<nat>)
      ensures Valid() && live == {} && returned == {} && multiset(this.buckets) == multiset(buckets) && spillover == 0
    {
      SortSorts(buckets);
      this.buckets := Sort(buckets);
      spillover := 0;
      live, returned := {}, {};
    }

    /** The smallest bucket that is large enough, or the heap when there is none. */
    method Acquire(size: nat) returns (mem: array<Byte>)
      requires Valid()
      modifies this
      ensures Valid()
      ensures fresh(mem) && size <= mem.Length
      ensures live == old(live) + {mem} && returned == old(returned) && mem !in old(live) && mem !in returned
      ensures forall i :: 0 <= i < |buckets| && size <= buckets[i] ==> mem.Length <= buckets[i]
      ensures spillover == old(spillover) + if exists i :: 0 <= i < |buckets| && size <= buckets[i] then 0 else 1
    {
      for i := 0 to |buckets|
        invariant forall j :: 0 <= j < i ==> buckets[j] < size
        invariant live == old(live) && returned == old(returned) && spillover == old(spillover)
      {
        if size <= buckets[i] {
          mem := new Byte[buckets[i]](_ => 0);
          live := live + {mem};
          return;
        }
      }
      mem := new Byte[size](_ => 0);
      live := live + {mem};
      spillover := spillover + 1;
    }

    method Return(mem: array<Byte>)
      requires Valid() && mem in live
      modifies this
      ensures Valid()
      ensures live == old(live) - {mem} && returned == old(returned) + {mem} && spillover == old(spillover)
    {
      live, returned := live - {mem}, returned + {mem};
    }
  }

  class BufferHandle {
    var data: array?<Byte>
    var size: nat

    constructor ()
      ensures data == null && size == 0
    {
      data, size := null, 0;
    }

    /** What this handle is answerable for. */
    ghost function Owned(): set<array<Byte>>
      reads this
    {
      if data == null then {} else {data}
    }

    ghost predicate Fits()
      reads this
    {
      if data == null then size == 0 else size <= data.Length
    }

    ghost predicate Valid(pool: BufferPool)
      reads this, pool
    {
      Fits() && Owned() <= pool.live
    }

    method Release(pool: BufferPool)
      requires pool.Valid() && Valid(pool)
      modifies this, pool
      ensures pool.Valid() && data == null && size == 0
      ensures pool.live == old(pool.live) - old(Owned()) && pool.returned == old(pool.returned) + old(Owned())
    {
      if data != null {
        pool.Return(data);
      }
      data, size := null, 0;
    }

    method Assign(pool: BufferPool, mem: array<Byte>, size: nat)
      requires pool.Valid() && Valid(pool) && mem in pool.live && mem !in Owned() && size <= mem.Length
      modifies this, pool
      ensures pool.Valid() && Valid(pool) && data == mem && this.size == size
      ensures pool.live == old(pool.live) - old(Owned()) && pool.returned == old(pool.returned) + old(Owned())
    {
      Release(pool);
      data, this.size := mem, size;
    }

    method Swap(other: BufferHandle)
      requires other != this
      modifies this, other
      ensures data == old(other.data) && size == old(other.size) && other.data == old(data) && other.size == old(size)
    {
      var d, s := data, size;
      data, size := other.data, other.size;
      other.data, other.size := d, s;
    }
  }

  /** A fresh buffer replaces the one held, which goes back to the pool. */
  method AcquireInto(pool: BufferPool, handle: BufferHandle, size: nat)
    requires pool.Valid() && handle.Valid(pool)
    modifies pool, handle
    ensures pool.Valid() && handle.Valid(pool) && handle.data != null && fresh(handle.data) && handle.size == size
    ensures pool.live == old(pool.live) - old(handle.Owned()) + {handle.data}
    ensures pool.returned == old(pool.returned) + old(handle.Owned())
  {
    var mem := pool.Acquire(size);
    handle.Assign(pool, mem, size);
  }

  /** A fresh buffer in one handle; the other keeps what that one held, and gives back its own. */
  method Rotate(pool: BufferPool, data: BufferHandle, spare: BufferHandle, size: nat)
    requires pool.Valid() && data != spare && data.Valid(pool) && spare.Valid(pool) && data.Owned() !! spare.Owned()
    modifies pool, data, spare
    ensures pool.Valid() && data.Valid(pool) && spare.Valid(pool) && data.Owned() !! spare.Owned()
    ensures data.data != null && fresh(data.data) && data.size == size && spare.data == old(data.data)
    ensures pool.live == old(pool.live) - old(spare.Owned()) + {data.data}
    ensures pool.returned == old(pool.returned) + old(spare.Owned())
  {
    spare.Swap(data);
    AcquireInto(pool, data, size);
  }
}
