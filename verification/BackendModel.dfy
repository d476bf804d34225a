/** Farms, affinity partitioning and the order in which a round-robin selector offers backends. */
module BackendModel {
  import opened Options
  import opened Modular
  import Bytes

  datatype Backend = Backend(name: string, datacenter: string, dnsBased: bool)

  type Partition = seq<Backend>

  function Flatten(parts: seq<Partition>): seq<Backend> {
    if parts == [] then [] else parts[0] + Flatten(parts[1..])
  }

  // ---- The selector ----

  /** Which partition a request falls into; |parts| when there is none. */
  function Chosen(parts: seq<Partition>, retry: nat): (i: nat)
    ensures i <= |parts|
    ensures i < |parts| ==> parts[i] != []
  {
    if parts == [] then 0
    else if retry < |parts[0]| then 0
    else 1 + Chosen(parts[1..], retry - |parts[0]|)
  }

  function Pick(parts: seq<Partition>, markers: seq<nat>, retry: nat): Option<Backend>
    requires |markers| == |parts|
  {
    if parts == [] then None
    else if retry < |parts[0]| then Some(parts[0][(markers[0] + retry) % |parts[0]|])
    else Pick(parts[1..], markers[1..], retry - |parts[0]|)
  }

  function Marked(parts: seq<Partition>, markers: seq<nat>, retry: nat): (r: seq<nat>)
    requires |markers| == |parts|
    ensures |r| == |markers|
  {
    var i := Chosen(parts, retry);
    if i < |parts| then markers[i := markers[i] + 1] else markers
  }

  function Rotated(p: Partition, marker: nat): Partition {
    if p == [] then [] else p[marker % |p|..] + p[..marker % |p|]
  }

  /** All the backends, each partition turned by its marker. */
  function Order(parts: seq<Partition>, markers: seq<nat>): seq<Backend>
    requires |markers| == |parts|
  {
    if parts == [] then [] else Rotated(parts[0], markers[0]) + Order(parts[1..], markers[1..])
  }

  lemma TurnsOnce(m: nat, r: nat, n: nat)
    requires r < n
    ensures (m + r) % n == if m % n + r < n then m % n + r else m % n + r - n
  {
    var k := m % n + r;
    assert m + r == n * (m / n) + k;
    if k < n {
      UniqueRemainder(m + r, n, m / n, k);
    } else {
      UniqueRemainder(m + r, n, m / n + 1, k - n);
    }
  }

  lemma RotatedAt(p: Partition, m: nat, r: nat)
    requires r < |p|
    ensures |Rotated(p, m)| == |p| && Rotated(p, m)[r] == p[(m + r) % |p|]
  {
    TurnsOnce(m, r, |p|);
  }

  lemma RotatedKeeps(p: Partition, m: nat)
    ensures |Rotated(p, m)| == |p| && multiset(Rotated(p, m)) == multiset(p)
  {
    if p != [] {
      var k := m % |p|;
      assert p == p[..k] + p[k..];
    }
  }

  /** Requests 0, 1, 2, ... walk along Order and then find nothing. */
  lemma {:induction false} PickFollowsOrder(parts: seq<Partition>, markers: seq<nat>, retry: nat)
    requires |markers| == |parts|
    ensures Pick(parts, markers, retry) ==
            if retry < |Order(parts, markers)| then Some(Order(parts, markers)[retry]) else None
  {
    if parts != [] {
      RotatedKeeps(parts[0], markers[0]);
      if retry < |parts[0]| {
        RotatedAt(parts[0], markers[0], retry);
      } else {
        PickFollowsOrder(parts[1..], markers[1..], retry - |parts[0]|);
      }
    }
  }

  /** Whatever the markers, each backend is offered as often as it is a member. */
  lemma {:induction false} OrderKeeps(parts: seq<Partition>, markers: seq<nat>)
    requires |markers| == |parts|
    ensures |Order(parts, markers)| == |Flatten(parts)|
    ensures multiset(Order(parts, markers)) == multiset(Flatten(parts))
  {
    if parts != [] {
      RotatedKeeps(parts[0], markers[0]);
      OrderKeeps(parts[1..], markers[1..]);
    }
  }

  // ---- The affinity policy ----

  function Only(p: Partition, datacenter: string, local: bool): (r: Partition)
    ensures forall b :: b in r ==> (b.datacenter == datacenter) == local
  {
    if p == [] then []
    else
      var rest := Only(p[..|p| - 1], datacenter, local);
      if (p[|p| - 1].datacenter == datacenter) == local then rest + [p[|p| - 1]] else rest
  }

  function IfAny(p: Partition): seq<Partition> {
    if p == [] then [] else [p]
  }

  function Divide(p: Partition, datacenter: string): seq<Partition> {
    IfAny(Only(p, datacenter, true)) + IfAny(Only(p, datacenter, false))
  }

  function Affine(parts: seq<Partition>, datacenter: string): seq<Partition> {
    if parts == [] then []
    else Affine(parts[..|parts| - 1], datacenter) + Divide(parts[|parts| - 1], datacenter)
  }

  /** One application per policy of the farm. */
  function Repartitioned(parts: seq<Partition>, datacenter: string, policies: nat): seq<Partition> {
    if policies == 0 then parts else Affine(Repartitioned(parts, datacenter, policies - 1), datacenter)
  }

  lemma FlattenStep(p: Partition, rest: seq<Partition>)
    ensures Flatten([p] + rest) == p + Flatten(rest)
  {
    assert ([p] + rest)[1..] == rest;
  }

  lemma {:induction false} FlattenConcat(a: seq<Partition>, b: seq<Partition>)
    ensures Flatten(a + b) == Flatten(a) + Flatten(b)
  {
    if a == [] {
      assert a + b == b;
    } else {
      hide Flatten;
      FlattenConcat(a[1..], b);
      FlattenStep(a[0], a[1..]);
      FlattenStep(a[0], a[1..] + b);
      assert a == [a[0]] + a[1..];
      Bytes.ConcatAssociates([a[0]], a[1..], b);
      Bytes.ConcatAssociates(a[0], Flatten(a[1..]), Flatten(b));
    }
  }

  lemma {:induction false} OnlySplits(p: Partition, datacenter: string)
    ensures multiset(Only(p, datacenter, true)) + multiset(Only(p, datacenter, false)) == multiset(p)
  {
    if p != [] {
      OnlySplits(p[..|p| - 1], datacenter);
      assert p == p[..|p| - 1] + [p[|p| - 1]];
    }
  }

  lemma DivideFlattens(p: Partition, datacenter: string)
    ensures Flatten(Divide(p, datacenter)) == Only(p, datacenter, true) + Only(p, datacenter, false)
    ensures multiset(Flatten(Divide(p, datacenter))) == multiset(p)
  {
    FlattenConcat(IfAny(Only(p, datacenter, true)), IfAny(Only(p, datacenter, false)));
    FlattenOne(Only(p, datacenter, true));
    FlattenOne(Only(p, datacenter, false));
    OnlySplits(p, datacenter);
  }

  lemma FlattenOne(p: Partition)
    ensures Flatten([p]) == p && Flatten(IfAny(p)) == p
  {
    assert [p][1..] == [];
    assert Flatten([p]) == p + Flatten([p][1..]);
  }

  lemma AffineStep(front: seq<Partition>, last: Partition, datacenter: string)
    ensures Flatten(front + [last]) == Flatten(front) + last
    ensures Flatten(Affine(front + [last], datacenter)) ==
            Flatten(Affine(front, datacenter)) + Flatten(Divide(last, datacenter))
  {
    assert (front + [last])[..|front|] == front;
    assert Affine(front + [last], datacenter) == Affine(front, datacenter) + Divide(last, datacenter);
    hide Affine, Flatten, Divide;
    FlattenConcat(front, [last]);
    FlattenOne(last);
    FlattenConcat(Affine(front, datacenter), Divide(last, datacenter));
  }

  /** Repartitioning neither loses nor repeats a backend. */
  lemma {:induction false} AffineKeeps(parts: seq<Partition>, datacenter: string)
    ensures multiset(Flatten(Affine(parts, datacenter))) == multiset(Flatten(parts))
  {
    if parts != [] {
      hide Affine, Flatten, Divide, Only;
      var front, last := parts[..|parts| - 1], parts[|parts| - 1];
      assert parts == front + [last];
      AffineKeeps(front, datacenter);
      AffineStep(front, last, datacenter);
      DivideFlattens(last, datacenter);
      SameMultisets(Flatten(Affine(front, datacenter)), Flatten(Divide(last, datacenter)), Flatten(front), last);
    }
  }

  lemma SameMultisets(a: seq<Backend>, d: seq<Backend>, f: seq<Backend>, last: seq<Backend>)
    requires multiset(a) == multiset(f) && multiset(d) == multiset(last)
    ensures multiset(a + d) == multiset(f + last)
  {
  }

  /** Nothing is left for the policy to split off. */
  predicate Settled(p: Partition, datacenter: string) {
    p != [] && forall b :: b in p ==> (b.datacenter == datacenter) == (p[0].datacenter == datacenter)
  }

  lemma {:induction false} OnlyAll(p: Partition, datacenter: string, local: bool)
    requires forall b :: b in p ==> (b.datacenter == datacenter) == local
    ensures Only(p, datacenter, local) == p && Only(p, datacenter, !local) == []
  {
    if p != [] {
      OnlyAll(p[..|p| - 1], datacenter, local);
      assert p == p[..|p| - 1] + [p[|p| - 1]];
    }
  }

  lemma {:induction false} AffineSettles(parts: seq<Partition>, datacenter: string)
    ensures forall p :: p in Affine(parts, datacenter) ==> Settled(p, datacenter)
  {
    if parts != [] {
      AffineSettles(parts[..|parts| - 1], datacenter);
    }
  }

  lemma DivideSettled(p: Partition, datacenter: string)
    requires Settled(p, datacenter)
    ensures Divide(p, datacenter) == [p]
  {
    OnlyAll(p, datacenter, p[0].datacenter == datacenter);
  }

  lemma {:induction false} SettledStays(parts: seq<Partition>, datacenter: string)
    requires forall p :: p in parts ==> Settled(p, datacenter)
    ensures Affine(parts, datacenter) == parts
  {
    hide Divide, Settled;
    if parts != [] {
      var last := parts[|parts| - 1];
      assert last in parts;
      SettledStays(parts[..|parts| - 1], datacenter);
      DivideSettled(last, datacenter);
      assert parts == parts[..|parts| - 1] + [last];
    }
  }

  /** The policy is idempotent, so only whether a farm has a policy matters, not how many. */
  lemma {:induction false} RepartitionedOnce(parts: seq<Partition>, datacenter: string, policies: nat)
    requires policies > 0
    ensures Repartitioned(parts, datacenter, policies) == Affine(parts, datacenter)
    ensures Affine(Affine(parts, datacenter), datacenter) == Affine(parts, datacenter)
  {
    AffineSettles(parts, datacenter);
    SettledStays(Affine(parts, datacenter), datacenter);
    if policies > 1 {
      RepartitionedOnce(parts, datacenter, policies - 1);
    }
  }

  /** The policy looks at each backend by itself and keeps their order. */
  lemma {:induction false} OnlyConcat(a: Partition, b: Partition, datacenter: string, local: bool)
    ensures Only(a + b, datacenter, local) == Only(a, datacenter, local) + Only(b, datacenter, local)
  {
    if b == [] {
      assert a + b == a;
    } else {
      var front, last := b[..|b| - 1], b[|b| - 1];
      assert (a + b)[..|a + b| - 1] == a + front;
      OnlyConcat(a, front, datacenter, local);
    }
  }

  lemma OnlyOne(b: Backend, datacenter: string, local: bool)
    ensures Only([b], datacenter, local) == if (b.datacenter == datacenter) == local then [b] else []
    ensures Only([], datacenter, local) == []
  {
    assert [b][..0] == [];
  }

  /** Requests go through a partition in its own order, beginning where its marker stands, before they go on to the next. */
  lemma {:induction false} PickInTurn(parts: seq<Partition>, markers: seq<nat>, i: nat, r: nat)
    requires |markers| == |parts| && i < |parts| && r < |parts[i]|
    ensures Pick(parts, markers, |Flatten(parts[..i])| + r) == Some(parts[i][(markers[i] + r) % |parts[i]|])
    ensures Chosen(parts, |Flatten(parts[..i])| + r) == i
    decreases i
  {
    if i == 0 {
      assert parts[..0] == [];
    } else {
      assert parts[..i][0] == parts[0] && parts[..i][1..] == parts[1..][..i - 1];
      assert Flatten(parts[..i]) == parts[0] + Flatten(parts[1..][..i - 1]);
      PickInTurn(parts[1..], markers[1..], i - 1, r);
    }
  }

  // ---- A farm's whole offer ----

  predicate LocalsFirst(order: seq<Backend>, datacenter: string) {
    forall i, j :: 0 <= i < j < |order| && order[j].datacenter == datacenter ==> order[i].datacenter == datacenter
  }

  lemma {:induction false} DividedOrder(p: Partition, datacenter: string, markers: seq<nat>)
    requires |markers| == |Divide(p, datacenter)|
    ensures LocalsFirst(Order(Divide(p, datacenter), markers), datacenter)
  {
    var near, far := Only(p, datacenter, true), Only(p, datacenter, false);
    var order := Order(Divide(p, datacenter), markers);
    if near == [] || far == [] {
      OrderOne(near, far, markers);
    } else {
      assert Divide(p, datacenter)[1..] == [far];
      assert markers[1..][1..] == [] && [far][1..] == [];
      assert Order([far], markers[1..]) == Rotated(far, markers[1]) + Order([far][1..], markers[1..][1..]);
      assert order == Rotated(near, markers[0]) + Rotated(far, markers[1]);
      RotatedMembers(near, markers[0]);
      RotatedMembers(far, markers[1]);
    }
  }

  lemma OrderOne(near: Partition, far: Partition, markers: seq<nat>)
    requires near == [] || far == []
    requires |markers| == |IfAny(near) + IfAny(far)|
    ensures forall b :: b in Order(IfAny(near) + IfAny(far), markers) ==> b in near + far
  {
    var parts := IfAny(near) + IfAny(far);
    if parts != [] {
      assert near + far == if near == [] then far else near;
      assert parts == [near + far];
      assert parts[1..] == [] && markers[1..] == [];
      assert Order(parts, markers) == Rotated(parts[0], markers[0]) + Order(parts[1..], markers[1..]);
      RotatedMembers(near + far, markers[0]);
    }
  }

  lemma RotatedMembers(p: Partition, m: nat)
    ensures |Rotated(p, m)| == |p|
    ensures forall b :: b in Rotated(p, m) ==> b in p
  {
  }

  /**
   * From one snapshot, requests 0..N-1 name each of the farm's N members exactly as often as it
   * is listed, those of the local datacenter before all others as soon as the farm has a
   * policy, and every later request finds nothing.
   */
  lemma FarmOffer(members: Partition, datacenter: string, policies: nat, markers: seq<nat>)
    requires |markers| == |Repartitioned([members], datacenter, policies)|
    ensures var parts := Repartitioned([members], datacenter, policies);
            var order := Order(parts, markers);
            && multiset(order) == multiset(members)
            && |order| == |members|
            && (policies > 0 ==> LocalsFirst(order, datacenter))
            && (forall k: nat :: k < |members| ==> Pick(parts, markers, k) == Some(order[k]))
            && (forall k: nat :: k >= |members| ==> Pick(parts, markers, k) == None)
  {
    var parts := Repartitioned([members], datacenter, policies);
    FlattenOne(members);
    if policies > 0 {
      RepartitionedOnce([members], datacenter, policies);
      AffineKeeps([members], datacenter);
      assert [members][..0] == [] && Affine([], datacenter) == [];
      assert parts == Divide(members, datacenter);
      DividedOrder(members, datacenter, markers);
    }
    OrderKeeps(parts, markers);
    assert |multiset(Order(parts, markers))| == |multiset(members)|;
    forall k: nat ensures Pick(parts, markers, k) ==
                          if k < |Order(parts, markers)| then Some(Order(parts, markers)[k]) else None {
      PickFollowsOrder(parts, markers, k);
    }
  }
}
