/** The session's connection attempts, driven by completions and refining WalkModel. */
module ConnectionWalk {
  import opened Options
  import opened BackendModel
  import opened Backends
  import opened WalkModel
  import Bytes

  /** What a resolver's answer leads to, once the current backend has been looked up. */
  function Resolution(w: Walk, offer: seq<Backend>, backend: Option<Backend>, a: Answer): Walk {
    if a.failed || a.endpoints == [] then
      AttemptConnection(w.(retry := w.retry + 1, given := Unresolved(w.given)), offer, a.paused || a.finished)
    else
      var taken := if backend.Some? then Taken(backend.value, a.endpoints) else a.endpoints[..1];
      AttemptResolved(w.(endpoints := taken, index := 0, given := w.given + [taken]), offer, a.paused || a.finished)
  }

  lemma ResolvingStep(w: Walk, offer: seq<Backend>, a: Answer)
    requires Sound(w, offer) && w.phase.Resolving?
    ensures w.retry < |offer| && Step(w, offer, a) == Resolution(Ask(w), offer, Some(offer[w.retry]), a)
  {
  }

  lemma ConnectingStep(w: Walk, offer: seq<Backend>, a: Answer)
    requires Sound(w, offer) && w.phase.Connecting?
    ensures w.retry < |offer| && Step(w, offer, a) == OnConnect(w, offer, a)
  {
  }

  class Attempter {
    const manager: ConnectionManager
    var retryCounter: nat
    var resolvedEndpoints: seq<Endpoint>
    var resolvedIndex: nat
    var phase: Phase
    ghost var given: seq<seq<Endpoint>>
    ghost var tried: seq<Attempt>
    ghost var asked: seq<nat>

    ghost function State(): Walk
      reads this
    {
      Walk(retryCounter, resolvedEndpoints, resolvedIndex, phase, given, tried, asked)
    }

    ghost predicate Ready()
      reads this, manager.backends
    {
      manager.Valid()
    }

    ghost predicate Valid()
      reads this, manager.backends
    {
      Ready() && Sound(State(), manager.Offer())
    }

    /** The markers after the given requests. */
    ghost function MarkersAfter(before: seq<nat>, asks: seq<nat>): seq<nat>
      requires |before| == |manager.backends.partitions|
    {
      if manager.robin then MarkedAll(manager.backends.partitions, before, asks) else before
    }

    lemma MarkersCompose(before: seq<nat>, a: seq<nat>, b: seq<nat>)
      requires |before| == |manager.backends.partitions|
      ensures MarkersAfter(MarkersAfter(before, a), b) == MarkersAfter(before, a + b)
    {
      MarkedAllConcat(manager.backends.partitions, before, a, b);
    }

    constructor (manager: ConnectionManager)
      requires manager.Valid()
      ensures Ready() && this.manager == manager && State() == Walk(0, [], 0, Idle, [], [], [])
    {
      this.manager := manager;
      retryCounter, resolvedEndpoints, resolvedIndex, phase := 0, [], 0, Idle;
      given, tried, asked := [], [], [];
    }

    method GetConnection() returns (backend: Option<Backend>, ghost asks: seq<nat>)
      requires Ready()
      modifies this`asked, manager.backends
      ensures Ready() && State() == Ask(old(State()))
      ensures manager.backends.markers == MarkersAfter(old(manager.backends.markers), asks) && asked == old(asked) + asks
      ensures backend == if retryCounter < |manager.Offer()| then Some(manager.Offer()[retryCounter]) else None
    {
      manager.ConnectionFollowsOffer(retryCounter);
      backend := manager.GetConnection(retryCounter);
      asks := [retryCounter];
      asked := asked + asks;
      MarkedAllStep(manager.backends.partitions, old(manager.backends.markers), [], retryCounter);
      assert [] + asks == asks;
    }

    method AttemptConnection(paused: bool, finished: bool) returns (ghost asks: seq<nat>)
      requires Ready()
      modifies this, manager.backends
      ensures Ready() && State() == WalkModel.AttemptConnection(old(State()), manager.Offer(), paused || finished)
      ensures manager.backends.markers == MarkersAfter(old(manager.backends.markers), asks) && asked == old(asked) + asks
    {
      asks := [];
      if paused {
        phase := Stopped;
        return;
      }
      if finished {
        phase := Stopped;
        return;
      }
      var backend;
      backend, asks := GetConnection();
      if backend.None? {
        phase := Disconnected;
        return;
      }
      phase := Resolving;
    }

    method AttemptResolvedConnection(paused: bool, finished: bool) returns (ghost asks: seq<nat>)
      requires Ready()
      modifies this, manager.backends
      ensures Ready() && State() == AttemptResolved(old(State()), manager.Offer(), paused || finished)
      ensures manager.backends.markers == MarkersAfter(old(manager.backends.markers), asks) && asked == old(asked) + asks
    {
      if resolvedEndpoints == [] || resolvedIndex >= |resolvedEndpoints| {
        resolvedEndpoints := [];
        resolvedIndex := 0;
        retryCounter := retryCounter + 1;
        asks := AttemptConnection(paused, finished);
      } else {
        var index := resolvedIndex;
        resolvedIndex := resolvedIndex + 1;
        var endpoint := resolvedEndpoints[index];
        tried := tried + [Attempt(retryCounter, index, endpoint)];
        phase := Connecting(endpoint);
        asks := [];
      }
    }

    method UseResolved(backend: Option<Backend>, a: Answer) returns (ghost asks: seq<nat>)
      requires Ready()
      modifies this, manager.backends
      ensures Ready() && State() == Resolution(old(State()), manager.Offer(), backend, a)
      ensures manager.backends.markers == MarkersAfter(old(manager.backends.markers), asks) && asked == old(asked) + asks
    {
      if !a.failed && a.endpoints != [] {
        if backend.Some? && backend.value.dnsBased {
          resolvedEndpoints := a.endpoints;
        } else {
          resolvedEndpoints := [a.endpoints[0]];
          assert resolvedEndpoints == a.endpoints[..1];
        }
        given := given + [resolvedEndpoints];
        resolvedIndex := 0;
        asks := AttemptResolvedConnection(a.paused, a.finished);
      } else {
        given := Unresolved(given);
        retryCounter := retryCounter + 1;
        asks := AttemptConnection(a.paused, a.finished);
      }
    }

    /** The resolver's completion. */
    method HandleResolved(a: Answer) returns (ghost asks: seq<nat>)
      requires Valid() && phase.Resolving?
      modifies this, manager.backends
      ensures Valid() && State() == Step(old(State()), manager.Offer(), a)
      ensures manager.backends.markers == MarkersAfter(old(manager.backends.markers), asks) && asked == old(asked) + asks
    {
      StepStaysSound(State(), manager.Offer(), a);
      ResolvingStep(State(), manager.Offer(), a);
      hide Sound, Step, Resolution, MarkersAfter;
      var currentBackend, first := GetConnection();
      ghost var rest := UseResolved(currentBackend, a);
      MarkersCompose(old(manager.backends.markers), first, rest);
      Bytes.ConcatAssociates(old(asked), first, rest);
      asks := first + rest;
    }

    /** The connect's completion: the backend it looks up again is never missing. */
    method HandleConnected(a: Answer) returns (ghost asks: seq<nat>)
      requires Valid() && phase.Connecting?
      modifies this, manager.backends
      ensures Valid() && State() == Step(old(State()), manager.Offer(), a)
      ensures manager.backends.markers == MarkersAfter(old(manager.backends.markers), asks) && asked == old(asked) + asks
    {
      StepStaysSound(State(), manager.Offer(), a);
      ConnectingStep(State(), manager.Offer(), a);
      hide Sound, Step, AttemptResolved, MarkersAfter;
      var currentBackend, first := GetConnection();
      if a.failed {
        ghost var rest := AttemptResolvedConnection(a.paused, a.finished);
        MarkersCompose(old(manager.backends.markers), first, rest);
        Bytes.ConcatAssociates(old(asked), first, rest);
        asks := first + rest;
        return;
      }
      asks := first;
      phase := Connected(currentBackend.value);
    }
  }

  lemma {:induction false} MarkedAllConcat(parts: seq<Partition>, markers: seq<nat>, a: seq<nat>, b: seq<nat>)
    requires |markers| == |parts|
    ensures MarkedAll(parts, MarkedAll(parts, markers, a), b) == MarkedAll(parts, markers, a + b)
  {
    if b == [] {
      assert a + b == a;
    } else {
      var front := b[..|b| - 1];
      MarkedAllConcat(parts, markers, a, front);
      assert a + b == a + front + [b[|b| - 1]];
      MarkedAllStep(parts, markers, a + front, b[|b| - 1]);
    }
  }
}
