/** A session's search for a backend, as a state machine over the answers of DNS and connect. */
module WalkModel {
  import opened BackendModel
  import opened Fairness

  type Endpoint = nat

  datatype Phase = Idle | Resolving | Connecting(endpoint: Endpoint) | Connected(backend: Backend) | Disconnected | Stopped

  datatype Attempt = Attempt(retry: nat, index: nat, endpoint: Endpoint)

  /**
   * `retry`, `endpoints` and `index` are the session's counters. The rest is history: `given`
   * holds the endpoints taken for each backend so far, `tried` the connects begun and `asked`
   * the retry numbers put to the connection manager.
   */
  datatype Walk = Walk(retry: nat, endpoints: seq<Endpoint>, index: nat, phase: Phase,
                       given: seq<seq<Endpoint>>, tried: seq<Attempt>, asked: seq<nat>)

  /** One completion, with the session's flags as they are when it arrives. */
  datatype Answer = Answer(failed: bool, endpoints: seq<Endpoint>, paused: bool, finished: bool)

  predicate Final(w: Walk) {
    w.phase.Connected? || w.phase.Disconnected? || w.phase.Stopped?
  }

  function Ask(w: Walk): Walk {
    w.(asked := w.asked + [w.retry])
  }

  function AttemptConnection(w: Walk, offer: seq<Backend>, held: bool): Walk {
    if held then w.(phase := Stopped)
    else Ask(w).(phase := if w.retry < |offer| then Resolving else Disconnected)
  }

  function AttemptResolved(w: Walk, offer: seq<Backend>, held: bool): Walk {
    if w.index < |w.endpoints| then
      w.(index := w.index + 1, phase := Connecting(w.endpoints[w.index]),
         tried := w.tried + [Attempt(w.retry, w.index, w.endpoints[w.index])])
    else AttemptConnection(w.(endpoints := [], index := 0, retry := w.retry + 1), offer, held)
  }

  /** Only a backend named by DNS uses more than the first endpoint. */
  function Taken(b: Backend, endpoints: seq<Endpoint>): seq<Endpoint> {
    if b.dnsBased || endpoints == [] then endpoints else endpoints[..1]
  }

  /** A backend that did not resolve has no endpoints. */
  function Unresolved(given: seq<seq<Endpoint>>): seq<seq<Endpoint>> {
    given + [[]]
  }

  function OnResolved(w: Walk, offer: seq<Backend>, a: Answer): Walk
    requires w.retry < |offer|
  {
    if !a.failed && a.endpoints != [] then
      var taken := Taken(offer[w.retry], a.endpoints);
      AttemptResolved(Ask(w).(endpoints := taken, index := 0, given := w.given + [taken]), offer, a.paused || a.finished)
    else
      AttemptConnection(Ask(w).(retry := w.retry + 1, given := Unresolved(w.given)), offer, a.paused || a.finished)
  }

  function OnConnect(w: Walk, offer: seq<Backend>, a: Answer): Walk
    requires w.retry < |offer|
  {
    if a.failed then AttemptResolved(Ask(w), offer, a.paused || a.finished)
    else Ask(w).(phase := Connected(offer[w.retry]))
  }

  function Begin(offer: seq<Backend>, held: bool): Walk {
    AttemptConnection(Walk(0, [], 0, Idle, [], [], []), offer, held)
  }

  function Step(w: Walk, offer: seq<Backend>, a: Answer): Walk
    requires Sound(w, offer)
  {
    match w.phase
    case Resolving => OnResolved(w, offer, a)
    case Connecting(_) => OnConnect(w, offer, a)
    case _ => w
  }

  // ---- What every walk keeps ----

  function AttemptsOn(retry: nat, endpoints: seq<Endpoint>): seq<Attempt> {
    seq(|endpoints|, i requires 0 <= i < |endpoints| => Attempt(retry, i, endpoints[i]))
  }

  function Attempts(given: seq<seq<Endpoint>>): seq<Attempt> {
    if given == [] then []
    else Attempts(given[..|given| - 1]) + AttemptsOn(|given| - 1, given[|given| - 1])
  }

  predicate Trying(w: Walk) {
    w.phase.Connecting? || w.phase.Connected?
  }

  /**
   * The backends before `retry` have had all their endpoints tried, in order; the present one
   * has had its first `index` endpoints tried.
   */
  ghost predicate Sound(w: Walk, offer: seq<Backend>) {
    && w.retry <= |offer|
    && !w.phase.Idle?
    && (if Trying(w) then
          && w.retry < |offer| && 0 < w.index <= |w.endpoints|
          && w.given != [] && |w.given| == w.retry + 1 && w.given[w.retry] == w.endpoints
          && w.tried == Attempts(w.given[..w.retry]) + AttemptsOn(w.retry, w.endpoints[..w.index])
        else
          |w.given| == w.retry && w.tried == Attempts(w.given))
    && (w.phase.Connecting? ==> w.phase.endpoint == w.endpoints[w.index - 1])
    && (w.phase.Connected? ==> w.phase.backend == offer[w.retry])
    && (w.phase.Resolving? ==> w.retry < |offer|)
    && (w.phase.Disconnected? ==> w.retry == |offer|)
  }

  lemma NextAttempt(retry: nat, endpoints: seq<Endpoint>, index: nat)
    requires index < |endpoints|
    ensures AttemptsOn(retry, endpoints[..index + 1]) ==
            AttemptsOn(retry, endpoints[..index]) + [Attempt(retry, index, endpoints[index])]
  {
  }

  lemma AttemptsStep(given: seq<seq<Endpoint>>, endpoints: seq<Endpoint>)
    ensures Attempts(given + [endpoints]) == Attempts(given) + AttemptsOn(|given|, endpoints)
  {
    assert (given + [endpoints])[..|given|] == given;
  }

  lemma GiveUp(w: Walk, offer: seq<Backend>, held: bool)
    requires w.retry <= |offer| && |w.given| == w.retry && w.tried == Attempts(w.given)
    ensures Sound(AttemptConnection(w, offer, held), offer)
  {
  }

  /** The next endpoint of the present backend, or the next backend. */
  lemma MoveOn(w: Walk, offer: seq<Backend>, held: bool)
    requires w.retry < |offer| && w.index <= |w.endpoints|
    requires |w.given| == w.retry + 1 && w.given[w.retry] == w.endpoints
    requires w.tried == Attempts(w.given[..w.retry]) + AttemptsOn(w.retry, w.endpoints[..w.index])
    ensures Sound(AttemptResolved(w, offer, held), offer)
  {
    hide Attempts, AttemptsOn;
    if w.index < |w.endpoints| {
      NextAttempt(w.retry, w.endpoints, w.index);
    } else {
      assert w.endpoints[..w.index] == w.endpoints;
      AttemptsStep(w.given[..w.retry], w.endpoints);
      assert w.given[..w.retry] + [w.endpoints] == w.given;
      GiveUp(w.(endpoints := [], index := 0, retry := w.retry + 1), offer, held);
    }
  }

  lemma ResolvedStaysSound(w: Walk, offer: seq<Backend>, a: Answer)
    requires Sound(w, offer) && w.phase.Resolving?
    ensures Sound(OnResolved(w, offer, a), offer)
  {
    hide Attempts;
    if !a.failed && a.endpoints != [] {
      var taken := Taken(offer[w.retry], a.endpoints);
      var next := Ask(w).(endpoints := taken, index := 0, given := w.given + [taken]);
      assert next.given[..w.retry] == w.given;
      assert AttemptsOn(w.retry, taken[..0]) == [];
      MoveOn(next, offer, a.paused || a.finished);
    } else {
      AttemptsStep(w.given, []);
      assert AttemptsOn(w.retry, []) == [];
      GiveUp(Ask(w).(retry := w.retry + 1, given := Unresolved(w.given)), offer, a.paused || a.finished);
    }
  }

  lemma StepStaysSound(w: Walk, offer: seq<Backend>, a: Answer)
    requires Sound(w, offer)
    ensures Sound(Step(w, offer, a), offer)
  {
    match w.phase {
      case Resolving => ResolvedStaysSound(w, offer, a);
      case Connecting(_) =>
        if a.failed {
          MoveOn(Ask(w), offer, a.paused || a.finished);
        }
      case _ =>
    }
  }

  lemma BeginIsSound(offer: seq<Backend>, held: bool)
    ensures Sound(Begin(offer, held), offer)
  {
  }

  // ---- Whole walks ----

  ghost function Run(offer: seq<Backend>, held: bool, answers: nat -> Answer, n: nat): (w: Walk)
    ensures Sound(w, offer)
  {
    BeginIsSound(offer, held);
    if n == 0 then Begin(offer, held)
    else
      var before := Run(offer, held, answers, n - 1);
      StepStaysSound(before, offer, answers(n - 1));
      Step(before, offer, answers(n - 1))
  }

  /** Backends are never skipped nor gone back to. */
  lemma StepAdvances(w: Walk, offer: seq<Backend>, a: Answer)
    requires Sound(w, offer) && !Final(w)
    ensures var next := Step(w, offer, a);
            || next.retry == w.retry + 1
            || (next.retry == w.retry && w.phase.Resolving? && next.phase.Connecting?)
            || (next.retry == w.retry && Final(next))
            || (next.retry == w.retry && next.phase.Connecting? && next.endpoints == w.endpoints && next.index == w.index + 1)
  {
  }

  /**
   * Whatever the answers, the walk ends. DNS may name any number of endpoints, so no bound is
   * known beforehand: the backends left decrease, then the endpoints left of the present one.
   */
  lemma {:induction false} WalkEnds(offer: seq<Backend>, held: bool, answers: nat -> Answer, first: nat) returns (n: nat)
    ensures n >= first && Final(Run(offer, held, answers, n))
    decreases |offer| - Run(offer, held, answers, first).retry,
              !Final(Run(offer, held, answers, first)),
              Run(offer, held, answers, first).phase.Resolving?,
              |Run(offer, held, answers, first).endpoints| - Run(offer, held, answers, first).index
  {
    var w := Run(offer, held, answers, first);
    if Final(w) {
      n := first;
    } else {
      hide Sound, Step;
      StepAdvances(w, offer, answers(first));
      assert Run(offer, held, answers, first + 1) == Step(w, offer, answers(first));
      n := WalkEnds(offer, held, answers, first + 1);
    }
  }

  predicate Before(a: Attempt, b: Attempt) {
    a.retry < b.retry || (a.retry == b.retry && a.index < b.index)
  }

  predicate Increasing(s: seq<Attempt>) {
    forall i, j :: 0 <= i < j < |s| ==> Before(s[i], s[j])
  }

  lemma {:induction false} AttemptsIncrease(given: seq<seq<Endpoint>>)
    ensures Increasing(Attempts(given))
    ensures forall a :: a in Attempts(given) ==> a.retry < |given|
  {
    if given != [] {
      AttemptsIncrease(given[..|given| - 1]);
    }
  }

  /** Every endpoint position of every backend is tried at most once, backend after backend. */
  lemma TriedOnceInOrder(w: Walk, offer: seq<Backend>)
    requires Sound(w, offer)
    ensures Increasing(w.tried)
  {
    if Trying(w) {
      AttemptsIncrease(w.given[..w.retry]);
    } else {
      AttemptsIncrease(w.given);
    }
  }

  // ---- What is tried, from the answers ----

  /** All the endpoints a backend named by DNS resolved to; of any other, the first. */
  function Wanted(b: Backend, a: Answer): seq<Endpoint> {
    if a.failed || a.endpoints == [] then [] else if b.dnsBased then a.endpoints else [a.endpoints[0]]
  }

  lemma GivenGrows(w: Walk, offer: seq<Backend>, a: Answer)
    requires Sound(w, offer)
    ensures w.given <= Step(w, offer, a).given
    ensures w.phase.Resolving? ==> Step(w, offer, a).given == w.given + [Wanted(offer[w.retry], a)]
  {
    hide Attempts, AttemptsOn;
    if w.phase.Resolving? && !a.failed && a.endpoints != [] {
      assert a.endpoints[..1] == [a.endpoints[0]];
    }
  }

  /** The answer of the resolver decides what the backend has to offer, for good. */
  lemma {:induction false} GivenStays(offer: seq<Backend>, held: bool, answers: nat -> Answer, i: nat, n: nat)
    requires i < n && Run(offer, held, answers, i).phase.Resolving?
    ensures var w, k := Run(offer, held, answers, n), Run(offer, held, answers, i).retry;
            k < |offer| && k < |w.given| && w.given[k] == Wanted(offer[k], answers(i))
  {
    hide Sound, Step;
    var before := Run(offer, held, answers, n - 1);
    assert Run(offer, held, answers, n) == Step(before, offer, answers(n - 1));
    GivenGrows(before, offer, answers(n - 1));
    ResolvingAt(before, offer);
    if i < n - 1 {
      GivenStays(offer, held, answers, i, n - 1);
    }
  }

  lemma ResolvingAt(w: Walk, offer: seq<Backend>)
    requires Sound(w, offer)
    ensures w.phase.Resolving? ==> w.retry < |offer| && |w.given| == w.retry
  {
    hide Attempts, AttemptsOn;
  }

  lemma {:induction false} AttemptsAre(given: seq<seq<Endpoint>>, a: Attempt)
    ensures a in Attempts(given) <==>
            a.retry < |given| && a.index < |given[a.retry]| && a.endpoint == given[a.retry][a.index]
  {
    if given != [] {
      AttemptsAre(given[..|given| - 1], a);
      AttemptsOnAre(|given| - 1, given[|given| - 1], a);
      hide AttemptsOn;
    }
  }

  lemma AttemptsOnAre(retry: nat, endpoints: seq<Endpoint>, a: Attempt)
    ensures a in AttemptsOn(retry, endpoints) <==>
            a.retry == retry && a.index < |endpoints| && a.endpoint == endpoints[a.index]
  {
    var all := AttemptsOn(retry, endpoints);
    if a in all {
      var j :| 0 <= j < |all| && all[j] == a;
    }
    if a.retry == retry && a.index < |endpoints| && a.endpoint == endpoints[a.index] {
      assert all[a.index] == a;
    }
  }

  /** What has been tried: of the present backend the first endpoints, of those before it all. */
  lemma TriedAre(w: Walk, offer: seq<Backend>, a: Attempt)
    requires Sound(w, offer)
    ensures a in w.tried <==>
            && a.retry < |w.given| && a.index < |w.given[a.retry]| && a.endpoint == w.given[a.retry][a.index]
            && (a.retry == w.retry ==> a.index < w.index)
  {
    if Trying(w) {
      AttemptsAre(w.given[..w.retry], a);
      AttemptsOnAre(w.retry, w.endpoints[..w.index], a);
    } else {
      AttemptsAre(w.given, a);
    }
    hide Attempts, AttemptsOn;
  }

  /**
   * From the answers: once the resolver has named the endpoints of a backend, the connects begun
   * there are to these in order, all of them if DNS names the backend and the first one if not;
   * and as soon as the walk has gone on to another backend, to all of these.
   */
  lemma EndpointsTried(offer: seq<Backend>, held: bool, answers: nat -> Answer, i: nat, n: nat, j: nat, e: Endpoint)
    requires i < n && Run(offer, held, answers, i).phase.Resolving?
    ensures var w, k := Run(offer, held, answers, n), Run(offer, held, answers, i).retry;
            && k < |offer|
            && (Attempt(k, j, e) in w.tried <==>
                  && j < |Wanted(offer[k], answers(i))| && e == Wanted(offer[k], answers(i))[j]
                  && (w.retry == k ==> j < w.index))
  {
    hide Sound, Step, Run, Wanted;
    GivenStays(offer, held, answers, i, n);
    var w, k := Run(offer, held, answers, n), Run(offer, held, answers, i).retry;
    TriedAre(w, offer, Attempt(k, j, e));
  }

  /** The resolver is asked about every backend the walk has left behind. */
  lemma {:induction false} ResolverAsked(offer: seq<Backend>, held: bool, answers: nat -> Answer, n: nat, k: nat) returns (i: nat)
    requires k < |Run(offer, held, answers, n).given|
    ensures i < n && Run(offer, held, answers, i).phase.Resolving? && Run(offer, held, answers, i).retry == k
  {
    hide Sound, Step;
    if n == 0 {
      assert false;
    } else {
      var before := Run(offer, held, answers, n - 1);
      assert Run(offer, held, answers, n) == Step(before, offer, answers(n - 1));
      if k < |before.given| {
        i := ResolverAsked(offer, held, answers, n - 1, k);
      } else {
        OnlyResolvingGives(before, offer, answers(n - 1));
        i := n - 1;
      }
    }
  }

  lemma OnlyResolvingGives(w: Walk, offer: seq<Backend>, a: Answer)
    requires Sound(w, offer)
    ensures Step(w, offer, a).given == w.given || (w.phase.Resolving? && |w.given| == w.retry && |Step(w, offer, a).given| == w.retry + 1)
  {
    hide Attempts, AttemptsOn;
  }

  /** Every backend before the present one has been resolved and all of its endpoints tried. */
  ghost predicate AllTried(offer: seq<Backend>, held: bool, answers: nat -> Answer, n: nat, k: nat)
    requires k < |offer|
  {
    exists i :: 0 <= i < n && Run(offer, held, answers, i).phase.Resolving? && Run(offer, held, answers, i).retry == k &&
      var wanted := Wanted(offer[k], answers(i));
      forall j :: 0 <= j < |wanted| ==> Attempt(k, j, wanted[j]) in Run(offer, held, answers, n).tried
  }

  lemma LeftBehindIsTried(offer: seq<Backend>, held: bool, answers: nat -> Answer, n: nat, k: nat)
    requires k < Run(offer, held, answers, n).retry && k < |offer|
    ensures AllTried(offer, held, answers, n, k)
  {
    hide Step, Run, Wanted;
    var w := Run(offer, held, answers, n);
    assert |w.given| > k;
    hide Sound;
    var i := ResolverAsked(offer, held, answers, n, k);
    var wanted := Wanted(offer[k], answers(i));
    forall j | 0 <= j < |wanted| ensures Attempt(k, j, wanted[j]) in w.tried {
      EndpointsTried(offer, held, answers, i, n, j, wanted[j]);
    }
  }

  /** A connect decides: if it succeeds the walk is over at its backend, else it goes on. */
  lemma ConnectDecides(w: Walk, offer: seq<Backend>, a: Answer)
    requires Sound(w, offer)
    ensures w.phase.Connecting? ==> w.retry < |offer|
    ensures Step(w, offer, a).phase.Connected? <==> w.phase.Connected? || (w.phase.Connecting? && !a.failed)
    ensures w.phase.Connecting? && !a.failed ==> Step(w, offer, a).phase.backend == offer[w.retry]
    ensures w.phase.Connected? ==> Step(w, offer, a) == w
  {
    hide Attempts, AttemptsOn;
  }

  /** The connect that was begun by step `i` succeeded. */
  ghost predicate Succeeds(offer: seq<Backend>, held: bool, answers: nat -> Answer, i: nat) {
    Run(offer, held, answers, i).phase.Connecting? && !answers(i).failed
  }

  lemma {:induction false} ConnectedIff(offer: seq<Backend>, held: bool, answers: nat -> Answer, n: nat)
    ensures var w := Run(offer, held, answers, n);
            && (w.phase.Connected? <==> exists i :: 0 <= i < n && Succeeds(offer, held, answers, i))
            && (forall i :: 0 <= i < n && Succeeds(offer, held, answers, i) ==>
                  var s := Run(offer, held, answers, i);
                  w.phase.Connected? && s.retry < |offer| && w.phase.backend == offer[s.retry] && w.retry == s.retry)
  {
    hide Sound, Step;
    if n == 0 {
      BeginsUnconnected(offer, held);
    } else {
      var before := Run(offer, held, answers, n - 1);
      assert Run(offer, held, answers, n) == Step(before, offer, answers(n - 1));
      ConnectedIff(offer, held, answers, n - 1);
      ConnectDecides(before, offer, answers(n - 1));
      ConnectKeepsRetry(before, offer, answers(n - 1));
      hide Run;
      if before.phase.Connecting? && !answers(n - 1).failed {
        assert Succeeds(offer, held, answers, n - 1);
      }
    }
  }

  lemma BeginsUnconnected(offer: seq<Backend>, held: bool)
    ensures !Begin(offer, held).phase.Connected?
  {
  }

  lemma ConnectKeepsRetry(w: Walk, offer: seq<Backend>, a: Answer)
    requires Sound(w, offer)
    ensures w.phase.Connecting? && !a.failed ==> Step(w, offer, a).retry == w.retry
  {
    hide Attempts, AttemptsOn;
  }

  /**
   * The whole promise: every walk reaches an end and tries nothing twice. It is connected if and
   * only if a connect succeeded, and then to the backend on offer at that retry. Disconnected,
   * every backend on offer was resolved and every endpoint wanted of it tried.
   */
  lemma WalkOutcome(offer: seq<Backend>, held: bool, answers: nat -> Answer) returns (n: nat)
    ensures var w := Run(offer, held, answers, n);
            && Final(w) && Increasing(w.tried)
            && (w.phase.Connected? <==> exists i :: 0 <= i < n && Succeeds(offer, held, answers, i))
            && (forall i :: 0 <= i < n && Succeeds(offer, held, answers, i) ==>
                  var s := Run(offer, held, answers, i);
                  w.phase.Connected? && s.retry < |offer| && w.phase.backend == offer[s.retry])
            && (w.phase.Disconnected? ==> forall k :: 0 <= k < |offer| ==> AllTried(offer, held, answers, n, k))
  {
    n := WalkEnds(offer, held, answers, 0);
    var w := Run(offer, held, answers, n);
    TriedOnceInOrder(w, offer);
    ConnectedIff(offer, held, answers, n);
    if w.phase.Disconnected? {
      assert w.retry == |offer|;
      hide Sound, Step, Run, AllTried;
      forall k | 0 <= k < |offer| ensures AllTried(offer, held, answers, n, k) {
        LeftBehindIsTried(offer, held, answers, n, k);
      }
    }
  }

  /** It stops exactly when it would take up another backend while the session is paused or has finished. */
  lemma StepStopsWhenHeld(w: Walk, offer: seq<Backend>, a: Answer)
    requires Sound(w, offer) && !Final(w)
    ensures Step(w, offer, a).phase.Stopped? <==> (a.paused || a.finished) && Step(w, offer, a).retry > w.retry
  {
  }

  /** A walk stops short only when the session is paused or has finished. */
  lemma {:induction false} StoppedOnlyWhenHeld(offer: seq<Backend>, held: bool, answers: nat -> Answer, n: nat)
    requires !held && forall i: nat :: !answers(i).paused && !answers(i).finished
    ensures !Run(offer, held, answers, n).phase.Stopped?
  {
    if n > 0 {
      StoppedOnlyWhenHeld(offer, held, answers, n - 1);
      var w, a := Run(offer, held, answers, n - 1), answers(n - 1);
      assert Run(offer, held, answers, n) == Step(w, offer, a);
      hide Sound;
      if !Final(w) {
        StepStopsWhenHeld(w, offer, a);
      }
    }
  }

  // ---- What a walk does to the markers ----

  function MarkedAll(parts: seq<Partition>, markers: seq<nat>, asked: seq<nat>): (r: seq<nat>)
    requires |markers| == |parts|
    ensures |r| == |parts|
  {
    if asked == [] then markers
    else Marked(parts, MarkedAll(parts, markers, asked[..|asked| - 1]), asked[|asked| - 1])
  }

  lemma MarkedAllStep(parts: seq<Partition>, markers: seq<nat>, asked: seq<nat>, retry: nat)
    requires |markers| == |parts|
    ensures MarkedAll(parts, markers, asked + [retry]) == Marked(parts, MarkedAll(parts, markers, asked), retry)
  {
    assert (asked + [retry])[..|asked|] == asked;
  }

  lemma ThreeRequestsMark(parts: seq<Partition>, markers: seq<nat>)
    requires |markers| == |parts|
    ensures MarkedAll(parts, markers, [0, 0, 0]) == MarkedTimes(parts, markers, 3)
  {
    MarkedAllStep(parts, markers, [], 0);
    MarkedAllStep(parts, markers, [0], 0);
    MarkedAllStep(parts, markers, [0, 0], 0);
    assert [] + [0] == [0] && [0] + [0] == [0, 0] && [0, 0] + [0] == [0, 0, 0];
    hide Marked, MarkedAll;
    assert MarkedTimes(parts, markers, 1) == Marked(parts, markers, 0);
    assert MarkedTimes(parts, markers, 2) == Marked(parts, MarkedTimes(parts, markers, 1), 0);
  }

  lemma FirstTryAsksThrice(offer: seq<Backend>, answers: nat -> Answer)
    requires offer != [] && !answers(0).failed && answers(0).endpoints != [] && !answers(1).failed
    ensures Run(offer, false, answers, 2).phase == Connected(offer[0]) && Run(offer, false, answers, 2).asked == [0, 0, 0]
  {
    hide Sound;
    var w0, w1 := Run(offer, false, answers, 0), Run(offer, false, answers, 1);
    assert w0 == Begin(offer, false) && w0.asked == [0];
    assert w1 == Step(w0, offer, answers(0));
    var taken := Taken(offer[0], answers(0).endpoints);
    assert taken != [];
    assert w1.asked == [0, 0] && w1.phase.Connecting? && w1.retry == 0;
    assert Run(offer, false, answers, 2) == Step(w1, offer, answers(1));
  }

  /** A session that connects at once has moved the marker by three. */
  lemma FirstTryMarksThrice(offer: seq<Backend>, answers: nat -> Answer, parts: seq<Partition>, markers: seq<nat>)
    requires offer != [] && |markers| == |parts|
    requires !answers(0).failed && answers(0).endpoints != [] && !answers(1).failed
    ensures var w := Run(offer, false, answers, 2);
            && w.phase == Connected(offer[0])
            && MarkedAll(parts, markers, w.asked) == MarkedTimes(parts, markers, 3)
  {
    hide Run, MarkedAll, MarkedTimes;
    FirstTryAsksThrice(offer, answers);
    ThreeRequestsMark(parts, markers);
  }
}
