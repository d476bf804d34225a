/** What a run of collection cycles is to report, said without snapshots or compensation. */
module StatModel {
  import opened Statistics

  /** The sessions known to the server at one collection, by identifier. */
  type Sessions = map<nat, Session>

  datatype Axis = Vhosts | Backends | Sources

  function KeyOf(axis: Axis, s: Session): string {
    match axis
    case Vhosts => s.vhost
    case Backends => s.backend
    case Sources => s.source
  }

  ghost function Contributions(sessions: Sessions): (m: map<nat, Stats>)
    ensures m.Keys == sessions.Keys
  {
    map id | id in sessions :: Contribution(sessions[id])
  }

  ghost function KeysOf(sessions: Sessions, ids: set<nat>, axis: Axis): set<string>
    requires ids <= sessions.Keys
  {
    set id | id in ids :: KeyOf(axis, sessions[id])
  }

  ghost function Part(sessions: Sessions, ids: set<nat>, axis: Axis, key: string): (p: set<nat>)
    requires ids <= sessions.Keys
    ensures p <= ids
  {
    set id | id in ids && KeyOf(axis, sessions[id]) == key
  }

  ghost function Survivors(sessions: Sessions): (s: Sessions)
    ensures s.Keys <= sessions.Keys
  {
    map id | id in sessions && !sessions[id].finished :: sessions[id]
  }

  /** A session stays until it has finished, under the same keys. */
  ghost predicate Follows(base: Sessions, sessions: Sessions) {
    && base.Keys <= sessions.Keys
    && forall id :: id in base ==>
         forall axis :: KeyOf(axis, sessions[id]) == KeyOf(axis, base[id])
  }

  /** What a session had already been credited with. */
  ghost function Before(base: Sessions, id: nat): Stats {
    if id in base then Traffic(Contribution(base[id])) else Zero()
  }

  /** The growth of every session's traffic since the last collection, and its present gauges. */
  ghost function Changes(base: Sessions, sessions: Sessions): (m: map<nat, Stats>)
    ensures m.Keys == sessions.Keys
  {
    map id | id in sessions :: Minus(Contribution(sessions[id]), Before(base, id))
  }

  lemma GrowthOver(base: Sessions, sessions: Sessions, ids: set<nat>)
    requires base.Keys <= sessions.Keys && ids <= sessions.Keys
    ensures Sum(ids, Changes(base, sessions)) ==
            Minus(Sum(ids, Contributions(sessions)), Traffic(Sum(ids * base.Keys, Contributions(base))))
  {
    hide Sum, Minus, Plus, Traffic, Contribution;
    var befores := map id | id in sessions :: Before(base, id);
    SumOfDifferences(ids, Contributions(sessions), befores, Changes(base, sessions));
    var known, unknown := ids * base.Keys, ids - base.Keys;
    assert ids == known + unknown;
    SumDisjoint(known, unknown, befores);
    SumOfZeros(unknown, befores);
    PlusLaws(Sum(known, befores), Zero(), Zero());
    TrafficOfSum(known, Contributions(base), befores);
  }

  lemma SessionsHaveKeys(sessions: Sessions, ids: set<nat>, axis: Axis)
    requires ids <= sessions.Keys
    ensures ids != {} ==> KeysOf(sessions, ids, axis) != {}
  {
    if ids != {} {
      var id :| id in ids;
      assert KeyOf(axis, sessions[id]) in KeysOf(sessions, ids, axis);
    }
  }

  /** Every session of a report is counted once, as active or as removed in one of three ways. */
  lemma {:induction false} SessionsCountedOnce(base: Sessions, sessions: Sessions, ids: set<nat>)
    requires ids <= sessions.Keys
    ensures Counted(Sum(ids, Changes(base, sessions))) == |ids| % WORD_LIMIT
    decreases ids
  {
    hide Sum, Plus, Counted, Changes, Add;
    if ids == {} {
      SumOfNone(Changes(base, sessions));
      NoneCounted();
    } else {
      var id :| id in ids;
      CountedAtOnce(base, sessions, id);
      CountWraps(|ids - {id}|);
      SumAt(ids, Changes(base, sessions), id);
      SessionsCountedOnce(base, sessions, ids - {id});
      CountedAdds(Sum(ids - {id}, Changes(base, sessions)), Changes(base, sessions)[id]);
    }
  }

  lemma NoneCounted()
    ensures Counted(Zero()) == 0
  {
  }

  lemma CountedAtOnce(base: Sessions, sessions: Sessions, id: nat)
    requires id in sessions
    ensures Counted(Changes(base, sessions)[id]) == 1
  {
    hide Counted, Contribution, Minus, Traffic;
    if id in base {
      TrafficLaws(Contribution(base[id]), Zero());
    } else {
      TrafficLaws(Zero(), Zero());
    }
    SameGauges(Contribution(sessions[id]), Before(base, id));
    ContributionCounted(sessions[id]);
  }

  lemma ContributionCounted(s: Session)
    ensures Counted(Contribution(s)) == 1
  {
  }

  lemma SameGauges(a: Stats, b: Stats)
    requires Traffic(b) == b
    ensures Counted(Minus(a, b)) == Counted(a)
  {
  }

  /** The map of an axis, as sums over its parts. */
  ghost predicate Divides(m: map<string, Stats>, sessions: Sessions, ids: set<nat>, axis: Axis, f: map<nat, Stats>)
    requires ids <= sessions.Keys && ids <= f.Keys
  {
    && m.Keys == KeysOf(sessions, ids, axis)
    && forall k :: k in m ==> m[k] == Sum(Part(sessions, ids, axis, k), f)
  }

  lemma DividesRest(m: map<string, Stats>, sessions: Sessions, ids: set<nat>, axis: Axis, f: map<nat, Stats>, k: string)
    requires ids <= sessions.Keys && ids <= f.Keys && Divides(m, sessions, ids, axis, f)
    ensures Divides(m - {k}, sessions, ids - Part(sessions, ids, axis, k), axis, f)
  {
    hide Sum, KeyOf;
    RestOfParts(sessions, ids, axis, k);
    hide KeysOf, Part;
  }

  /** Summing over the keys of an axis is summing over the sessions. */
  lemma {:induction false} PartsSumToWhole(sessions: Sessions, ids: set<nat>, axis: Axis, f: map<nat, Stats>, m: map<string, Stats>)
    requires ids <= sessions.Keys && ids <= f.Keys && Divides(m, sessions, ids, axis, f)
    ensures Sum(m.Keys, m) == Sum(ids, f)
    decreases m.Keys
  {
    hide Sum, Plus, Part, KeysOf;
    if m.Keys == {} {
      SessionsHaveKeys(sessions, ids, axis);
      SumOfNone(f);
      SumOfNone(m);
    } else {
      var k :| k in m.Keys;
      var part := Part(sessions, ids, axis, k);
      assert m[k] == Sum(part, f);
      hide Divides;
      DividesRest(m, sessions, ids, axis, f, k);
      PartsSumToWhole(sessions, ids - part, axis, f, m - {k});
      SumAgrees(m.Keys - {k}, m, m - {k});
      SumAt(m.Keys, m, k);
      SumDisjoint(ids - part, part, f);
      assert (m - {k}).Keys == m.Keys - {k} && ids - part + part == ids;
    }
  }

  lemma RestOfParts(sessions: Sessions, ids: set<nat>, axis: Axis, k: string)
    requires ids <= sessions.Keys
    ensures var rest := ids - Part(sessions, ids, axis, k);
            && KeysOf(sessions, rest, axis) == KeysOf(sessions, ids, axis) - {k}
            && forall k' :: k' != k ==> Part(sessions, rest, axis, k') == Part(sessions, ids, axis, k')
  {
    var rest := ids - Part(sessions, ids, axis, k);
    forall k' | k' != k ensures Part(sessions, rest, axis, k') == Part(sessions, ids, axis, k') {
    }
  }

  // ---- Runs ----

  ghost function Baseline(run: seq<Sessions>): Sessions {
    if run == [] then map[] else Survivors(run[|run| - 1])
  }

  /** The last totals seen of every session there ever was. */
  ghost function Latest(run: seq<Sessions>): map<nat, Stats> {
    if run == [] then map[]
    else Latest(run[..|run| - 1]) + TrafficOf(run[|run| - 1])
  }

  ghost function TrafficOf(sessions: Sessions): (m: map<nat, Stats>)
    ensures m.Keys == sessions.Keys
  {
    map id | id in sessions :: Traffic(Contribution(sessions[id]))
  }

  /** Identifiers are not used again. */
  ghost predicate Plausible(run: seq<Sessions>) {
    run == [] ||
    (var front, last := run[..|run| - 1], run[|run| - 1];
     && Plausible(front)
     && Follows(Baseline(front), last)
     && (last.Keys - Baseline(front).Keys) !! Latest(front).Keys)
  }

  /** A session has been seen by the first so many collections. */
  ghost predicate Seen(run: seq<Sessions>, id: nat) {
    exists i :: 0 <= i < |run| && id in run[i]
  }

  /** From one collection to the next a session stays, under the same names, until it has been seen to have finished. */
  ghost predicate Continues(before: Sessions, after: Sessions) {
    forall id :: id in before && !before[id].finished ==>
      id in after && after[id].vhost == before[id].vhost && after[id].backend == before[id].backend && after[id].source == before[id].source
  }

  lemma {:induction false} LatestIsSeen(run: seq<Sessions>, id: nat)
    ensures id in Latest(run) <==> Seen(run, id)
  {
    if run != [] {
      var front, last := run[..|run| - 1], run[|run| - 1];
      LatestIsSeen(front, id);
      hide Traffic, Contribution;
      if id in last {
        assert id in run[|run| - 1];
      }
      if Seen(front, id) {
        var i :| 0 <= i < |front| && id in front[i];
        assert id in run[i];
      }
    }
  }

  /** Which runs are meant, said step by step. */
  lemma PlausibleIs(run: seq<Sessions>)
    ensures run == [] ==> Plausible(run)
    ensures run != [] ==>
      var front, last := run[..|run| - 1], run[|run| - 1];
      Plausible(run) <==>
        && Plausible(front)
        && (front != [] ==> Continues(front[|front| - 1], last))
        && (forall id :: id in last && Seen(front, id) ==> id in front[|front| - 1] && !front[|front| - 1][id].finished)
  {
    if run != [] {
      var front, last := run[..|run| - 1], run[|run| - 1];
      forall id ensures id in Latest(front) <==> Seen(front, id) {
        LatestIsSeen(front, id);
      }
      hide Latest, Seen;
      var base := Baseline(front);
      assert Follows(base, last) <==> (front != [] ==> Continues(front[|front| - 1], last)) by {
        FollowsIs(base, last);
        if front != [] {
          assert forall id :: id in base <==> id in front[|front| - 1] && !front[|front| - 1][id].finished;
        }
      }
    }
  }

  lemma FollowsIs(base: Sessions, sessions: Sessions)
    ensures Follows(base, sessions) <==>
      forall id :: id in base ==>
        id in sessions && sessions[id].vhost == base[id].vhost && sessions[id].backend == base[id].backend && sessions[id].source == base[id].source
  {
    forall id | id in base && id in sessions
      ensures (forall axis :: KeyOf(axis, sessions[id]) == KeyOf(axis, base[id])) <==>
        sessions[id].vhost == base[id].vhost && sessions[id].backend == base[id].backend && sessions[id].source == base[id].source
    {
      assert KeyOf(Vhosts, base[id]) == base[id].vhost && KeyOf(Backends, base[id]) == base[id].backend && KeyOf(Sources, base[id]) == base[id].source;
      assert KeyOf(Vhosts, sessions[id]) == sessions[id].vhost;
    }
  }

  /** All the reports of a run added up. */
  ghost function Reported(run: seq<Sessions>): Stats {
    if run == [] then Zero()
    else
      var front, last := run[..|run| - 1], run[|run| - 1];
      Plus(Reported(front), Traffic(Sum(last.Keys, Changes(Baseline(front), last))))
  }

  lemma BaselineIsLatest(run: seq<Sessions>)
    ensures var base := Baseline(run);
            && base.Keys <= Latest(run).Keys
            && forall id :: id in base ==> Latest(run)[id] == TrafficOf(base)[id]
  {
  }

  lemma ReportIsDifference(base: Sessions, last: Sessions)
    requires base.Keys <= last.Keys
    ensures Traffic(Sum(last.Keys, Changes(base, last))) ==
            Minus(Sum(last.Keys, TrafficOf(last)), Sum(base.Keys, TrafficOf(base)))
  {
    hide Sum, Minus, Plus, Traffic, Contribution;
    GrowthOver(base, last, last.Keys);
    assert last.Keys * base.Keys == base.Keys;
    var all, had := Sum(last.Keys, Contributions(last)), Sum(base.Keys, Contributions(base));
    TrafficLaws(all, Traffic(had));
    TrafficLaws(had, had);
    TrafficOfSum(last.Keys, Contributions(last), TrafficOf(last));
    TrafficOfSum(base.Keys, Contributions(base), TrafficOf(base));
  }

  /** One more collection moves the credited totals on by exactly what it reports. */
  lemma LatestMovesOn(seen: map<nat, Stats>, base: Sessions, last: Sessions)
    requires base.Keys <= seen.Keys && base.Keys <= last.Keys && (last.Keys - base.Keys) !! seen.Keys
    requires forall id :: id in base ==> seen[id] == TrafficOf(base)[id]
    ensures var latest := seen + TrafficOf(last);
            Sum(latest.Keys, latest) ==
            Plus(Sum(seen.Keys, seen), Minus(Sum(last.Keys, TrafficOf(last)), Sum(base.Keys, TrafficOf(base))))
  {
    hide Sum, Minus, Plus, Traffic, Contribution, TrafficOf;
    var now := TrafficOf(last);
    var latest, gone := seen + now, seen.Keys - base.Keys;
    assert seen.Keys == gone + base.Keys && latest.Keys == gone + last.Keys && gone !! last.Keys;
    SumDisjoint(gone, base.Keys, seen);
    SumAgrees(base.Keys, seen, TrafficOf(base));
    SumDisjoint(gone, last.Keys, latest);
    SumAgrees(gone, latest, seen);
    SumAgrees(last.Keys, latest, now);
    Exchange(Sum(gone, seen), Sum(base.Keys, seen), Sum(last.Keys, now));
  }

  /** The reports of any run add up to the traffic of all its sessions, those long gone included. */
  lemma {:induction false} ReportsTelescope(run: seq<Sessions>)
    requires Plausible(run)
    ensures Reported(run) == Sum(Latest(run).Keys, Latest(run))
  {
    if run == [] {
    } else {
      hide Sum, Minus, Plus, Traffic, Contribution, Changes, TrafficOf;
      var front, last := run[..|run| - 1], run[|run| - 1];
      ReportsTelescope(front);
      BaselineIsLatest(front);
      LatestMovesOn(Latest(front), Baseline(front), last);
      ReportIsDifference(Baseline(front), last);
    }
  }

  lemma Exchange(a: Stats, b: Stats, c: Stats)
    ensures Plus(Plus(a, b), Minus(c, b)) == Plus(a, c)
  {
    hide Plus, Minus;
    PlusLaws(a, b, Minus(c, b));
    PlusLaws(b, Minus(c, b), a);
    MinusUndoesPlus(c, b);
  }

  // ---- What each counter of a report means ----

  /** By how much a number kept by sessions has grown since the last collection. */
  ghost function Growths(base: Sessions, sessions: Sessions, number: Session -> int): (m: map<nat, int>)
    ensures m.Keys == sessions.Keys
  {
    map id | id in sessions :: number(sessions[id]) - if id in base then number(base[id]) else 0
  }

  /** The metric is, up to wrapping around, the growth of a number over some sessions. */
  ghost predicate Measures(x: Stats, metric: nat, base: Sessions, sessions: Sessions, ids: set<nat>, number: Session -> int)
    requires metric < METRICS && ids <= sessions.Keys
  {
    x[metric] == Total(ids, Growths(base, sessions, number)) % WORD_LIMIT
  }

  ghost function InState(sessions: Sessions, ids: set<nat>, state: Session -> bool): set<nat>
    requires ids <= sessions.Keys
  {
    set id | id in ids && state(sessions[id])
  }

  /** The metric is, up to wrapping around, how many of some sessions are in a state. */
  ghost predicate Tells(x: Stats, metric: nat, sessions: Sessions, ids: set<nat>, state: Session -> bool)
    requires metric < METRICS && ids <= sessions.Keys
  {
    x[metric] == |InState(sessions, ids, state)| % WORD_LIMIT
  }

  /** What was sent: read from the broker. */
  ghost predicate ItemisesSent(x: Stats, base: Sessions, sessions: Sessions, ids: set<nat>)
    requires ids <= sessions.Keys
  {
    && Measures(x, PACKETS_SENT, base, sessions, ids, (s: Session) => s.egress.packets)
    && Measures(x, FRAMES_SENT, base, sessions, ids, (s: Session) => s.egress.frames)
    && Measures(x, BYTES_SENT, base, sessions, ids, (s: Session) => s.egress.bytes)
    && Measures(x, SEND_LATENCY_TOTAL, base, sessions, ids, (s: Session) => s.egress.latencyTotal)
    && Measures(x, SEND_LATENCY_COUNT, base, sessions, ids, (s: Session) => s.egress.latencyCount)
  }

  /** What was received: read from the client. */
  ghost predicate ItemisesReceived(x: Stats, base: Sessions, sessions: Sessions, ids: set<nat>)
    requires ids <= sessions.Keys
  {
    && Measures(x, PACKETS_RECEIVED, base, sessions, ids, (s: Session) => s.ingress.packets)
    && Measures(x, FRAMES_RECEIVED, base, sessions, ids, (s: Session) => s.ingress.frames)
    && Measures(x, BYTES_RECEIVED, base, sessions, ids, (s: Session) => s.ingress.bytes)
    && Measures(x, RECEIVE_LATENCY_TOTAL, base, sessions, ids, (s: Session) => s.ingress.latencyTotal)
    && Measures(x, RECEIVE_LATENCY_COUNT, base, sessions, ids, (s: Session) => s.ingress.latencyCount)
  }

  ghost predicate ItemisesStates(x: Stats, sessions: Sessions, ids: set<nat>)
    requires ids <= sessions.Keys
  {
    && Tells(x, REMOVED_CLIENT_SNAPPED, sessions, ids, (s: Session) => s.disconnect == ByClient)
    && Tells(x, REMOVED_BROKER_SNAPPED, sessions, ids, (s: Session) => s.disconnect == ByServer)
    && Tells(x, REMOVED_GRACEFUL, sessions, ids, (s: Session) => s.disconnect == Cleanly || s.disconnect == ByProxy)
    && Tells(x, ACTIVE, sessions, ids, (s: Session) => s.disconnect == Connected)
    && Tells(x, PAUSED, sessions, ids, (s: Session) => s.paused)
    && Tells(x, AUTH_DENIED, sessions, ids, (s: Session) => s.authDenied)
    && Tells(x, LIMITED, sessions, ids, (s: Session) => s.limited)
  }

  /** Counter by counter, what a report says of some sessions. */
  ghost predicate Itemises(x: Stats, base: Sessions, sessions: Sessions, ids: set<nat>)
    requires ids <= sessions.Keys
  {
    ItemisesSent(x, base, sessions, ids) && ItemisesReceived(x, base, sessions, ids) && ItemisesStates(x, sessions, ids)
  }

  lemma SubIsModular(a: Word, b: Word)
    ensures Sub(a, b) == (a - b) % WORD_LIMIT
  {
  }

  lemma ChangeOf(base: Sessions, sessions: Sessions, id: nat, metric: nat)
    requires metric < METRICS && id in sessions
    ensures Changes(base, sessions)[id][metric] ==
            if metric < TRAFFIC && id in base then Sub(Contribution(sessions[id])[metric], Contribution(base[id])[metric])
            else Contribution(sessions[id])[metric]
  {
    hide Contribution;
  }

  lemma TrafficMeasured(base: Sessions, sessions: Sessions, ids: set<nat>, metric: nat, number: Session -> int)
    requires metric < TRAFFIC && ids <= sessions.Keys
    requires forall s: Session :: Contribution(s)[metric] == number(s)
    ensures Measures(Sum(ids, Changes(base, sessions)), metric, base, sessions, ids, number)
  {
    hide Sum, Contribution, Sub, Changes;
    var g := Growths(base, sessions, number);
    forall id | id in ids ensures Changes(base, sessions)[id][metric] == g[id] % WORD_LIMIT {
      ChangeOf(base, sessions, id, metric);
      assert Contribution(sessions[id])[metric] == number(sessions[id]);
      if id in base {
        assert Contribution(base[id])[metric] == number(base[id]);
        SubIsModular(Contribution(sessions[id])[metric], Contribution(base[id])[metric]);
      }
    }
    MetricOfSum(ids, Changes(base, sessions), g, metric);
  }

  lemma StateTold(base: Sessions, sessions: Sessions, ids: set<nat>, metric: nat, state: Session -> bool)
    requires TRAFFIC <= metric < METRICS && ids <= sessions.Keys
    requires forall s: Session :: Contribution(s)[metric] == One(state(s))
    ensures Tells(Sum(ids, Changes(base, sessions)), metric, sessions, ids, state)
  {
    hide Sum, Contribution, Changes;
    var g: map<nat, int> := map id | id in ids :: One(state(sessions[id]));
    forall id | id in ids ensures Changes(base, sessions)[id][metric] == g[id] % WORD_LIMIT {
      ChangeOf(base, sessions, id, metric);
      assert Contribution(sessions[id])[metric] == One(state(sessions[id]));
    }
    MetricOfSum(ids, Changes(base, sessions), g, metric);
    TotalCounts(ids, g);
    assert Ones(ids, g) == InState(sessions, ids, state);
  }

  lemma GrowthItemisesSent(base: Sessions, sessions: Sessions, ids: set<nat>)
    requires ids <= sessions.Keys
    ensures ItemisesSent(Sum(ids, Changes(base, sessions)), base, sessions, ids)
  {
    hide Sum, Changes, Measures;
    TrafficMeasured(base, sessions, ids, PACKETS_SENT, (s: Session) => s.egress.packets);
    TrafficMeasured(base, sessions, ids, FRAMES_SENT, (s: Session) => s.egress.frames);
    TrafficMeasured(base, sessions, ids, BYTES_SENT, (s: Session) => s.egress.bytes);
    TrafficMeasured(base, sessions, ids, SEND_LATENCY_TOTAL, (s: Session) => s.egress.latencyTotal);
    TrafficMeasured(base, sessions, ids, SEND_LATENCY_COUNT, (s: Session) => s.egress.latencyCount);
  }

  lemma GrowthItemisesReceived(base: Sessions, sessions: Sessions, ids: set<nat>)
    requires ids <= sessions.Keys
    ensures ItemisesReceived(Sum(ids, Changes(base, sessions)), base, sessions, ids)
  {
    hide Sum, Changes, Measures;
    TrafficMeasured(base, sessions, ids, PACKETS_RECEIVED, (s: Session) => s.ingress.packets);
    TrafficMeasured(base, sessions, ids, FRAMES_RECEIVED, (s: Session) => s.ingress.frames);
    TrafficMeasured(base, sessions, ids, BYTES_RECEIVED, (s: Session) => s.ingress.bytes);
    TrafficMeasured(base, sessions, ids, RECEIVE_LATENCY_TOTAL, (s: Session) => s.ingress.latencyTotal);
    TrafficMeasured(base, sessions, ids, RECEIVE_LATENCY_COUNT, (s: Session) => s.ingress.latencyCount);
  }

  lemma GrowthItemisesStates(base: Sessions, sessions: Sessions, ids: set<nat>)
    requires ids <= sessions.Keys
    ensures ItemisesStates(Sum(ids, Changes(base, sessions)), sessions, ids)
  {
    hide Sum, Changes, Tells;
    StateTold(base, sessions, ids, REMOVED_CLIENT_SNAPPED, (s: Session) => s.disconnect == ByClient);
    StateTold(base, sessions, ids, REMOVED_BROKER_SNAPPED, (s: Session) => s.disconnect == ByServer);
    StateTold(base, sessions, ids, REMOVED_GRACEFUL, (s: Session) => s.disconnect == Cleanly || s.disconnect == ByProxy);
    StateTold(base, sessions, ids, ACTIVE, (s: Session) => s.disconnect == Connected);
    StateTold(base, sessions, ids, PAUSED, (s: Session) => s.paused);
    StateTold(base, sessions, ids, AUTH_DENIED, (s: Session) => s.authDenied);
    StateTold(base, sessions, ids, LIMITED, (s: Session) => s.limited);
  }

  /** The growth of some sessions says, counter by counter, what it is the growth of. */
  lemma GrowthItemises(base: Sessions, sessions: Sessions, ids: set<nat>)
    requires ids <= sessions.Keys
    ensures Itemises(Sum(ids, Changes(base, sessions)), base, sessions, ids)
  {
    hide Sum, Changes, ItemisesSent, ItemisesReceived, ItemisesStates;
    GrowthItemisesSent(base, sessions, ids);
    GrowthItemisesReceived(base, sessions, ids);
    GrowthItemisesStates(base, sessions, ids);
  }
}
