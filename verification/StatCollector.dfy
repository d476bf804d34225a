/** The collector's two snapshots and one cleanup cycle over them. */
module StatCollection {
  import opened Statistics
  import opened StatModel

  datatype Snapshot = Snapshot(vhosts: map<string, Stats>, backends: map<string, Stats>, sources: map<string, Stats>, overall: Stats) {
    function Of(axis: Axis): map<string, Stats> {
      match axis
      case Vhosts => vhosts
      case Backends => backends
      case Sources => sources
    }
  }

  function Empty(): Snapshot {
    Snapshot(map[], map[], map[], Zero())
  }

  function Get(m: map<string, Stats>, key: string): Stats {
    if key in m then m[key] else Zero()
  }

  /** The snapshot's map has exactly the keys of the sessions and adds up what they contribute. */
  ghost predicate Tallied(m: map<string, Stats>, sessions: Sessions, ids: set<nat>, axis: Axis)
    requires ids <= sessions.Keys
  {
    && m.Keys == KeysOf(sessions, ids, axis)
    && forall k :: k in m ==> m[k] == Sum(Part(sessions, ids, axis, k), Contributions(sessions))
  }

  lemma NothingTallied(sessions: Sessions)
    ensures SnapshotOf(Empty(), sessions, {})
  {
    forall axis ensures Tallied(Empty().Of(axis), sessions, {}, axis) {
      assert Empty().Of(axis) == map[];
    }
  }

  lemma NothingLeft()
    ensures TrafficLeft(Empty(), map[], {})
  {
    var none: Sessions := map[];
    forall axis ensures Remains(Empty().Of(axis), none, {}, axis) {
      assert Empty().Of(axis) == map[];
      forall k ensures RemainsAt(map[], none, {}, axis, k) {
        assert Part(none, {}, axis, k) == {};
      }
    }
  }

  lemma TallyOne(m: map<string, Stats>, sessions: Sessions, ids: set<nat>, axis: Axis, id: nat)
    requires id in sessions && id !in ids && ids <= sessions.Keys && Tallied(m, sessions, ids, axis)
    ensures var key := KeyOf(axis, sessions[id]);
            Tallied(m[key := Plus(Get(m, key), Contribution(sessions[id]))], sessions, ids + {id}, axis)
  {
    hide Sum, Plus, Contribution;
    var key := KeyOf(axis, sessions[id]);
    var m', ids' := m[key := Plus(Get(m, key), Contribution(sessions[id]))], ids + {id};
    assert m'.Keys == KeysOf(sessions, ids', axis);
    forall k | k in m' ensures m'[k] == Sum(Part(sessions, ids', axis, k), Contributions(sessions)) {
      if k == key {
        var part := Part(sessions, ids', axis, k);
        assert part - {id} == Part(sessions, ids, axis, k);
        SumAt(part, Contributions(sessions), id);
        if k !in m {
          assert Part(sessions, ids, axis, k) == {};
          SumOfZeros(Part(sessions, ids, axis, k), Contributions(sessions));
        }
      } else {
        assert Part(sessions, ids', axis, k) == Part(sessions, ids, axis, k);
      }
    }
  }

  /** The snapshot's traffic is that of the sessions, whatever keys it has besides. */
  ghost predicate Remains(m: map<string, Stats>, sessions: Sessions, ids: set<nat>, axis: Axis)
    requires ids <= sessions.Keys
  {
    forall k :: RemainsAt(m, sessions, ids, axis, k)
  }

  ghost predicate RemainsAt(m: map<string, Stats>, sessions: Sessions, ids: set<nat>, axis: Axis, key: string)
    requires ids <= sessions.Keys
  {
    Traffic(Get(m, key)) == Traffic(Sum(Part(sessions, ids, axis, key), Contributions(sessions)))
  }

  lemma TalliedRemains(m: map<string, Stats>, sessions: Sessions, ids: set<nat>, axis: Axis)
    requires ids <= sessions.Keys && Tallied(m, sessions, ids, axis)
    ensures Remains(m, sessions, ids, axis)
  {
    hide Sum, Traffic, Contribution;
    forall k ensures RemainsAt(m, sessions, ids, axis, k) {
      if k !in m {
        assert Part(sessions, ids, axis, k) == {};
        SumOfZeros(Part(sessions, ids, axis, k), Contributions(sessions));
      }
    }
  }

  lemma TrafficTakenOut(whole: Stats, rest: Stats, c: Stats)
    requires Traffic(whole) == Traffic(Plus(rest, c))
    ensures Traffic(Minus(whole, Traffic(c))) == Traffic(rest)
  {
    hide Traffic, Plus, Minus;
    TrafficLaws(whole, Traffic(c));
    TrafficLaws(c, c);
    TrafficLaws(rest, c);
    MinusUndoesPlus(Traffic(rest), Traffic(c));
  }

  lemma DropOne(m: map<string, Stats>, sessions: Sessions, ids: set<nat>, axis: Axis, id: nat)
    requires ids <= sessions.Keys && id in ids && Remains(m, sessions, ids, axis)
    ensures var key := KeyOf(axis, sessions[id]);
            Remains(m[key := Minus(Get(m, key), Traffic(Contribution(sessions[id])))], sessions, ids - {id}, axis)
  {
    hide Sum, Plus, Minus, Traffic, Contribution;
    var key := KeyOf(axis, sessions[id]);
    var m' := m[key := Minus(Get(m, key), Traffic(Contribution(sessions[id])))];
    forall k ensures RemainsAt(m', sessions, ids - {id}, axis, k) {
      var part, part' := Part(sessions, ids, axis, k), Part(sessions, ids - {id}, axis, k);
      assert RemainsAt(m, sessions, ids, axis, k);
      if k == key {
        assert part' == part - {id};
        SumAt(part, Contributions(sessions), id);
        TrafficTakenOut(Get(m, k), Sum(part', Contributions(sessions)), Contributions(sessions)[id]);
      } else {
        assert part' == part;
      }
    }
  }

  /** The differences to the previous snapshot, key by key; gauges are left as they are. */
  method PopulateMap(source: map<string, Stats>, previous: map<string, Stats>) returns (output: map<string, Stats>)
    ensures Gained(output, source, previous)
  {
    output := source;
    var rest := source.Keys;
    while rest != {}
      invariant rest <= source.Keys == output.Keys
      invariant forall k :: k in source ==>
                  output[k] == if k in rest then source[k] else Minus(source[k], Traffic(Get(previous, k)))
      decreases rest
    {
      var k :| k in rest;
      var val := Difference(output[k], Get(previous, k));
      output := output[k := val];
      rest := rest - {k};
    }
  }

  lemma EntryIsGrowth(source: map<string, Stats>, previous: map<string, Stats>, base: Sessions, sessions: Sessions, axis: Axis, k: string)
    requires Follows(base, sessions) && k in source
    requires Tallied(source, sessions, sessions.Keys, axis) && Remains(previous, base, base.Keys, axis)
    ensures Minus(source[k], Traffic(Get(previous, k))) ==
            Sum(Part(sessions, sessions.Keys, axis, k), Changes(base, sessions))
  {
    hide Sum, Minus, Traffic, Contribution;
    var part := Part(sessions, sessions.Keys, axis, k);
    GrowthOver(base, sessions, part);
    assert part * base.Keys == Part(base, base.Keys, axis, k);
    assert RemainsAt(previous, base, base.Keys, axis, k);
  }

  ghost predicate SnapshotOf(snapshot: Snapshot, sessions: Sessions, ids: set<nat>)
    requires ids <= sessions.Keys
  {
    && (forall axis :: Tallied(snapshot.Of(axis), sessions, ids, axis))
    && snapshot.overall == Sum(ids, Contributions(sessions))
  }

  ghost predicate TrafficLeft(snapshot: Snapshot, sessions: Sessions, ids: set<nat>)
    requires ids <= sessions.Keys
  {
    && (forall axis :: Remains(snapshot.Of(axis), sessions, ids, axis))
    && Traffic(snapshot.overall) == Traffic(Sum(ids, Contributions(sessions)))
  }

  function Entered(m: map<string, Stats>, key: string, s: Session): map<string, Stats> {
    m[key := Plus(Get(m, key), Contribution(s))]
  }

  function TakenOut(m: map<string, Stats>, key: string, s: Session): map<string, Stats> {
    m[key := Minus(Get(m, key), Traffic(Contribution(s)))]
  }

  /** A snapshot with one more session on every axis. */
  function With(snapshot: Snapshot, s: Session): Snapshot {
    Snapshot(Entered(snapshot.vhosts, s.vhost, s), Entered(snapshot.backends, s.backend, s),
             Entered(snapshot.sources, s.source, s), Plus(snapshot.overall, Contribution(s)))
  }

  /** A snapshot without the traffic of a session, its gauges left in place. */
  function Without(snapshot: Snapshot, s: Session): Snapshot {
    Snapshot(TakenOut(snapshot.vhosts, s.vhost, s), TakenOut(snapshot.backends, s.backend, s),
             TakenOut(snapshot.sources, s.source, s), Minus(snapshot.overall, Traffic(Contribution(s))))
  }

  lemma WithOneMore(snapshot: Snapshot, sessions: Sessions, ids: set<nat>, id: nat)
    requires id in sessions && ids <= sessions.Keys && id !in ids && SnapshotOf(snapshot, sessions, ids)
    ensures SnapshotOf(With(snapshot, sessions[id]), sessions, ids + {id})
  {
    hide Sum, Plus, Contribution, Tallied;
    var next := With(snapshot, sessions[id]);
    forall axis ensures Tallied(next.Of(axis), sessions, ids + {id}, axis) {
      assert Tallied(snapshot.Of(axis), sessions, ids, axis);
      TallyOne(snapshot.Of(axis), sessions, ids, axis, id);
    }
    SumAt(ids + {id}, Contributions(sessions), id);
    assert ids + {id} - {id} == ids;
  }

  lemma WithoutOne(snapshot: Snapshot, sessions: Sessions, ids: set<nat>, id: nat)
    requires ids <= sessions.Keys && id in ids && TrafficLeft(snapshot, sessions, ids)
    ensures TrafficLeft(Without(snapshot, sessions[id]), sessions, ids - {id})
  {
    hide Sum, Plus, Minus, Traffic, Contribution, Remains;
    var next := Without(snapshot, sessions[id]);
    forall axis ensures Remains(next.Of(axis), sessions, ids - {id}, axis) {
      assert Remains(snapshot.Of(axis), sessions, ids, axis);
      DropOne(snapshot.Of(axis), sessions, ids, axis, id);
    }
    SumAt(ids, Contributions(sessions), id);
    TrafficTakenOut(snapshot.overall, Sum(ids - {id}, Contributions(sessions)), Contribution(sessions[id]));
  }

  /** An axis of a report: what the current map has gained over the previous one. */
  ghost predicate Gained(out: map<string, Stats>, source: map<string, Stats>, previous: map<string, Stats>) {
    && out.Keys == source.Keys
    && forall k :: k in source ==> out[k] == Minus(source[k], Traffic(Get(previous, k)))
  }

  /** A report: on every axis and overall what current has gained over previous. */
  ghost predicate Differs(report: Snapshot, current: Snapshot, previous: Snapshot) {
    && (forall axis :: Gained(report.Of(axis), current.Of(axis), previous.Of(axis)))
    && report.overall == Minus(current.overall, Traffic(previous.overall))
  }

  class StatCollector {
    var current: Snapshot
    var previous: Snapshot
    ghost var history: seq<Sessions>    // the collections so far
    ghost var reported: Stats           // the traffic of all the reports so far, added up

    /**
     * The previous snapshot credits exactly the sessions that are still to come back, and what
     * was reported is the traffic of every session there ever was.
     */
    ghost predicate Valid()
      reads this
    {
      && current == Empty()
      && Plausible(history)
      && TrafficLeft(previous, Baseline(history), Baseline(history).Keys)
      && reported == Sum(Latest(history).Keys, Latest(history))
    }

    constructor ()
      ensures Valid() && history == []
    {
      current, previous, history, reported := Empty(), Empty(), [], Zero();
      new;
      NothingLeft();
    }

    method Reset()
      modifies this`current, this`previous
      ensures previous == old(current) && current == Empty()
    {
      previous := current;
      current := Empty();
    }

    method Collect(session: Session)
      modifies this`current
      ensures current == With(old(current), session)
    {
      hide Plus, Contribution;
      var vhostStats := AddStats(Get(current.vhosts, session.vhost), session);
      var backendStats := AddStats(Get(current.backends, session.backend), session);
      var sourceStats := AddStats(Get(current.sources, session.source), session);
      var overall := AddStats(current.overall, session);
      current := Snapshot(current.vhosts[session.vhost := vhostStats], current.backends[session.backend := backendStats],
                          current.sources[session.source := sourceStats], overall);
    }

    /** Takes a finished session's traffic out again, so that the next report does not miss it. */
    method DeletedSession(session: Session)
      modifies this`current
      ensures current == Without(old(current), session)
    {
      hide Minus, Traffic, Contribution;
      var vhostStats := RemStats(Get(current.vhosts, session.vhost), session);
      var backendStats := RemStats(Get(current.backends, session.backend), session);
      var sourceStats := RemStats(Get(current.sources, session.source), session);
      var overall := RemStats(current.overall, session);
      current := Snapshot(current.vhosts[session.vhost := vhostStats], current.backends[session.backend := backendStats],
                          current.sources[session.source := sourceStats], overall);
    }

    method PopulateStats() returns (report: Snapshot)
      ensures Differs(report, current, previous)
    {
      hide Minus, Traffic, Gained;
      var sources := PopulateMap(current.sources, previous.sources);
      var vhosts := PopulateMap(current.vhosts, previous.vhosts);
      var backends := PopulateMap(current.backends, previous.backends);
      var overall := Difference(current.overall, previous.overall);
      report := Snapshot(vhosts, backends, sources, overall);
      forall axis ensures Gained(report.Of(axis), current.Of(axis), previous.Of(axis)) {
        match axis case Vhosts => case Backends => case Sources =>
      }
    }

    method VisitAll(sessions: Sessions)
      requires current == Empty()
      modifies this`current
      ensures SnapshotOf(current, sessions, sessions.Keys)
    {
      var rest := sessions.Keys;
      ghost var done: set<nat> := {};
      NothingTallied(sessions);
      hide SnapshotOf, With;
      while rest != {}
        invariant done + rest == sessions.Keys && done !! rest && SnapshotOf(current, sessions, done)
        decreases rest
      {
        var id :| id in rest;
        WithOneMore(current, sessions, done, id);
        Collect(sessions[id]);
        rest, done := rest - {id}, done + {id};
      }
      assert done == sessions.Keys;
    }

    method DeleteFinished(sessions: Sessions)
      requires TrafficLeft(current, sessions, sessions.Keys)
      modifies this`current
      ensures TrafficLeft(current, sessions, Survivors(sessions).Keys)
    {
      hide TrafficLeft, Without;
      var rest := set id | id in sessions && sessions[id].finished;
      ghost var left := sessions.Keys;
      while rest != {}
        invariant left <= sessions.Keys && Survivors(sessions).Keys + rest == left && rest !! Survivors(sessions).Keys
        invariant TrafficLeft(current, sessions, left)
        decreases rest
      {
        var id :| id in rest;
        WithoutOne(current, sessions, left, id);
        DeletedSession(sessions[id]);
        rest, left := rest - {id}, left - {id};
      }
      assert left == Survivors(sessions).Keys;
    }

    /**
     * One collection cycle. The report gives, for every vhost, every backend, every source and
     * over all, the growth of the sessions concerned since their last collection; each axis
     * adds up to the whole; and all the reports together are the traffic there ever was.
     */
    method Cleanup(sessions: Sessions) returns (report: Snapshot)
      requires Valid() && Plausible(history + [sessions])
      modifies this
      ensures Valid() && history == old(history) + [sessions]
      ensures Accounts(report, Baseline(old(history)), sessions) && Names(report, Baseline(old(history)), sessions)
      ensures reported == Plus(old(reported), Traffic(report.overall))
    {
      hide Sum, Plus, Minus, Traffic, TrafficLeft, SnapshotOf, Differs, Accounts, Names, Plausible, Latest, Survivors;
      ghost var base := Baseline(history);
      LastFollows(history, sessions);
      VisitAll(sessions);
      report := PopulateStats();
      ReportIsGrowth(current, previous, report, base, sessions);
      ReportNames(report, base, sessions);
      SnapshotLeavesTraffic(current, sessions);
      DeleteFinished(sessions);
      SurvivorsLeft(current, sessions);
      Reset();
      OverallOf(report, base, sessions);
      ReportedAdds(history, sessions, report.overall);
      history, reported := history + [sessions], Plus(reported, Traffic(report.overall));
    }
  }

  /** An axis of a report: exactly the keys in use, each with the growth of its sessions. */
  ghost predicate Reports(m: map<string, Stats>, base: Sessions, sessions: Sessions, axis: Axis) {
    && m.Keys == KeysOf(sessions, sessions.Keys, axis)
    && forall k :: k in m ==> m[k] == Sum(Part(sessions, sessions.Keys, axis, k), Changes(base, sessions))
  }

  lemma LastFollows(history: seq<Sessions>, sessions: Sessions)
    requires Plausible(history + [sessions])
    ensures Follows(Baseline(history), sessions)
  {
    assert (history + [sessions])[..|history|] == history;
  }

  lemma AxisIsGrowth(source: map<string, Stats>, previous: map<string, Stats>, out: map<string, Stats>,
                     base: Sessions, sessions: Sessions, axis: Axis)
    requires Follows(base, sessions) && Gained(out, source, previous)
    requires Tallied(source, sessions, sessions.Keys, axis) && Remains(previous, base, base.Keys, axis)
    ensures Reports(out, base, sessions, axis)
    ensures Sum(out.Keys, out) == Sum(sessions.Keys, Changes(base, sessions))
  {
    hide Sum, Minus, Traffic, Contribution, Changes, KeysOf, Part;
    forall k | k in out
      ensures out[k] == Sum(Part(sessions, sessions.Keys, axis, k), Changes(base, sessions))
    {
      EntryIsGrowth(source, previous, base, sessions, axis, k);
    }
    PartsSumToWhole(sessions, sessions.Keys, axis, Changes(base, sessions), out);
  }

  /** A whole report: every entry the growth of its sessions, each axis adding up to the whole. */
  ghost predicate Accounts(report: Snapshot, base: Sessions, sessions: Sessions) {
    && report.overall == Sum(sessions.Keys, Changes(base, sessions))
    && (forall axis :: Reports(report.Of(axis), base, sessions, axis))
    && (forall axis :: Sum(report.Of(axis).Keys, report.Of(axis)) == report.overall)
    && Counted(report.overall) == |sessions.Keys| % WORD_LIMIT
  }

  lemma ReportIsGrowth(current: Snapshot, previous: Snapshot, report: Snapshot, base: Sessions, sessions: Sessions)
    requires Follows(base, sessions)
    requires SnapshotOf(current, sessions, sessions.Keys) && TrafficLeft(previous, base, base.Keys)
    requires Differs(report, current, previous)
    ensures Accounts(report, base, sessions)
  {
    hide Sum, Minus, Traffic, Contribution, Changes, Tallied, Remains, Reports, Gained, Counted;
    GrowthOver(base, sessions, sessions.Keys);
    assert sessions.Keys * base.Keys == base.Keys;
    forall axis
      ensures Reports(report.Of(axis), base, sessions, axis) && Sum(report.Of(axis).Keys, report.Of(axis)) == report.overall
    {
      assert Gained(report.Of(axis), current.Of(axis), previous.Of(axis));
      assert Tallied(current.Of(axis), sessions, sessions.Keys, axis) && Remains(previous.Of(axis), base, base.Keys, axis);
      AxisIsGrowth(current.Of(axis), previous.Of(axis), report.Of(axis), base, sessions, axis);
    }
    SessionsCountedOnce(base, sessions, sessions.Keys);
  }

  ghost function Those(sessions: Sessions, key: Session -> string, name: string): (ids: set<nat>)
    ensures ids <= sessions.Keys
  {
    set id | id in sessions && key(sessions[id]) == name
  }

  /** One map of a report: a name for every session, and under each name the counters of its sessions. */
  ghost predicate NamesBy(m: map<string, Stats>, base: Sessions, sessions: Sessions, key: Session -> string) {
    && (forall name :: name in m <==> Those(sessions, key, name) != {})
    && (forall name :: name in m ==> Itemises(m[name], base, sessions, Those(sessions, key, name)))
  }

  /** A whole report, counter by counter: over all sessions, by vhost, by backend and by source. */
  ghost predicate Names(report: Snapshot, base: Sessions, sessions: Sessions) {
    && Itemises(report.overall, base, sessions, sessions.Keys)
    && NamesBy(report.vhosts, base, sessions, (s: Session) => s.vhost)
    && NamesBy(report.backends, base, sessions, (s: Session) => s.backend)
    && NamesBy(report.sources, base, sessions, (s: Session) => s.source)
  }

  lemma AxisNames(m: map<string, Stats>, base: Sessions, sessions: Sessions, axis: Axis, key: Session -> string)
    requires Reports(m, base, sessions, axis) && forall s: Session :: key(s) == KeyOf(axis, s)
    ensures NamesBy(m, base, sessions, key)
  {
    hide Sum, Changes, Itemises, KeyOf;
    forall name ensures Those(sessions, key, name) == Part(sessions, sessions.Keys, axis, name) {
    }
    forall name ensures name in m <==> Those(sessions, key, name) != {} {
      if name in m {
        var id :| id in sessions && KeyOf(axis, sessions[id]) == name;
        assert id in Those(sessions, key, name);
      }
    }
    forall name | name in m ensures Itemises(m[name], base, sessions, Those(sessions, key, name)) {
      GrowthItemises(base, sessions, Part(sessions, sessions.Keys, axis, name));
    }
  }

  lemma ReportNames(report: Snapshot, base: Sessions, sessions: Sessions)
    requires Accounts(report, base, sessions)
    ensures Names(report, base, sessions)
  {
    hide Sum, Changes, Itemises, Reports, NamesBy, Counted;
    GrowthItemises(base, sessions, sessions.Keys);
    assert Reports(report.Of(Vhosts), base, sessions, Vhosts);
    assert Reports(report.Of(Backends), base, sessions, Backends);
    assert Reports(report.Of(Sources), base, sessions, Sources);
    AxisNames(report.vhosts, base, sessions, Vhosts, (s: Session) => s.vhost);
    AxisNames(report.backends, base, sessions, Backends, (s: Session) => s.backend);
    AxisNames(report.sources, base, sessions, Sources, (s: Session) => s.source);
  }

  lemma OverallOf(report: Snapshot, base: Sessions, sessions: Sessions)
    requires Accounts(report, base, sessions)
    ensures report.overall == Sum(sessions.Keys, Changes(base, sessions))
  {
    hide Sum, Changes, Reports;
  }

  /** What is added to the sum of the reports keeps it the traffic there ever was. */
  lemma ReportedAdds(history: seq<Sessions>, sessions: Sessions, overall: Stats)
    requires Plausible(history) && Plausible(history + [sessions])
    requires overall == Sum(sessions.Keys, Changes(Baseline(history), sessions))
    ensures Sum(Latest(history + [sessions]).Keys, Latest(history + [sessions])) ==
            Plus(Sum(Latest(history).Keys, Latest(history)), Traffic(overall))
    ensures Baseline(history + [sessions]) == Survivors(sessions)
  {
    hide Sum, Plus, Traffic, Latest, Plausible, Changes;
    var run := history + [sessions];
    assert run[..|run| - 1] == history;
    assert Reported(run) == Plus(Reported(history), Traffic(overall));
    hide Reported;
    ReportsTelescope(history);
    ReportsTelescope(run);
  }

  lemma SnapshotLeavesTraffic(snapshot: Snapshot, sessions: Sessions)
    requires SnapshotOf(snapshot, sessions, sessions.Keys)
    ensures TrafficLeft(snapshot, sessions, sessions.Keys)
  {
    hide Sum, Traffic, Contribution, Tallied, Remains;
    forall axis ensures Remains(snapshot.Of(axis), sessions, sessions.Keys, axis) {
      assert Tallied(snapshot.Of(axis), sessions, sessions.Keys, axis);
      TalliedRemains(snapshot.Of(axis), sessions, sessions.Keys, axis);
    }
  }

  lemma SurvivorsLeft(snapshot: Snapshot, sessions: Sessions)
    requires TrafficLeft(snapshot, sessions, Survivors(sessions).Keys)
    ensures TrafficLeft(snapshot, Survivors(sessions), Survivors(sessions).Keys)
  {
    hide Sum, Traffic, Contribution, Remains;
    var s := Survivors(sessions);
    forall axis ensures Remains(snapshot.Of(axis), s, s.Keys, axis) {
      assert Remains(snapshot.Of(axis), sessions, s.Keys, axis);
      SurvivorsRemain(snapshot.Of(axis), sessions, axis);
    }
    SumAgrees(s.Keys, Contributions(sessions), Contributions(s));
  }

  lemma SurvivorsRemain(m: map<string, Stats>, sessions: Sessions, axis: Axis)
    requires Remains(m, sessions, Survivors(sessions).Keys, axis)
    ensures Remains(m, Survivors(sessions), Survivors(sessions).Keys, axis)
  {
    hide Sum, Traffic, Contribution;
    var s := Survivors(sessions);
    forall k ensures RemainsAt(m, s, s.Keys, axis, k) {
      assert Part(s, s.Keys, axis, k) == Part(sessions, s.Keys, axis, k);
      SumAgrees(Part(s, s.Keys, axis, k), Contributions(sessions), Contributions(s));
      assert RemainsAt(m, sessions, s.Keys, axis, k);
    }
  }
}
