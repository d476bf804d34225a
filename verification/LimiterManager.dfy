/** The limiters of all vhosts, with defaults that are made concrete only when a vhost first connects. */
module LimiterModel {
  import opened Options
  import opened RateLimiters

  datatype Entry = Entry(specific: bool, limiter: Limiter)

  /** One set of limiters: the enforced ones, or those that only raise an alarm. */
  datatype Limits = Limits(entries: map<string, Entry>, default: Option<nat>)

  datatype Manager = Manager(enforced: Limits, alarms: Limits)

  datatype Change =
    | Add(vhost: string, limit: nat)
    | SetDefault(limit: nat)
    | Remove(vhost: string)
    | RemoveDefault

  datatype Op = Enforce(change: Change) | Alarm(change: Change) | Connect(vhost: string)

  function Replaced(entries: map<string, Entry>, limit: nat, now: int): (r: map<string, Entry>)
    ensures r.Keys == entries.Keys
  {
    map v | v in entries :: if entries[v].specific then entries[v] else Entry(false, New(limit, now))
  }

  function Specific(entries: map<string, Entry>): map<string, Entry> {
    map v | v in entries && entries[v].specific :: entries[v]
  }

  function Changed(l: Limits, c: Change, now: int): Limits {
    match c
    case Add(v, n) => l.(entries := l.entries[v := Entry(true, New(n, now))])
    case SetDefault(n) => Limits(Replaced(l.entries, n, now), Some(n))
    case Remove(v) =>
      if l.default.Some? then l.(entries := l.entries[v := Entry(false, New(l.default.value, now))])
      else l.(entries := l.entries - {v})
    case RemoveDefault => Limits(Specific(l.entries), None)
  }

  function Populated(l: Limits, vhost: string, now: int): Limits {
    if vhost !in l.entries && l.default.Some? then
      l.(entries := l.entries[vhost := Entry(false, New(l.default.value, now))])
    else l
  }

  /** Whether the limiter of the vhost, if it has one, lets this connection through. */
  function Admit(l: Limits, vhost: string, now: int): (bool, Limits) {
    var l := Populated(l, vhost, now);
    if vhost !in l.entries then (true, l)
    else
      var (allowed, next) := Allow(l.entries[vhost].limiter, now);
      (allowed, l.(entries := l.entries[vhost := l.entries[vhost].(limiter := next)]))
  }

  /** Every operation, and the answer given to a connection. */
  function Apply(m: Manager, op: Op, now: int): (bool, Manager) {
    match op
    case Enforce(c) => (true, m.(enforced := Changed(m.enforced, c, now)))
    case Alarm(c) => (true, m.(alarms := Changed(m.alarms, c, now)))
    case Connect(v) =>
      var alarms := Admit(m.alarms, v, now).1;
      var (allowed, enforced) := Admit(m.enforced, v, now);
      (allowed, Manager(enforced, alarms))
  }

  function Initial(): Manager {
    Manager(Limits(map[], None), Limits(map[], None))
  }

  // ---- The simple lookup it refines ----

  datatype Settings = Settings(specific: map<string, nat>, default: Option<nat>)

  function Configured(s: Settings, c: Change): Settings {
    match c
    case Add(v, n) => s.(specific := s.specific[v := n])
    case SetDefault(n) => s.(default := Some(n))
    case Remove(v) => s.(specific := s.specific - {v})
    case RemoveDefault => s.(default := None)
  }

  function LimitFor(s: Settings, vhost: string): Option<nat> {
    if vhost in s.specific then Some(s.specific[vhost]) else s.default
  }

  /** The limit the next connection to the vhost would meet. */
  function Applied(l: Limits, vhost: string): Option<nat> {
    if vhost in l.entries then Some(l.entries[vhost].limiter.limit) else l.default
  }

  ghost predicate Represents(l: Limits, s: Settings) {
    && l.default == s.default
    && (forall v :: v in s.specific <==> v in l.entries && l.entries[v].specific)
    && (forall v :: v in s.specific ==> l.entries[v].limiter.limit == s.specific[v])
    && (forall v :: v in l.entries && !l.entries[v].specific ==>
          l.default == Some(l.entries[v].limiter.limit))
    && (forall v :: v in l.entries ==>
          l.entries[v].limiter.window == SEC_TO_MS && l.entries[v].limiter.count <= l.entries[v].limiter.limit)
  }

  lemma ChangeRepresents(l: Limits, s: Settings, c: Change, now: int)
    requires Represents(l, s)
    ensures Represents(Changed(l, c, now), Configured(s, c))
  {
  }

  lemma AdmitRepresents(l: Limits, s: Settings, vhost: string, now: int)
    requires Represents(l, s)
    ensures Represents(Admit(l, vhost, now).1, s)
  {
  }

  // ---- Runs ----

  /** Operations and the times at which they happen. */
  type Trace = seq<(Op, int)>

  function RunFrom(m: Manager, ops: Trace): Manager {
    if ops == [] then m
    else Apply(RunFrom(m, ops[..|ops| - 1]), ops[|ops| - 1].0, ops[|ops| - 1].1).1
  }

  function Run(ops: Trace): Manager {
    RunFrom(Initial(), ops)
  }

  /** The answers given to the connections of a trace, in order. */
  function Answers(ops: Trace): seq<bool> {
    if ops == [] then []
    else
      var front, last := ops[..|ops| - 1], ops[|ops| - 1];
      Answers(front) + if last.0.Connect? then [Apply(Run(front), last.0, last.1).0] else []
  }

  function SettingsOf(ops: Trace): Settings {
    if ops == [] then Settings(map[], None)
    else
      var front, last := SettingsOf(ops[..|ops| - 1]), ops[|ops| - 1].0;
      if last.Enforce? then Configured(front, last.change) else front
  }

  lemma {:induction false} RunRepresents(ops: Trace)
    ensures Represents(Run(ops).enforced, SettingsOf(ops))
  {
    if ops != [] {
      var front, last := ops[..|ops| - 1], ops[|ops| - 1];
      RunRepresents(front);
      var m, s := Run(front), SettingsOf(front);
      match last.0 {
        case Enforce(c) => ChangeRepresents(m.enforced, s, c, last.1);
        case Alarm(_) =>
        case Connect(v) => AdmitRepresents(m.enforced, s, v, last.1);
      }
    }
  }

  predicate SetsFor(op: Op, vhost: string) {
    op.Enforce? && (op.change.Add? || op.change.Remove?) && op.change.vhost == vhost
  }

  predicate SetsDefault(op: Op) {
    op.Enforce? && (op.change.SetDefault? || op.change.RemoveDefault?)
  }

  /** The operation at `i` is the last that satisfies a condition. */
  ghost predicate IsLast(ops: Trace, i: nat, sets: Op -> bool) {
    i < |ops| && sets(ops[i].0) && forall j :: i < j < |ops| ==> !sets(ops[j].0)
  }

  ghost predicate Never(ops: Trace, sets: Op -> bool) {
    forall i :: 0 <= i < |ops| ==> !sets(ops[i].0)
  }

  lemma LastOfFront(ops: Trace, i: nat, sets: Op -> bool)
    requires ops != []
    ensures IsLast(ops, i, sets) && i < |ops| - 1 ==> IsLast(ops[..|ops| - 1], i, sets) && !sets(ops[|ops| - 1].0)
    ensures IsLast(ops, i, sets) ==> i < |ops| && sets(ops[i].0)
    ensures Never(ops, sets) ==> Never(ops[..|ops| - 1], sets) && !sets(ops[|ops| - 1].0)
  {
    var front := ops[..|ops| - 1];
    assert forall j :: 0 <= j < |front| ==> front[j] == ops[j];
  }

  /** A vhost has the limit of its own that was last added and not removed since. */
  lemma {:induction false} SpecificIsLastSet(ops: Trace, vhost: string, i: nat)
    ensures var s, sets := SettingsOf(ops), (op: Op) => SetsFor(op, vhost);
      && (Never(ops, sets) ==> vhost !in s.specific)
      && (IsLast(ops, i, sets) ==>
            var c := ops[i].0.change;
            if c.Add? then vhost in s.specific && s.specific[vhost] == c.limit else vhost !in s.specific)
  {
    if ops != [] {
      var sets := (op: Op) => SetsFor(op, vhost);
      SpecificIsLastSet(ops[..|ops| - 1], vhost, i);
      LastOfFront(ops, i, sets);
      hide IsLast, Never;
    }
  }

  /** The default is the one last set and not removed since. */
  lemma {:induction false} DefaultIsLastSet(ops: Trace, i: nat)
    ensures var s := SettingsOf(ops);
      && (Never(ops, SetsDefault) ==> s.default == None)
      && (IsLast(ops, i, SetsDefault) ==> s.default == if ops[i].0.change.SetDefault? then Some(ops[i].0.change.limit) else None)
  {
    if ops != [] {
      DefaultIsLastSet(ops[..|ops| - 1], i);
      LastOfFront(ops, i, SetsDefault);
      hide IsLast, Never;
    }
  }

  /** After any run a vhost meets its specific limit if it has one, else the present default, else none. */
  lemma LimitIsSpecificElseDefault(ops: Trace, vhost: string)
    ensures Applied(Run(ops).enforced, vhost) == LimitFor(SettingsOf(ops), vhost)
  {
    RunRepresents(ops);
  }

  /** Entries made from a default carry the present default, however often it was changed. */
  lemma DefaultsAreCurrent(ops: Trace, vhost: string)
    requires var l := Run(ops).enforced; vhost in l.entries && !l.entries[vhost].specific
    ensures SettingsOf(ops).default == Some(Run(ops).enforced.entries[vhost].limiter.limit)
    ensures vhost !in SettingsOf(ops).specific
  {
    RunRepresents(ops);
  }

  /** A vhost to which no limit applies is let through. */
  lemma UnlimitedIsAdmitted(ops: Trace, vhost: string, now: int)
    requires LimitFor(SettingsOf(ops), vhost) == None
    ensures Apply(Run(ops), Connect(vhost), now).0
  {
    RunRepresents(ops);
    LimitIsSpecificElseDefault(ops, vhost);
  }

  function WithoutAlarms(ops: Trace): Trace {
    if ops == [] then []
    else
      var front, last := WithoutAlarms(ops[..|ops| - 1]), ops[|ops| - 1];
      if last.0.Alarm? then front else front + [last]
  }

  /** Alarm-only settings never change an answer: leaving them all out gives the same ones. */
  lemma {:induction false} AlarmsDoNotInterfere(ops: Trace)
    ensures Answers(WithoutAlarms(ops)) == Answers(ops)
    ensures Run(WithoutAlarms(ops)).enforced == Run(ops).enforced
  {
    if ops != [] {
      var front, last := ops[..|ops| - 1], ops[|ops| - 1];
      AlarmsDoNotInterfere(front);
      var kept := WithoutAlarms(front);
      if !last.0.Alarm? {
        assert (kept + [last])[..|kept|] == kept;
        SameEnforcedSameAnswer(Run(kept), Run(front), last.0, last.1);
      }
    }
  }

  lemma SameEnforcedSameAnswer(a: Manager, b: Manager, op: Op, now: int)
    requires a.enforced == b.enforced
    ensures Apply(a, op, now).0 == Apply(b, op, now).0
    ensures Apply(a, op, now).1.enforced == Apply(b, op, now).1.enforced
  {
  }

  // ---- The rate a vhost gets through, whatever else happens ----

  /** Not a change that replaces or removes the limiter of the vhost. */
  predicate Spares(op: Op, vhost: string, specific: bool) {
    op.Enforce? ==>
      match op.change
      case Add(v, _) => v != vhost
      case Remove(v) => v != vhost
      case _ => specific
  }

  function ConnectTimes(ops: Trace, vhost: string): seq<int> {
    if ops == [] then []
    else
      var front, last := ConnectTimes(ops[..|ops| - 1], vhost), ops[|ops| - 1];
      if last.0 == Connect(vhost) then front + [last.1] else front
  }

  /** How many connections to the vhost are let through at a time from `start` up to, not including, `end`. */
  function Admitted(m: Manager, ops: Trace, vhost: string, start: int, end: int): nat {
    if ops == [] then 0
    else
      var front, last := ops[..|ops| - 1], ops[|ops| - 1];
      Admitted(m, front, vhost, start, end) +
      if last.0 == Connect(vhost) && start <= last.1 < end && Apply(RunFrom(m, front), last.0, last.1).0
      then 1 else 0
  }

  lemma {:induction false} LimiterRunExtends(l: Limiter, times: seq<int>, t: int, n: nat, start: int, end: int)
    requires n <= |times|
    ensures After(l, times + [t], n) == After(l, times, n)
    ensures AllowedIn(l, times + [t], n, start, end) == AllowedIn(l, times, n, start, end)
  {
    if n > 0 {
      LimiterRunExtends(l, times, t, n - 1, start, end);
    }
  }

  lemma OtherOpsSpare(m: Manager, op: Op, now: int, vhost: string)
    requires vhost in m.enforced.entries && op != Connect(vhost)
    requires Spares(op, vhost, m.enforced.entries[vhost].specific)
    ensures var next := Apply(m, op, now).1.enforced;
            vhost in next.entries && next.entries[vhost] == m.enforced.entries[vhost]
  {
  }

  /** A limiter left alone sees exactly the connections to its own vhost. */
  lemma {:induction false} LimiterSeesItsVhost(m: Manager, ops: Trace, vhost: string, start: int, end: int)
    requires vhost in m.enforced.entries
    requires forall i :: 0 <= i < |ops| ==> Spares(ops[i].0, vhost, m.enforced.entries[vhost].specific)
    ensures var l, times := m.enforced.entries[vhost].limiter, ConnectTimes(ops, vhost);
            var after := RunFrom(m, ops).enforced;
            && vhost in after.entries
            && after.entries[vhost] == m.enforced.entries[vhost].(limiter := After(l, times, |times|))
            && Admitted(m, ops, vhost, start, end) == AllowedIn(l, times, |times|, start, end)
  {
    if ops != [] {
      var front, last := ops[..|ops| - 1], ops[|ops| - 1];
      var l, times := m.enforced.entries[vhost].limiter, ConnectTimes(front, vhost);
      LimiterSeesItsVhost(m, front, vhost, start, end);
      var before := RunFrom(m, front);
      if last.0 == Connect(vhost) {
        LimiterRunExtends(l, times, last.1, |times|, start, end);
        LastCall(l, times + [last.1], |times| + 1, start, end);
        hide After, AllowedIn, Allowed, Allow;
      } else {
        hide After, AllowedIn, Allowed, Allow;
        OtherOpsSpare(before, last.0, last.1, vhost);
      }
    }
  }

  /** A default is made concrete by the first connection as if it had been there before. */
  lemma {:induction false} PopulatedEarlier(m: Manager, ops: Trace, vhost: string, now: int, start: int, end: int)
    requires ops != [] && ops[0] == (Connect(vhost), now)
    ensures var m' := m.(enforced := Populated(m.enforced, vhost, now));
            && RunFrom(m', ops).enforced == RunFrom(m, ops).enforced
            && Admitted(m', ops, vhost, start, end) == Admitted(m, ops, vhost, start, end)
  {
    var m' := m.(enforced := Populated(m.enforced, vhost, now));
    var front, last := ops[..|ops| - 1], ops[|ops| - 1];
    hide Allow;
    if front == [] {
      assert RunFrom(m, front) == m && RunFrom(m', front) == m';
      assert Populated(m'.enforced, vhost, now) == m'.enforced;
    } else {
      PopulatedEarlier(m, front, vhost, now, start, end);
      SameEnforcedSameAnswer(RunFrom(m', front), RunFrom(m, front), last.0, last.1);
    }
  }

  /** The limit in force for a vhost at the start of a stretch of operations, however much of it is used. */
  ghost predicate StartsWith(m: Manager, ops: Trace, vhost: string, limit: nat) {
    if vhost in m.enforced.entries then
      var l := m.enforced.entries[vhost].limiter;
      && l.limit == limit && l.count <= limit && l.window == SEC_TO_MS
      && (forall i :: 0 <= i < |ops| ==> l.lastTime <= ops[i].1)
    else
      m.enforced.default == Some(limit) && ops != [] && ops[0].0 == Connect(vhost)
  }

  predicate Chronological(ops: Trace) {
    forall i, j :: 0 <= i < j < |ops| ==> ops[i].1 <= ops[j].1
  }

  lemma {:induction false} TimesOfTrace(ops: Trace, vhost: string)
    ensures forall t :: t in ConnectTimes(ops, vhost) ==> exists i :: 0 <= i < |ops| && ops[i].1 == t
  {
    if ops != [] {
      var front := ops[..|ops| - 1];
      TimesOfTrace(front, vhost);
      forall t | t in ConnectTimes(ops, vhost) ensures exists i :: 0 <= i < |ops| && ops[i].1 == t {
        if t in ConnectTimes(front, vhost) {
          var i :| 0 <= i < |front| && front[i].1 == t;
          assert ops[i].1 == t;
        } else {
          assert ops[|ops| - 1].1 == t;
        }
      }
    }
  }

  predicate Ascending(times: seq<int>) {
    forall i, j :: 0 <= i < j < |times| ==> times[i] <= times[j]
  }

  lemma {:induction false} TimesAscend(ops: Trace, vhost: string)
    requires Chronological(ops)
    ensures Ascending(ConnectTimes(ops, vhost))
  {
    if ops != [] {
      var front := ops[..|ops| - 1];
      TimesAscend(front, vhost);
      TimesOfTrace(front, vhost);
      var times := ConnectTimes(front, vhost);
      forall i | 0 <= i < |times| ensures times[i] <= ops[|ops| - 1].1 {
        assert times[i] in times;
      }
      var all := ConnectTimes(ops, vhost);
      forall i, j | 0 <= i < j < |all| ensures all[i] <= all[j] {
        assert all[i] == times[i];
        if j < |times| {
          assert all[j] == times[j];
        } else {
          assert all[j] == ops[|ops| - 1].1;
        }
      }
    }
  }

  /**
   * While its limiter is left alone, a vhost gets at most (k + 1) times its limit through in
   * any k seconds, whatever is done meanwhile to other vhosts, to alarms, or, when the limit is
   * its own, to the default.
   */
  lemma VhostRateBound(m: Manager, ops: Trace, vhost: string, limit: nat, start: int, k: nat)
    requires StartsWith(m, ops, vhost, limit) && Chronological(ops)
    requires forall i :: 0 <= i < |ops| ==>
               Spares(ops[i].0, vhost, vhost in m.enforced.entries && m.enforced.entries[vhost].specific)
    ensures Admitted(m, ops, vhost, start, start + k * SEC_TO_MS) <= (k + 1) * limit
  {
    var now := if vhost in m.enforced.entries then m.enforced.entries[vhost].limiter.lastTime else ops[0].1;
    var m' := m.(enforced := Populated(m.enforced, vhost, now));
    var l, times, end := m'.enforced.entries[vhost].limiter, ConnectTimes(ops, vhost), start + k * SEC_TO_MS;
    if vhost !in m.enforced.entries {
      PopulatedEarlier(m, ops, vhost, now, start, end);
    }
    hide Admitted, AllowedIn, After, Allow, RunFrom;
    LimiterSeesItsVhost(m', ops, vhost, start, end);
    TimesAscend(ops, vhost);
    TimesOfTrace(ops, vhost);
    forall i | 0 <= i < |times| ensures l.lastTime <= times[i] {
      assert times[i] in times;
    }
    SlidingBound(l, times, |times|, start, k);
  }

  // ---- Exactly which connections are let through ----

  /**
   * The operation with which the present window of a vhost began: the one that made its limiter,
   * or a connection at least a second after the beginning of the window before.
   */
  function WindowAt(ops: Trace, vhost: string): (p: Option<nat>)
    ensures p.Some? ==> p.value < |ops|
  {
    if ops == [] then None
    else
      var front, last := ops[..|ops| - 1], ops[|ops| - 1];
      var before, s, here := WindowAt(front, vhost), SettingsOf(front), Some(|ops| - 1);
      match last.0
      case Connect(v) =>
        if v != vhost then before
        else if before.None? then (if LimitFor(s, vhost).Some? then here else None)
        else if last.1 - front[before.value].1 >= 1000 then here
        else before
      case Alarm(_) => before
      case Enforce(c) =>
        match c
        case Add(v, _) => if v == vhost then here else before
        case Remove(v) => if v != vhost then before else if s.default.Some? then here else None
        case SetDefault(_) => if before.Some? && vhost !in s.specific then here else before
        case RemoveDefault => if vhost in s.specific then before else None
  }

  predicate LetThrough(ops: Trace, i: nat, vhost: string)
    requires i < |ops|
  {
    ops[i].0 == Connect(vhost) && Apply(Run(ops[..i]), ops[i].0, ops[i].1).0
  }

  /** How many connections to the vhost were let through from the operation at `p` on. */
  function LetThroughFrom(ops: Trace, vhost: string, p: nat): nat
    requires p <= |ops|
  {
    if |ops| == p then 0
    else LetThroughFrom(ops[..|ops| - 1], vhost, p) + if LetThrough(ops, |ops| - 1, vhost) then 1 else 0
  }

  /** The limiter of a vhost has counted exactly what was let through since its window began. */
  ghost predicate Counts(ops: Trace, vhost: string) {
    var l, p := Run(ops).enforced, WindowAt(ops, vhost);
    && (vhost in l.entries <==> p.Some?)
    && (p.Some? ==>
          var limiter := l.entries[vhost].limiter;
          && limiter.lastTime == ops[p.value].1 && limiter.count == LetThroughFrom(ops, vhost, p.value)
          && limiter.window == 1000)
  }

  lemma CountsAfterConnect(ops: Trace, vhost: string)
    requires ops != [] && ops[|ops| - 1].0 == Connect(vhost) && Counts(ops[..|ops| - 1], vhost)
    ensures Counts(ops, vhost)
  {
    var front, last := ops[..|ops| - 1], ops[|ops| - 1];
    LimitIsSpecificElseDefault(front, vhost);
    RunRepresents(front);
    assert Run(ops) == Apply(Run(front), last.0, last.1).1;
    var p := WindowAt(ops, vhost);
    if p.Some? {
      assert LetThroughFrom(ops, vhost, p.value) ==
        LetThroughFrom(front, vhost, if p.value == |front| then |front| else p.value) + if LetThrough(ops, |front|, vhost) then 1 else 0;
    }
  }

  lemma CountsAfterOther(ops: Trace, vhost: string)
    requires ops != [] && ops[|ops| - 1].0 != Connect(vhost) && Counts(ops[..|ops| - 1], vhost)
    ensures Counts(ops, vhost)
  {
    var front, last := ops[..|ops| - 1], ops[|ops| - 1];
    hide LimitFor, Allow;
    RunRepresents(front);
    assert Run(ops) == Apply(Run(front), last.0, last.1).1;
    var p := WindowAt(ops, vhost);
    if p.Some? {
      assert LetThroughFrom(ops, vhost, p.value) == if p.value == |front| then 0 else LetThroughFrom(front, vhost, p.value);
    }
  }

  lemma {:induction false} RunCounts(ops: Trace, vhost: string)
    ensures Counts(ops, vhost)
  {
    if ops != [] {
      var front := ops[..|ops| - 1];
      RunCounts(front, vhost);
      hide Counts;
      if ops[|ops| - 1].0 == Connect(vhost) {
        CountsAfterConnect(ops, vhost);
      } else {
        CountsAfterOther(ops, vhost);
      }
    }
  }

  /**
   * A connection is to be let through if no limit applies, or if fewer than the limit were let
   * through since the window began, or if the limit allows any and a second has passed since.
   */
  predicate Allows(ops: Trace, vhost: string, now: int) {
    var limit, p := LimitFor(SettingsOf(ops), vhost), WindowAt(ops, vhost);
    || limit.None?
    || (p.Some? && now - ops[p.value].1 < 1000 && LetThroughFrom(ops, vhost, p.value) < limit.value)
    || ((p.None? || now - ops[p.value].1 >= 1000) && limit.value > 0)
  }

  /** Exactly these are, after any operations at any times. */
  lemma AdmittedIff(ops: Trace, vhost: string, now: int)
    ensures Apply(Run(ops), Connect(vhost), now).0 <==> Allows(ops, vhost, now)
  {
    RunCounts(ops, vhost);
    LimitIsSpecificElseDefault(ops, vhost);
    hide Run, WindowAt, LetThroughFrom, SettingsOf, LimitFor;
  }

  lemma {:induction false} LetThroughIsAdmitted(ops: Trace, vhost: string, p: nat, start: int, end: int)
    requires p < |ops| && Chronological(ops) && start <= ops[p].1 && ops[|ops| - 1].1 < end
    ensures LetThroughFrom(ops, vhost, p) <= Admitted(Initial(), ops, vhost, start, end)
    decreases |ops|
  {
    var front, last := ops[..|ops| - 1], ops[|ops| - 1];
    assert ops[p].1 <= last.1;
    assert LetThroughFrom(ops, vhost, p) == LetThroughFrom(front, vhost, p) + if LetThrough(ops, |ops| - 1, vhost) then 1 else 0;
    assert LetThrough(ops, |ops| - 1, vhost) ==> last.0 == Connect(vhost) && Apply(RunFrom(Initial(), front), last.0, last.1).0;
    if p < |front| {
      assert front[|front| - 1].1 <= last.1;
      LetThroughIsAdmitted(front, vhost, p, start, end);
    }
  }

  /** A connection is refused only when the limit, if any is allowed, was used up within the last second. */
  lemma RefusalMeansFull(ops: Trace, vhost: string, now: int)
    requires Chronological(ops + [(Connect(vhost), now)]) && !Apply(Run(ops), Connect(vhost), now).0
    ensures var limit := LimitFor(SettingsOf(ops), vhost);
      limit.Some? && (limit.value > 0 ==> Admitted(Initial(), ops, vhost, now - 999, now + 1) >= limit.value)
  {
    AdmittedIff(ops, vhost, now);
    var limit, p := LimitFor(SettingsOf(ops), vhost), WindowAt(ops, vhost);
    if limit.Some? && limit.value > 0 {
      var all := ops + [(Connect(vhost), now)];
      assert forall i :: 0 <= i < |ops| ==> all[i] == ops[i];
      assert all[|ops|].1 == now;
      hide Run, WindowAt, LetThroughFrom, SettingsOf, LimitFor, Admitted, Apply;
      LetThroughIsAdmitted(ops, vhost, p.value, now - 999, now + 1);
    }
  }
}

/** The manager object, whose two sets of limiters are kept in the same way. */
module LimiterManagers {
  import opened Options
  import opened RateLimiters
  import opened LimiterModel

  method RefreshDefaults(entries: map<string, Entry>, limit: nat, now: int) returns (r: map<string, Entry>)
    ensures r == Replaced(entries, limit, now)
  {
    r := entries;
    var rest := entries.Keys;
    while rest != {}
      invariant rest <= entries.Keys == r.Keys
      invariant forall v :: v in entries ==>
                  r[v] == if v in rest then entries[v] else Replaced(entries, limit, now)[v]
      decreases rest
    {
      var v :| v in rest;
      if !r[v].specific {
        r := r[v := Entry(false, New(limit, now))];
      }
      rest := rest - {v};
    }
  }

  /** Erases, while walking over them, the entries that stem from a default. */
  method EraseDefaults(entries: map<string, Entry>) returns (r: map<string, Entry>)
    ensures r == Specific(entries)
  {
    r := entries;
    var rest := entries.Keys;
    while rest != {}
      invariant rest <= entries.Keys && rest <= r.Keys <= entries.Keys
      invariant forall v :: v in entries && v !in rest ==> (v in r <==> entries[v].specific)
      invariant forall v :: v in r ==> r[v] == entries[v]
      decreases rest
    {
      var v :| v in rest;
      if !r[v].specific {
        r := r - {v};
      }
      rest := rest - {v};
    }
  }

  method ApplyChange(l: Limits, c: Change, now: int) returns (r: Limits)
    ensures r == Changed(l, c, now)
  {
    match c {
      case Add(v, n) => return l.(entries := l.entries[v := Entry(true, New(n, now))]);
      case SetDefault(n) =>
        var entries := RefreshDefaults(l.entries, n, now);
        return Limits(entries, Some(n));
      case Remove(v) =>
        if l.default.Some? {
          return l.(entries := l.entries[v := Entry(false, New(l.default.value, now))]);
        }
        return l.(entries := l.entries - {v});
      case RemoveDefault =>
        var entries := EraseDefaults(l.entries);
        return Limits(entries, None);
    }
  }

  class ConnectionLimiterManager {
    var enforced: Limits
    var alarms: Limits
    ghost var trace: Trace    // the operations so far

    ghost function State(): Manager
      reads this
    {
      Manager(enforced, alarms)
    }

    ghost predicate Valid()
      reads this
    {
      State() == Run(trace)
    }

    constructor ()
      ensures Valid() && trace == []
    {
      enforced, alarms, trace := Limits(map[], None), Limits(map[], None), [];
    }

    ghost method Note(op: Op, now: int)
      requires State() == Apply(Run(trace), op, now).1
      modifies this`trace
      ensures Valid() && trace == old(trace) + [(op, now)]
    {
      trace := trace + [(op, now)];
      assert trace[..|trace| - 1] == old(trace);
    }

    method ChangeEnforced(c: Change, now: int)
      requires Valid()
      modifies this`enforced, this`trace
      ensures Valid() && trace == old(trace) + [(Enforce(c), now)]
    {
      hide Run, Changed;
      enforced := ApplyChange(enforced, c, now);
      Note(Enforce(c), now);
    }

    method ChangeAlarms(c: Change, now: int)
      requires Valid()
      modifies this`alarms, this`trace
      ensures Valid() && trace == old(trace) + [(Alarm(c), now)]
    {
      hide Run, Changed;
      alarms := ApplyChange(alarms, c, now);
      Note(Alarm(c), now);
    }

    /** The answer follows from the operations so far and their times alone. */
    method AllowNewConnectionForVhost(vhost: string, now: int) returns (allowed: bool)
      requires Valid()
      modifies this
      ensures Valid() && trace == old(trace) + [(Connect(vhost), now)]
      ensures allowed <==> Allows(old(trace), vhost, now)
    {
      hide Run, Allow, Allows;
      AdmittedIff(trace, vhost, now);
      alarms := Populated(alarms, vhost, now);
      enforced := Populated(enforced, vhost, now);
      if vhost in alarms.entries {
        var entry := alarms.entries[vhost];
        var (_, next) := Allow(entry.limiter, now);
        alarms := alarms.(entries := alarms.entries[vhost := entry.(limiter := next)]);
      }
      allowed := true;
      if vhost in enforced.entries {
        var entry := enforced.entries[vhost];
        var (ok, next) := Allow(entry.limiter, now);
        enforced := enforced.(entries := enforced.entries[vhost := entry.(limiter := next)]);
        if !ok {
          allowed := false;
        }
      }
      Note(Connect(vhost), now);
    }
  }
}
