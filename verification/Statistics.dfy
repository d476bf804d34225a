/** Wrapping counters, their sums over finite sets, and what a session contributes. */
module Statistics {
  const WORD_LIMIT := 0x1_0000_0000_0000_0000

  type Word = w: int | 0 <= w < WORD_LIMIT

  /** Addition and subtraction of 64-bit unsigned integers. */
  function Add(a: Word, b: Word): Word {
    if a + b < WORD_LIMIT then a + b else a + b - WORD_LIMIT
  }

  function Sub(a: Word, b: Word): Word {
    if a >= b then a - b else a - b + WORD_LIMIT
  }

  /** The traffic metrics come first; only they are reported as differences. */
  const TRAFFIC := 10
  const METRICS := 17

  type Stats = s: seq<Word> | |s| == METRICS witness seq(METRICS, _ => 0)

  function Zero(): Stats {
    seq(METRICS, _ => 0)
  }

  function Plus(a: Stats, b: Stats): Stats {
    seq(METRICS, i requires 0 <= i < METRICS => Add(a[i], b[i]))
  }

  function Minus(a: Stats, b: Stats): Stats {
    seq(METRICS, i requires 0 <= i < METRICS => Sub(a[i], b[i]))
  }

  /** The traffic metrics alone. */
  function Traffic(a: Stats): Stats {
    seq(METRICS, i requires 0 <= i < METRICS => if i < TRAFFIC then a[i] else 0)
  }

  lemma PlusLaws(a: Stats, b: Stats, c: Stats)
    ensures Plus(a, b) == Plus(b, a)
    ensures Plus(Plus(a, b), c) == Plus(a, Plus(b, c))
    ensures Plus(a, Zero()) == a
  {
  }

  lemma MinusUndoesPlus(a: Stats, b: Stats)
    ensures Minus(Plus(a, b), b) == a && Plus(Minus(a, b), b) == a && Minus(a, a) == Zero()
  {
  }

  lemma MinusOfSums(a: Stats, b: Stats, c: Stats, d: Stats)
    ensures Minus(Plus(a, c), Plus(b, d)) == Plus(Minus(a, b), Minus(c, d))
  {
  }

  lemma TrafficLaws(a: Stats, b: Stats)
    ensures Traffic(Plus(a, b)) == Plus(Traffic(a), Traffic(b))
    ensures Traffic(Minus(a, b)) == Minus(Traffic(a), Traffic(b))
    ensures Traffic(Traffic(a)) == Traffic(a) && Traffic(Zero()) == Zero()
  {
  }

  // ---- Sums ----

  ghost function Sum<K(!new)>(s: set<K>, f: map<K, Stats>): Stats
    requires s <= f.Keys
  {
    if s == {} then Zero()
    else
      var x :| x in s;
      Plus(Sum(s - {x}, f), f[x])
  }

  lemma SumOfNone<K(!new)>(f: map<K, Stats>)
    ensures Sum({}, f) == Zero()
  {
  }

  /** A sum may be taken apart at any element. */
  lemma {:induction false} SumAt<K(!new)>(s: set<K>, f: map<K, Stats>, x: K)
    requires s <= f.Keys && x in s
    ensures Sum(s, f) == Plus(Sum(s - {x}, f), f[x])
    decreases s
  {
    var y :| y in s && Sum(s, f) == Plus(Sum(s - {y}, f), f[y]);
    if y != x {
      hide Plus, Sum;
      SumAt(s - {y}, f, x);
      SumAt(s - {x}, f, y);
      var rest := Sum(s - {x} - {y}, f);
      assert s - {x} - {y} == s - {y} - {x};
      PlusLaws(rest, f[x], f[y]);
      PlusLaws(f[x], f[y], rest);
      PlusLaws(rest, f[y], f[x]);
    }
  }

  lemma {:induction false} SumAgrees<K(!new)>(s: set<K>, f: map<K, Stats>, g: map<K, Stats>)
    requires s <= f.Keys && s <= g.Keys && forall x :: x in s ==> f[x] == g[x]
    ensures Sum(s, f) == Sum(s, g)
    decreases s
  {
    if s != {} {
      var x :| x in s;
      hide Plus, Sum;
      SumAt(s, f, x);
      SumAt(s, g, x);
      SumAgrees(s - {x}, f, g);
    }
  }

  lemma {:induction false} SumDisjoint<K(!new)>(s: set<K>, t: set<K>, f: map<K, Stats>)
    requires s <= f.Keys && t <= f.Keys && s !! t
    ensures Sum(s + t, f) == Plus(Sum(s, f), Sum(t, f))
    decreases t
  {
    if t == {} {
      assert s + t == s;
      PlusLaws(Sum(s, f), Zero(), Zero());
    } else {
      var x :| x in t;
      hide Plus, Sum;
      SumAt(t, f, x);
      SumAt(s + t, f, x);
      assert s + t - {x} == s + (t - {x});
      SumDisjoint(s, t - {x}, f);
      PlusLaws(Sum(s, f), Sum(t - {x}, f), f[x]);
    }
  }

  lemma {:induction false} SumOfDifferences<K(!new)>(s: set<K>, f: map<K, Stats>, g: map<K, Stats>, h: map<K, Stats>)
    requires s <= f.Keys && s <= g.Keys && s <= h.Keys
    requires forall x :: x in s ==> h[x] == Minus(f[x], g[x])
    ensures Sum(s, h) == Minus(Sum(s, f), Sum(s, g))
    decreases s
  {
    if s == {} {
      MinusUndoesPlus(Zero(), Zero());
    } else {
      var x :| x in s;
      hide Plus, Sum, Minus;
      SumAt(s, f, x);
      SumAt(s, g, x);
      SumAt(s, h, x);
      SumOfDifferences(s - {x}, f, g, h);
      MinusOfSums(Sum(s - {x}, f), Sum(s - {x}, g), f[x], g[x]);
    }
  }

  lemma {:induction false} SumOfZeros<K(!new)>(s: set<K>, f: map<K, Stats>)
    requires s <= f.Keys && forall x :: x in s ==> f[x] == Zero()
    ensures Sum(s, f) == Zero()
    decreases s
  {
    if s != {} {
      var x :| x in s;
      hide Plus, Sum;
      SumAt(s, f, x);
      SumOfZeros(s - {x}, f);
      PlusLaws(Zero(), Zero(), Zero());
    }
  }

  lemma {:induction false} TrafficOfSum<K(!new)>(s: set<K>, f: map<K, Stats>, g: map<K, Stats>)
    requires s <= f.Keys && s <= g.Keys && forall x :: x in s ==> g[x] == Traffic(f[x])
    ensures Traffic(Sum(s, f)) == Sum(s, g)
    decreases s
  {
    if s == {} {
      TrafficLaws(Zero(), Zero());
    } else {
      var x :| x in s;
      hide Plus, Sum, Traffic;
      SumAt(s, f, x);
      SumAt(s, g, x);
      TrafficOfSum(s - {x}, f, g);
      TrafficLaws(Sum(s - {x}, f), f[x]);
    }
  }

  // ---- One metric of a sum, in plain integers ----

  ghost function Total<K(!new)>(s: set<K>, f: map<K, int>): int
    requires s <= f.Keys
  {
    if s == {} then 0
    else
      var x :| x in s;
      Total(s - {x}, f) + f[x]
  }

  lemma {:induction false} TotalAt<K(!new)>(s: set<K>, f: map<K, int>, x: K)
    requires s <= f.Keys && x in s
    ensures Total(s, f) == Total(s - {x}, f) + f[x]
    decreases s
  {
    var y :| y in s && Total(s, f) == Total(s - {y}, f) + f[y];
    if y != x {
      TotalAt(s - {y}, f, x);
      TotalAt(s - {x}, f, y);
      assert s - {x} - {y} == s - {y} - {x};
    }
  }

  lemma AddIsModular(a: int, b: int)
    ensures Add(a % WORD_LIMIT, b % WORD_LIMIT) == (a + b) % WORD_LIMIT
  {
  }

  /** A metric of a sum is the sum of the metric, up to wrapping around. */
  lemma {:induction false} MetricOfSum<K(!new)>(s: set<K>, f: map<K, Stats>, g: map<K, int>, metric: nat)
    requires metric < METRICS && s <= f.Keys && s <= g.Keys
    requires forall x :: x in s ==> f[x][metric] == g[x] % WORD_LIMIT
    ensures Sum(s, f)[metric] == Total(s, g) % WORD_LIMIT
    decreases s
  {
    if s == {} {
      assert Sum(s, f) == Zero() && Total(s, g) == 0;
    } else {
      var x :| x in s;
      hide Sum, Total, Add;
      SumAt(s, f, x);
      TotalAt(s, g, x);
      MetricOfSum(s - {x}, f, g, metric);
      AddIsModular(Total(s - {x}, g), g[x]);
    }
  }

  ghost function Ones<K(!new)>(s: set<K>, f: map<K, int>): set<K>
    requires s <= f.Keys
  {
    set x | x in s && f[x] == 1
  }

  /** Adding ones counts. */
  lemma {:induction false} TotalCounts<K(!new)>(s: set<K>, f: map<K, int>)
    requires s <= f.Keys && forall x :: x in s ==> f[x] == 0 || f[x] == 1
    ensures Total(s, f) == |Ones(s, f)|
    decreases s
  {
    if s == {} {
      assert Ones(s, f) == {};
    } else {
      var x :| x in s;
      TotalAt(s, f, x);
      hide Total;
      TotalCounts(s - {x}, f);
      assert Ones(s, f) == if f[x] == 1 then Ones(s - {x}, f) + {x} else Ones(s - {x}, f);
    }
  }

  // ---- Sessions ----

  datatype Disconnect = Connected | ByClient | ByServer | Cleanly | ByProxy

  datatype Direction = Direction(packets: Word, frames: Word, bytes: Word, latencyTotal: Word, latencyCount: Word)

  datatype Session = Session(vhost: string, backend: string, source: string, ingress: Direction, egress: Direction,
                             disconnect: Disconnect, paused: bool, authDenied: bool, limited: bool, finished: bool)

  function One(b: bool): Word {
    if b then 1 else 0
  }

  // Where each metric is kept.
  const PACKETS_SENT := 0
  const PACKETS_RECEIVED := 1
  const FRAMES_SENT := 2
  const FRAMES_RECEIVED := 3
  const BYTES_SENT := 4
  const BYTES_RECEIVED := 5
  const SEND_LATENCY_TOTAL := 6
  const SEND_LATENCY_COUNT := 7
  const RECEIVE_LATENCY_TOTAL := 8
  const RECEIVE_LATENCY_COUNT := 9
  const REMOVED_CLIENT_SNAPPED := 10
  const REMOVED_BROKER_SNAPPED := 11
  const REMOVED_GRACEFUL := 12
  const ACTIVE := 13
  const PAUSED := 14
  const AUTH_DENIED := 15
  const LIMITED := 16

  /** What is sent leaves on the egress side, what is received arrives on the ingress side. */
  function Contribution(s: Session): Stats {
    [ s.egress.packets, s.ingress.packets,
      s.egress.frames, s.ingress.frames,
      s.egress.bytes, s.ingress.bytes,
      s.egress.latencyTotal, s.egress.latencyCount,
      s.ingress.latencyTotal, s.ingress.latencyCount,
      One(s.disconnect == ByClient),
      One(s.disconnect == ByServer),
      One(s.disconnect == Cleanly || s.disconnect == ByProxy),
      One(s.disconnect == Connected),
      One(s.paused), One(s.authDenied), One(s.limited) ]
  }

  /** How many sessions were counted, whatever became of them. */
  function Counted(a: Stats): Word {
    Add(Add(a[ACTIVE], a[REMOVED_GRACEFUL]), Add(a[REMOVED_BROKER_SNAPPED], a[REMOVED_CLIENT_SNAPPED]))
  }

  lemma AddLaws(a: Word, b: Word, c: Word)
    ensures Add(a, b) == Add(b, a) && Add(Add(a, b), c) == Add(a, Add(b, c))
  {
  }

  lemma AddSwapsInner(a: Word, b: Word, c: Word, d: Word)
    ensures Add(Add(a, b), Add(c, d)) == Add(Add(a, c), Add(b, d))
  {
    hide Add;
    AddLaws(a, b, Add(c, d));
    AddLaws(b, c, d);
    AddLaws(c, b, d);
    AddLaws(a, c, Add(b, d));
  }

  lemma CountedAdds(a: Stats, b: Stats)
    ensures Counted(Plus(a, b)) == Add(Counted(a), Counted(b))
  {
    hide Add;
    AddSwapsInner(a[ACTIVE], b[ACTIVE], a[REMOVED_GRACEFUL], b[REMOVED_GRACEFUL]);
    AddSwapsInner(a[REMOVED_BROKER_SNAPPED], b[REMOVED_BROKER_SNAPPED], a[REMOVED_CLIENT_SNAPPED], b[REMOVED_CLIENT_SNAPPED]);
    AddSwapsInner(Add(a[ACTIVE], a[REMOVED_GRACEFUL]), Add(b[ACTIVE], b[REMOVED_GRACEFUL]),
                  Add(a[REMOVED_BROKER_SNAPPED], a[REMOVED_CLIENT_SNAPPED]),
                  Add(b[REMOVED_BROKER_SNAPPED], b[REMOVED_CLIENT_SNAPPED]));
  }

  lemma CountWraps(n: nat)
    ensures Add(n % WORD_LIMIT, 1) == (n + 1) % WORD_LIMIT
  {
  }

  /** Adds to one metric; the others stay. */
  method Bump(stats: Stats, metric: nat, n: Word) returns (r: Stats)
    requires metric < METRICS
    ensures r == stats[metric := Add(stats[metric], n)]
  {
    r := stats[metric := Add(stats[metric], n)];
  }

  method AddTraffic(stats: Stats, s: Session) returns (r: Stats)
    ensures r == Plus(stats, Traffic(Contribution(s)))
  {
    r := Bump(stats, PACKETS_SENT, s.egress.packets);
    r := Bump(r, PACKETS_RECEIVED, s.ingress.packets);
    r := Bump(r, FRAMES_SENT, s.egress.frames);
    r := Bump(r, FRAMES_RECEIVED, s.ingress.frames);
    r := Bump(r, BYTES_SENT, s.egress.bytes);
    r := Bump(r, BYTES_RECEIVED, s.ingress.bytes);
    r := Bump(r, SEND_LATENCY_TOTAL, s.egress.latencyTotal);
    r := Bump(r, SEND_LATENCY_COUNT, s.egress.latencyCount);
    r := Bump(r, RECEIVE_LATENCY_TOTAL, s.ingress.latencyTotal);
    r := Bump(r, RECEIVE_LATENCY_COUNT, s.ingress.latencyCount);
  }

  /** The metrics that are not traffic: what state a session is in. */
  function Gauges(a: Stats): Stats {
    seq(METRICS, i requires 0 <= i < METRICS => if i < TRAFFIC then 0 else a[i])
  }

  /** One of the four ways a session can be counted. */
  method AddStatus(stats: Stats, s: Session) returns (r: Stats)
    ensures r == stats[REMOVED_CLIENT_SNAPPED := Add(stats[REMOVED_CLIENT_SNAPPED], One(s.disconnect == ByClient))]
                      [REMOVED_BROKER_SNAPPED := Add(stats[REMOVED_BROKER_SNAPPED], One(s.disconnect == ByServer))]
                      [REMOVED_GRACEFUL := Add(stats[REMOVED_GRACEFUL], One(s.disconnect == Cleanly || s.disconnect == ByProxy))]
                      [ACTIVE := Add(stats[ACTIVE], One(s.disconnect == Connected))]
  {
    if s.disconnect == ByClient {
      r := Bump(stats, REMOVED_CLIENT_SNAPPED, 1);
    } else if s.disconnect == ByServer {
      r := Bump(stats, REMOVED_BROKER_SNAPPED, 1);
    } else if s.disconnect == Cleanly || s.disconnect == ByProxy {
      r := Bump(stats, REMOVED_GRACEFUL, 1);
    } else {
      r := Bump(stats, ACTIVE, 1);
    }
  }

  /** Adds one to a metric if the condition holds. */
  method BumpIf(stats: Stats, metric: nat, b: bool) returns (r: Stats)
    requires metric < METRICS
    ensures r == stats[metric := Add(stats[metric], One(b))]
  {
    r := stats;
    if b {
      r := Bump(stats, metric, 1);
    }
  }

  method AddGauges(stats: Stats, s: Session) returns (r: Stats)
    ensures r == Plus(stats, Gauges(Contribution(s)))
  {
    r := AddStatus(stats, s);
    r := BumpIf(r, PAUSED, s.paused);
    r := BumpIf(r, AUTH_DENIED, s.authDenied);
    r := BumpIf(r, LIMITED, s.limited);
  }

  lemma TrafficAndGauges(a: Stats)
    ensures Plus(Traffic(a), Gauges(a)) == a
  {
  }

  /** Adds a session to the statistics of one axis. */
  method AddStats(stats: Stats, s: Session) returns (r: Stats)
    ensures r == Plus(stats, Contribution(s))
  {
    hide Plus, Traffic, Gauges, Contribution;
    r := AddTraffic(stats, s);
    r := AddGauges(r, s);
    TrafficAndGauges(Contribution(s));
    PlusLaws(stats, Traffic(Contribution(s)), Gauges(Contribution(s)));
  }

  /** Subtracts from one metric, the way a distribution does it: by adding the negative. */
  method Drop(stats: Stats, metric: nat, n: Word) returns (r: Stats)
    requires metric < METRICS
    ensures r == stats[metric := Sub(stats[metric], n)]
  {
    r := stats[metric := Add(stats[metric], Sub(0, n))];
  }

  /** Takes a session's traffic out again. */
  method RemStats(stats: Stats, s: Session) returns (r: Stats)
    ensures r == Minus(stats, Traffic(Contribution(s)))
  {
    r := Drop(stats, PACKETS_SENT, s.egress.packets);
    r := Drop(r, PACKETS_RECEIVED, s.ingress.packets);
    r := Drop(r, FRAMES_SENT, s.egress.frames);
    r := Drop(r, FRAMES_RECEIVED, s.ingress.frames);
    r := Drop(r, BYTES_SENT, s.egress.bytes);
    r := Drop(r, BYTES_RECEIVED, s.ingress.bytes);
    r := Drop(r, SEND_LATENCY_TOTAL, s.egress.latencyTotal);
    r := Drop(r, SEND_LATENCY_COUNT, s.egress.latencyCount);
    r := Drop(r, RECEIVE_LATENCY_TOTAL, s.ingress.latencyTotal);
    r := Drop(r, RECEIVE_LATENCY_COUNT, s.ingress.latencyCount);
  }

  /** The difference to an earlier state of the same axis: a loop over the traffic metrics alone. */
  method Difference(stats: Stats, previous: Stats) returns (r: Stats)
    ensures r == Minus(stats, Traffic(previous))
  {
    r := stats;
    for i := 0 to TRAFFIC
      invariant forall j :: 0 <= j < METRICS ==> r[j] == if j < i then Sub(stats[j], previous[j]) else stats[j]
    {
      r := r[i := Sub(r[i], previous[i])];
    }
  }
}
