/** How evenly successive sessions spread their first attempt over a partition. */
module Fairness {
  import opened Options
  import opened Modular
  import opened BackendModel

  /** The markers once `sessions` sessions have each asked `marks` times for their first choice. */
  function MarkersAfter(parts: seq<Partition>, markers: seq<nat>, marks: nat, sessions: nat): (r: seq<nat>)
    requires |markers| == |parts|
    ensures |r| == |parts|
  {
    if sessions == 0 then markers
    else MarkedTimes(parts, MarkersAfter(parts, markers, marks, sessions - 1), marks)
  }

  function MarkedTimes(parts: seq<Partition>, markers: seq<nat>, times: nat): (r: seq<nat>)
    requires |markers| == |parts|
    ensures |r| == |parts|
  {
    if times == 0 then markers else Marked(parts, MarkedTimes(parts, markers, times - 1), 0)
  }

  /** The backend on which session number `j` starts; each session has its own snapshot. */
  function StartsOn(parts: seq<Partition>, markers: seq<nat>, marks: nat, j: nat): Option<Backend>
    requires |markers| == |parts|
  {
    Pick(parts, MarkersAfter(parts, markers, marks, j), 0)
  }

  function Position(m: nat, c: nat, n: nat, j: nat): (p: nat)
    requires n > 0
    ensures p < n
  {
    (m + c * j) % n
  }

  lemma {:induction false} MarkedTimesAdds(parts: seq<Partition>, markers: seq<nat>, times: nat)
    requires |markers| == |parts| && parts != [] && parts[0] != []
    ensures MarkedTimes(parts, markers, times) == markers[0 := markers[0] + times]
  {
    if times > 0 {
      MarkedTimesAdds(parts, markers, times - 1);
    }
  }

  lemma {:induction false} MarkersAfterAdd(parts: seq<Partition>, markers: seq<nat>, marks: nat, sessions: nat)
    requires |markers| == |parts| && parts != [] && parts[0] != []
    ensures MarkersAfter(parts, markers, marks, sessions) == markers[0 := markers[0] + marks * sessions]
  {
    if sessions > 0 {
      MarkersAfterAdd(parts, markers, marks, sessions - 1);
      MarkedTimesAdds(parts, MarkersAfter(parts, markers, marks, sessions - 1), marks);
      assert marks * sessions == marks * (sessions - 1) + marks;
    }
  }

  lemma StartsAtPosition(parts: seq<Partition>, markers: seq<nat>, marks: nat, j: nat)
    requires |markers| == |parts| && parts != [] && parts[0] != []
    ensures StartsOn(parts, markers, marks, j) == Some(parts[0][Position(markers[0], marks, |parts[0]|, j)])
  {
    MarkersAfterAdd(parts, markers, marks, j);
  }

  lemma SamePosition(m: nat, c: nat, n: nat, i: nat, j: nat)
    requires n > 0
    ensures Position(m, c, n, i) == Position(m, c, n, j) <==> Divides(n, c * (j - i))
  {
    SameRemainder(m + c * i, m + c * j, n);
    assert m + c * j - (m + c * i) == c * (j - i);
  }

  lemma ProperQuotient(d: nat, e: nat)
    requires d > 1 && d * e > 0
    ensures 0 < e < d * e
  {
    assert d * e == e + (d - 1) * e;
  }

  /** A common divisor d brings the same position back after n/d sessions. */
  lemma CommonDivisorRepeats(m: nat, c: nat, n: nat, d: nat)
    requires n > 0 && d > 1 && Divides(d, c) && Divides(d, n)
    ensures 0 < n / d < n && Position(m, c, n, 0) == Position(m, c, n, n / d)
  {
    var e, f := n / d, c / d;
    DivisorTimesQuotient(d, n);
    DivisorTimesQuotient(d, c);
    ProperQuotient(d, e);
    assert c * e == n * f by {
      ProductSwaps(d, f, e);
    }
    hide Divides, Position;
    MultipleDivides(n, f);
    SamePosition(m, c, n, 0, e);
  }

  ghost predicate AllDistinct(parts: seq<Partition>, markers: seq<nat>, marks: nat, n: nat)
    requires |markers| == |parts|
  {
    forall i, j :: 0 <= i < j < n ==> StartsOn(parts, markers, marks, i) != StartsOn(parts, markers, marks, j)
  }

  predicate NoRepeats(p: Partition) {
    forall i, j :: 0 <= i < j < |p| ==> p[i] != p[j]
  }

  /** As many consecutive sessions as there are backends start on different ones exactly when marks and backends are coprime. */
  lemma DistinctStartsIffCoprime(parts: seq<Partition>, markers: seq<nat>, marks: nat)
    requires |markers| == |parts| && parts != [] && parts[0] != [] && NoRepeats(parts[0])
    ensures AllDistinct(parts, markers, marks, |parts[0]|) <==> Coprime(marks, |parts[0]|)
  {
    var n, m := |parts[0]|, markers[0];
    if Coprime(marks, n) {
      forall i, j | 0 <= i < j < n
        ensures StartsOn(parts, markers, marks, i) != StartsOn(parts, markers, marks, j)
      {
        RoundPositionsDiffer(m, marks, n, i, j);
        StartsAtPosition(parts, markers, marks, i);
        StartsAtPosition(parts, markers, marks, j);
      }
    } else {
      var d: nat :| d > 1 && Divides(d, marks) && Divides(d, n);
      CommonDivisorRepeats(m, marks, n, d);
      StartsAtPosition(parts, markers, marks, 0);
      StartsAtPosition(parts, markers, marks, n / d);
    }
  }

  /** A session that connects at its first endpoint asks three times for the same choice. */
  lemma ThreeMarksSpreadIff(n: nat)
    requires n > 0
    ensures Coprime(3, n) <==> n % 3 != 0
  {
    if n % 3 == 0 {
      assert Divides(3, 3) && Divides(3, n);
    } else {
      forall d: nat | d > 1 && Divides(d, 3) ensures !Divides(d, n) {
        if d > 3 {
          SmallMultiple(d, 3);
        }
        assert d == 3;
      }
    }
  }

  /** Sessions that all connect at once spread over the first partition exactly when its size is no multiple of three. */
  lemma FirstTrySpreadIff(parts: seq<Partition>, markers: seq<nat>)
    requires |markers| == |parts| && parts != [] && parts[0] != [] && NoRepeats(parts[0])
    ensures AllDistinct(parts, markers, 3, |parts[0]|) <==> |parts[0]| % 3 != 0
  {
    hide AllDistinct, Coprime;
    DistinctStartsIffCoprime(parts, markers, 3);
    ThreeMarksSpreadIff(|parts[0]|);
  }

  /** How many of the first `sessions` sessions start on position p. */
  function Hits(m: nat, c: nat, n: nat, p: nat, sessions: nat): nat
    requires n > 0
  {
    if sessions == 0 then 0
    else Hits(m, c, n, p, sessions - 1) + if Position(m, c, n, sessions - 1) == p then 1 else 0
  }

  /** Every position is reached by exactly one session of each round. */
  lemma ReachedInRound(m: nat, c: nat, n: nat, p: nat, first: nat) returns (j: nat)
    requires n > 0 && Coprime(c, n) && p < n
    ensures first <= j < first + n && Position(m, c, n, j) == p
  {
    var g, x, y := Bezout(c, n);
    assert g == 1;
    var want := p - m - c * first;
    var k := (x * want) % n;
    j := first + k;
    var s := (x * want) / n;
    assert k == x * want - n * s;
    Inverse(c, n, x, y, want, s);
    hide Divides, Coprime;
    MultipleDivides(n, y * want + c * s);
    assert p - (m + c * j) == want - c * k by { Offset(m, c, p, first, k); }
    SameRemainder(m + c * j, p, n);
    UniqueRemainder(p, n, 0, p);
  }

  lemma Offset(m: int, c: int, p: int, first: int, k: int)
    ensures p - (m + c * (first + k)) == p - m - c * first - c * k
  {
  }

  lemma {:induction false} HitsInRound(m: nat, c: nat, n: nat, p: nat, first: nat, j: nat, len: nat)
    requires Coprime(c, n) && p < n && first <= j < first + n && Position(m, c, n, j) == p && len <= n
    ensures Hits(m, c, n, p, first + len) == Hits(m, c, n, p, first) + if j < first + len then 1 else 0
  {
    if len > 0 {
      HitsInRound(m, c, n, p, first, j, len - 1);
      var last := first + len - 1;
      if last != j {
        RoundPositionsDiffer(m, c, n, last, j);
      }
    }
  }

  lemma RoundPositionsDiffer(m: nat, c: nat, n: nat, i: nat, j: nat)
    requires n > 0 && Coprime(c, n) && i != j && i - n < j < i + n
    ensures Position(m, c, n, i) != Position(m, c, n, j)
  {
    var lo, hi := if i < j then i else j, if i < j then j else i;
    SamePosition(m, c, n, lo, hi);
    if Divides(n, c * (hi - lo)) {
      CoprimeCancels(c, n, hi - lo);
      SmallMultiple(n, hi - lo);
    }
  }

  /** With coprime marks, k rounds of n sessions give every backend of the partition exactly k starts. */
  lemma {:induction false} EvenSpread(m: nat, c: nat, n: nat, p: nat, k: nat)
    requires n > 0 && Coprime(c, n) && p < n
    ensures Hits(m, c, n, p, k * n) == k
    decreases k
  {
    if k > 0 {
      hide Hits, Position, Coprime;
      EvenSpread(m, c, n, p, k - 1);
      NextMultiple(k, n);
      var first := (k - 1) * n;
      var j := ReachedInRound(m, c, n, p, first);
      HitsInRound(m, c, n, p, first, j, n);
    } else {
      assert k * n == 0;
    }
  }

  /** How many of the first `sessions` sessions start on backend b. */
  function Starts(parts: seq<Partition>, markers: seq<nat>, marks: nat, b: Backend, sessions: nat): nat
    requires |markers| == |parts|
  {
    if sessions == 0 then 0
    else
      Starts(parts, markers, marks, b, sessions - 1) +
      if StartsOn(parts, markers, marks, sessions - 1) == Some(b) then 1 else 0
  }

  lemma {:induction false} StartsAreHits(parts: seq<Partition>, markers: seq<nat>, marks: nat, p: nat, sessions: nat)
    requires |markers| == |parts| && parts != [] && NoRepeats(parts[0]) && p < |parts[0]|
    ensures Starts(parts, markers, marks, parts[0][p], sessions) ==
            Hits(markers[0], marks, |parts[0]|, p, sessions)
  {
    if sessions > 0 {
      StartsAreHits(parts, markers, marks, p, sessions - 1);
      StartsAtPosition(parts, markers, marks, sessions - 1);
    }
  }

  /** The same said of the selector: every backend of the first partition is the start of exactly k sessions. */
  lemma EveryBackendStarts(parts: seq<Partition>, markers: seq<nat>, marks: nat, p: nat, k: nat)
    requires |markers| == |parts| && parts != [] && NoRepeats(parts[0]) && p < |parts[0]|
    requires Coprime(marks, |parts[0]|)
    ensures 0 <= k * |parts[0]|
    ensures Starts(parts, markers, marks, parts[0][p], k * |parts[0]|) == k
  {
    EvenSpread(markers[0], marks, |parts[0]|, p, k);
    StartsAreHits(parts, markers, marks, p, k * |parts[0]|);
  }

  /** A session that marks once: k rounds of sessions start on every backend exactly k times. */
  lemma OneMarkSpreads(parts: seq<Partition>, markers: seq<nat>, p: nat, k: nat)
    requires |markers| == |parts| && parts != [] && NoRepeats(parts[0]) && p < |parts[0]|
    ensures 0 <= k * |parts[0]|
    ensures Starts(parts, markers, 1, parts[0][p], k * |parts[0]|) == k
  {
    if !Coprime(1, |parts[0]|) {
      var d: nat :| d > 1 && Divides(d, 1) && Divides(d, |parts[0]|);
      SmallMultiple(d, 1);
    }
    EveryBackendStarts(parts, markers, 1, p, k);
  }
}
