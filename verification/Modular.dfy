/** Remainders, common divisors and Bezout coefficients. */
module Modular {
  lemma ProductIsLarge(n: nat, d: int)
    ensures d >= 1 ==> n * d >= n
    ensures d <= -1 ==> n * d <= 0 - n
  {
    if d >= 1 {
      assert n * d == n + n * (d - 1);
    } else if d <= -1 {
      assert n * d == n * (d + 1) - n;
    }
  }

  lemma UniqueRemainder(x: int, n: nat, q: int, r: nat)
    requires r < n && x == n * q + r
    ensures x % n == r && x / n == q
  {
    assert n * (q - x / n) == x % n - r;
    ProductIsLarge(n, q - x / n);
  }

  predicate Divides(d: nat, x: int)
    requires d > 0
  {
    x % d == 0
  }

  /** No number above one divides both. */
  ghost predicate Coprime(a: nat, b: nat) {
    forall d: nat :: d > 1 && Divides(d, a) ==> !Divides(d, b)
  }

  lemma MultipleDivides(d: nat, q: int)
    requires d > 0
    ensures Divides(d, d * q)
  {
    UniqueRemainder(d * q, d, q, 0);
  }

  lemma DivisorTimesQuotient(d: nat, x: int)
    requires d > 0 && Divides(d, x)
    ensures x == d * (x / d)
  {
  }

  lemma CombinationDivides(d: nat, x: int, y: int, a: int, b: int)
    requires d > 0 && Divides(d, x) && Divides(d, y)
    ensures Divides(d, a * x + b * y)
  {
    var p, q := x / d, y / d;
    DivisorTimesQuotient(d, x);
    DivisorTimesQuotient(d, y);
    calc {
      a * x + b * y;
      a * (d * p) + b * (d * q);
      d * (a * p + b * q);
    }
    MultipleDivides(d, a * p + b * q);
  }

  lemma EqualRemainders(x: int, y: int, n: nat)
    requires n > 0 && x % n == y % n
    ensures Divides(n, y - x)
  {
    var p, q := x / n, y / n;
    assert x == n * p + x % n && y == n * q + y % n;
    assert y - x == n * (q - p);
    MultipleDivides(n, q - p);
  }

  lemma CongruentRemainders(x: int, y: int, n: nat)
    requires n > 0 && Divides(n, y - x)
    ensures x % n == y % n
  {
    var p, q := x / n, (y - x) / n;
    DivisorTimesQuotient(n, y - x);
    hide Divides;
    assert x == n * p + x % n;
    assert y == n * (p + q) + x % n;
    UniqueRemainder(y, n, p + q, x % n);
  }

  /** Two integers leave the same remainder exactly when the divisor divides their difference. */
  lemma SameRemainder(x: int, y: int, n: nat)
    requires n > 0
    ensures x % n == y % n <==> Divides(n, y - x)
  {
    hide Divides;
    if x % n == y % n {
      EqualRemainders(x, y, n);
    }
    if Divides(n, y - x) {
      CongruentRemainders(x, y, n);
    }
  }

  lemma EuclidStep(b: int, q: int, r: int, x: int, y: int)
    ensures (q * b + 1 * r) * y + b * (x - q * y) == b * x + r * y
  {
    assert (q * b) * y == b * (q * y);
  }

  lemma ProductSwaps(a: int, b: int, c: int)
    ensures a * b * c == a * c * b
  {
    assert a * b * c == a * (b * c);
    assert a * c * b == a * (c * b);
  }

  /** When c and n combine to one, x inverts c up to multiples of n. */
  lemma Inverse(c: int, n: int, x: int, y: int, want: int, s: int)
    requires c * x + n * y == 1
    ensures want - c * (x * want - n * s) == n * (y * want + c * s)
  {
    calc {
      want - c * (x * want - n * s);
      (c * x + n * y) * want - c * (x * want - n * s);
      (c * x) * want + (n * y) * want - c * (x * want) + c * (n * s);
      n * (y * want) + n * (c * s);
    }
  }

  lemma NextMultiple(k: int, n: int)
    ensures k * n == (k - 1) * n + n
  {
  }

  /** A common divisor written as a combination of the two numbers. */
  lemma {:induction false} Bezout(a: nat, b: nat) returns (g: nat, x: int, y: int)
    requires a > 0 || b > 0
    ensures g > 0 && Divides(g, a) && Divides(g, b) && a * x + b * y == g
    decreases b
  {
    if b == 0 {
      g, x, y := a, 1, 0;
    } else {
      var q, r := a / b, a % b;
      var x', y';
      g, x', y' := Bezout(b, r);
      hide Divides;
      CombinationDivides(g, b, r, q, 1);
      assert q * b + 1 * r == a;
      x, y := y', x' - q * y';
      EuclidStep(b, q, r, x', y');
    }
  }

  /** A factor prime to n can be cancelled from a multiple of n. */
  lemma CoprimeCancels(c: nat, n: nat, k: int)
    requires n > 0 && Coprime(c, n) && Divides(n, c * k)
    ensures Divides(n, k)
  {
    var g, x, y := Bezout(c, n);
    assert g == 1;
    calc {
      k;
      k * (c * x + n * y);
      x * (c * k) + (y * k) * n;
    }
    MultipleDivides(n, 1);
    CombinationDivides(n, c * k, n, x, y * k);
  }

  lemma SmallMultiple(n: nat, k: int)
    requires 0 <= k < n && Divides(n, k)
    ensures k == 0
  {
    UniqueRemainder(k, n, 0, k);
  }
}
