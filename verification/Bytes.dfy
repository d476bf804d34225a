/** Octets and the big-endian integers of the wire format. */
module Bytes {
  import Modular

  type Byte = b: int | 0 <= b < 256

  lemma ConcatAssociates<T>(a: seq<T>, b: seq<T>, c: seq<T>)
    ensures a + (b + c) == a + b + c
  {
  }

  lemma SubSlice(s: seq<Byte>, at: nat, length: nat, i: nat, j: nat)
    requires i <= j <= length && at + length <= |s|
    ensures s[at..at + length][i..j] == s[at + i..at + j]
  {
    var view := s[at..at + length];
    assert |view[i..j]| == |s[at + i..at + j]|;
    assert forall k :: 0 <= k < j - i ==> view[i..j][k] == s[at + i..at + j][k];
  }

  function Pow256(width: nat): (p: int)
    ensures p >= 1
  {
    if width == 0 then 1 else 256 * Pow256(width - 1)
  }

  /**
   * The low `width` octets of `n` in two's complement, most significant first.
   * Division and remainder by 256 round towards minus infinity, so a negative or
   * too wide `n` is truncated as a cast to a fixed-width integer truncates it.
   */
  function BigEndian(n: int, width: nat): (bs: seq<Byte>)
    ensures |bs| == width
    decreases width
  {
    if width == 0 then [] else BigEndian(n / 256, width - 1) + [n % 256]
  }

  function ToUnsigned(bs: seq<Byte>): (n: nat)
    ensures n < Pow256(|bs|)
  {
    if bs == [] then 0 else 256 * ToUnsigned(bs[..|bs| - 1]) + bs[|bs| - 1]
  }

  function ToSigned(bs: seq<Byte>): (n: int)
    ensures -Pow256(|bs|) <= 2 * n < Pow256(|bs|)
  {
    var n := ToUnsigned(bs);
    if 2 * n < Pow256(|bs|) then n else n - Pow256(|bs|)
  }

  /** What survives truncation: the value itself, or its complement when negative. */
  lemma {:induction false} UnsignedOfBigEndian(n: int, width: nat)
    requires -Pow256(width) <= n < Pow256(width)
    ensures ToUnsigned(BigEndian(n, width)) == if n < 0 then n + Pow256(width) else n
    decreases width
  {
    if width > 0 {
      UnsignedOfBigEndian(n / 256, width - 1);
      assert BigEndian(n, width)[..width - 1] == BigEndian(n / 256, width - 1);
    }
  }

  lemma {:induction false} SignedOfBigEndian(n: int, width: nat)
    requires -Pow256(width) <= 2 * n < Pow256(width)
    ensures ToSigned(BigEndian(n, width)) == n
  {
    UnsignedOfBigEndian(n, width);
  }

  /** Adding a multiple of the modulus does not change the octets. */
  lemma {:induction false} BigEndianPeriodic(n: int, width: nat)
    ensures BigEndian(n - Pow256(width), width) == BigEndian(n, width)
    decreases width
  {
    if width > 0 {
      assert (n - Pow256(width)) / 256 == n / 256 - Pow256(width - 1);
      BigEndianPeriodic(n / 256, width - 1);
    }
  }

  lemma {:induction false} BigEndianOfUnsigned(bs: seq<Byte>)
    ensures BigEndian(ToUnsigned(bs), |bs|) == bs
  {
    if bs != [] {
      BigEndianOfUnsigned(bs[..|bs| - 1]);
      assert bs == bs[..|bs| - 1] + [bs[|bs| - 1]];
    }
  }

  lemma {:induction false} BigEndianOfSigned(bs: seq<Byte>)
    ensures BigEndian(ToSigned(bs), |bs|) == bs
  {
    var n, width := ToUnsigned(bs), |bs|;
    BigEndianOfUnsigned(bs);
    BigEndianPeriodic(n, width);
  }

  // ----- which octet counts most

  lemma QuotientOfQuotient(n: int, p: nat)
    requires p >= 1
    ensures n / 256 / p == n / (256 * p)
  {
    var m := n / 256;
    var q, r := m / p, m % p;
    assert m == p * q + r;
    Regroup(p, q, r, n % 256);
    Modular.UniqueRemainder(n, 256 * p, q, 256 * r + n % 256);
  }

  lemma Regroup(p: int, q: int, r: int, s: int)
    ensures 256 * (p * q + r) + s == 256 * p * q + (256 * r + s)
  {
  }

  /** The octet `i` places from the front counts 256 to the power of the octets behind it. */
  lemma {:induction false} BigEndianAt(n: int, width: nat, i: nat)
    requires i < width
    ensures BigEndian(n, width)[i] == n / Pow256(width - 1 - i) % 256
    decreases width
  {
    if i < width - 1 {
      BigEndianAt(n / 256, width - 1, i);
      QuotientOfQuotient(n, Pow256(width - 2 - i));
    }
  }

  lemma Distributes(a: int, p: int, u: int, last: int)
    ensures 256 * (a * p + u) + last == a * (256 * p) + (256 * u + last)
  {
  }

  /** The first octet is the most significant one. */
  lemma {:induction false} FirstCountsMost(bs: seq<Byte>)
    requires bs != []
    ensures ToUnsigned(bs) == bs[0] * Pow256(|bs| - 1) + ToUnsigned(bs[1..])
  {
    if |bs| == 1 {
      assert bs[..0] == [] && bs[1..] == [];
      assert Pow256(0) == 1;
    } else {
      var front, last := bs[..|bs| - 1], bs[|bs| - 1];
      FirstCountsMost(front);
      assert front[1..] == bs[1..][..|bs| - 2] && bs[1..][|bs| - 2] == last;
      var p, u := Pow256(|bs| - 2), ToUnsigned(front[1..]);
      assert ToUnsigned(bs) == 256 * ToUnsigned(front) + last;
      assert ToUnsigned(bs[1..]) == 256 * u + last;
      assert Pow256(|bs| - 1) == 256 * p;
      hide ToUnsigned, Pow256;
      Distributes(bs[0], p, u, last);
    }
  }

  lemma Half(a: Byte, p: int)
    requires p >= 1
    ensures a < 128 ==> a * p + p <= 128 * p
    ensures a >= 128 ==> a * p >= 128 * p
  {
    if a < 128 {
      assert (127 - a) * p >= 0;
    } else {
      assert (a - 128) * p >= 0;
    }
  }

  /** The highest bit of the first octet is the sign. */
  lemma SignIsFirstBit(bs: seq<Byte>)
    requires bs != []
    ensures ToSigned(bs) == if bs[0] < 128 then ToUnsigned(bs) else ToUnsigned(bs) - Pow256(|bs|)
  {
    FirstCountsMost(bs);
    var p, rest := Pow256(|bs| - 1), ToUnsigned(bs[1..]);
    assert Pow256(|bs|) == 256 * p && rest < p;
    hide ToUnsigned, Pow256;
    Half(bs[0], p);
  }
}
