/**
 * The cursor over shared memory through which everything is read and written.
 * Views share the memory they were cut from; only the cursor is their own.
 */
module Buffers {
  import opened Bytes

  /** `m` with the octets from `p` on overwritten by `bs`. */
  function Splice(m: seq<Byte>, p: nat, bs: seq<Byte>): (r: seq<Byte>)
    requires p + |bs| <= |m|
    ensures |r| == |m|
  {
    m[..p] + bs + m[p + |bs|..]
  }

  /** Nothing changed except between `lo` and `hi`. */
  predicate SameOutside(before: seq<Byte>, after: seq<Byte>, lo: nat, hi: nat)
    requires lo <= hi <= |before|
  {
    |before| == |after| && after[..lo] == before[..lo] && after[hi..] == before[hi..]
  }

  lemma SpliceAdjacent(m: seq<Byte>, p: nat, a: seq<Byte>, b: seq<Byte>)
    requires p + |a| + |b| <= |m|
    ensures Splice(Splice(m, p, a), p + |a|, b) == Splice(m, p, a + b)
    ensures Splice(Splice(m, p + |a|, b), p, a) == Splice(m, p, a + b)
  {
    assert Splice(m, p, a)[..p + |a|] == m[..p] + a;
    assert Splice(m, p, a)[p + |a| + |b|..] == m[p + |a| + |b|..];
    assert Splice(m, p + |a|, b)[..p] == m[..p];
    assert Splice(m, p + |a|, b)[p + |a|..] == b + m[p + |a| + |b|..];
  }

  lemma SpliceNothing(m: seq<Byte>, p: nat)
    requires p <= |m|
    ensures Splice(m, p, []) == m
  {
  }

  lemma SameOutsideReflexive(m: seq<Byte>, lo: nat, hi: nat)
    requires lo <= hi <= |m|
    ensures SameOutside(m, m, lo, hi)
  {
  }

  /** A splice followed by a change behind it, both between `lo` and `hi`. */
  lemma SpliceThenOutside(m: seq<Byte>, p: nat, bs: seq<Byte>, after: seq<Byte>, lo: nat, hi: nat)
    requires lo <= p && p + |bs| <= hi <= |m|
    requires SameOutside(Splice(m, p, bs), after, p + |bs|, hi)
    ensures SameOutside(m, after, lo, hi)
  {
    var s := Splice(m, p, bs);
    assert after[..lo] == after[..p + |bs|][..lo] == s[..p + |bs|][..lo] == m[..lo];
  }

  class Buffer {
    const mem: array<Byte>
    const start: nat
    const length: nat
    var offset: nat

    ghost predicate Valid()
      reads this
    {
      start + length <= mem.Length && offset <= length
    }

    constructor (mem: array<Byte>, start: nat, length: nat)
      requires start + length <= mem.Length
      ensures Valid() && this.mem == mem && this.start == start && this.length == length && offset == 0
    {
      this.mem, this.start, this.length, offset := mem, start, length, 0;
    }

    function Available(): nat
      requires Valid()
      reads this
    {
      length - offset
    }

    function Position(): nat
      reads this
    {
      start + offset
    }

    /** The octets not read yet. */
    function Rest(): seq<Byte>
      requires Valid()
      reads this, mem
    {
      mem[start + offset..start + length]
    }

    method Remaining() returns (view: Buffer)
      requires Valid()
      ensures fresh(view) && view.Valid()
      ensures view.mem == mem && view.start == Position() && view.length == Available() && view.offset == 0
    {
      view := new Buffer(mem, start + offset, length - offset);
    }

    method Skip(size: nat)
      requires Valid() && size <= Available()
      modifies this
      ensures Valid() && offset == old(offset) + size
    {
      offset := offset + size;
    }

    method Seek(position: nat)
      requires Valid() && position <= length
      modifies this
      ensures Valid() && offset == position
    {
      offset := position;
    }

    method Consume(size: nat) returns (view: Buffer)
      requires Valid() && size <= Available()
      modifies this
      ensures Valid() && offset == old(offset) + size
      ensures fresh(view) && view.Valid()
      ensures view.mem == mem && view.start == old(Position()) && view.length == size && view.offset == 0
    {
      view := new Buffer(mem, start + offset, size);
      Skip(size);
    }

    /** A fixed-width read; the source only asserts that it stays inside. */
    method Copy(width: nat) returns (bs: seq<Byte>)
      requires Valid() && width <= Available()
      modifies this
      ensures Valid() && offset == old(offset) + width
      ensures bs == old(Rest())[..width]
    {
      bs := mem[start + offset..start + offset + width];
      Skip(width);
    }

    method WriteIn(bs: seq<Byte>) returns (ok: bool)
      requires Valid()
      modifies this, mem
      ensures Valid()
      ensures ok == (|bs| <= old(Available()))
      ensures ok ==> offset == old(offset) + |bs| && mem[..] == Splice(old(mem[..]), old(Position()), bs)
      ensures !ok ==> offset == old(offset) && mem[..] == old(mem[..])
    {
      if |bs| > length - offset {
        return false;
      }
      ghost var before := mem[..];
      var p := start + offset;
      forall i | 0 <= i < |bs| {
        mem[p + i] := bs[i];
      }
      assert mem[..] == Splice(before, p, bs);
      Skip(|bs|);
      ok := true;
    }
  }
}
