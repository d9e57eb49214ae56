/** Marks of received chunks, one bit a chunk, in an array of bytes. */
module Bitmap {
  import opened Prelude

  function Mask(j: nat): bv8
    requires j < 8
  {
    (1 as bv8) << j
  }

  lemma MaskBits(b: bv8, j: nat, k: nat)
    requires j < 8 && k < 8
    ensures (b | Mask(j)) & Mask(k) != 0 <==> j == k || b & Mask(k) != 0
  {
    assert Mask(0) == 1 && Mask(1) == 2 && Mask(2) == 4 && Mask(3) == 8;
    assert Mask(4) == 16 && Mask(5) == 32 && Mask(6) == 64 && Mask(7) == 128;
    hide Mask;
    var x, y := Mask(j), Mask(k);
    assert x in {1, 2, 4, 8, 16, 32, 64, 128} && y in {1, 2, 4, 8, 16, 32, 64, 128};
    assert j == k <==> x == y;
    BitsApart(b, x, y);
  }

  lemma BitsApart(b: bv8, x: bv8, y: bv8)
    requires x in {1, 2, 4, 8, 16, 32, 64, 128} && y in {1, 2, 4, 8, 16, 32, 64, 128}
    ensures (b | x) & y != 0 <==> x == y || b & y != 0
  {
  }

  function ByteCount(n: nat): nat {
    (n + 7) / 8
  }

  predicate HasBit(bits: seq<bv8>, i: nat)
    requires i / 8 < |bits|
  {
    bits[i / 8] & Mask(i % 8) != 0
  }

  /** The marked chunks below n; bits beyond n mean nothing. */
  function MarkedIn(bits: seq<bv8>, n: nat): set<nat>
    requires |bits| == ByteCount(n)
  {
    set i: nat | i < n && HasBit(bits, i)
  }

  /** What a stored bitmap stands for: one of the wrong length stands for nothing. */
  function Restored(bits: seq<bv8>, n: nat): set<nat> {
    if |bits| == ByteCount(n) then MarkedIn(bits, n) else {}
  }

  /** The indexes below n outside marked, ascending. */
  function Unmarked(marked: set<nat>, n: nat): seq<nat> {
    if n == 0 then []
    else
      var rest := Unmarked(marked, n - 1);
      if n - 1 in marked then rest else rest + [n - 1]
  }

  lemma {:induction false} UnmarkedMeaning(marked: set<nat>, n: nat)
    ensures forall i: nat :: i in Unmarked(marked, n) <==> i < n && i !in marked
    ensures forall j, k :: 0 <= j < k < |Unmarked(marked, n)| ==> Unmarked(marked, n)[j] < Unmarked(marked, n)[k]
    ensures |Unmarked(marked, n)| <= n
  {
    if n > 0 {
      UnmarkedMeaning(marked, n - 1);
      var rest := Unmarked(marked, n - 1);
      assert forall k :: 0 <= k < |rest| ==> rest[k] in rest;
    }
  }

  function UpTo(n: nat): (s: set<nat>)
    ensures forall i: nat :: i in s <==> i < n
  {
    if n == 0 then {} else UpTo(n - 1) + {n - 1}
  }

  function CountBelow(marked: set<nat>, n: nat): nat {
    |marked * UpTo(n)|
  }

  lemma CountStep(marked: set<nat>, i: nat)
    ensures CountBelow(marked, 0) == 0
    ensures CountBelow(marked, i + 1) == CountBelow(marked, i) + if i in marked then 1 else 0
  {
    assert marked * UpTo(0) == {};
    var before := marked * UpTo(i);
    assert i !in before;
    assert marked * UpTo(i + 1) == if i in marked then before + {i} else before;
  }

  lemma {:induction false} UnmarkedCount(marked: set<nat>, n: nat)
    ensures |Unmarked(marked, n)| == n - CountBelow(marked, n)
  {
    hide CountBelow, UpTo;
    if n == 0 {
      CountStep(marked, 0);
    } else {
      UnmarkedCount(marked, n - 1);
      CountStep(marked, n - 1);
    }
  }

  /** All n are marked exactly when as many are marked. */
  lemma AllOrMissing(marked: set<nat>, n: nat)
    requires forall i :: i in marked ==> i < n
    ensures marked == UpTo(n) <==> |marked| == n
    ensures marked == UpTo(n) <==> Unmarked(marked, n) == []
    ensures |Unmarked(marked, n)| == n - |marked|
  {
    UnmarkedCount(marked, n);
    assert marked * UpTo(n) == marked;
    UnmarkedMeaning(marked, n);
    if Unmarked(marked, n) == [] {
      forall i | i in UpTo(n)
        ensures i in marked
      {
        assert i !in Unmarked(marked, n);
      }
      assert marked == UpTo(n);
    }
    assert Unmarked(marked, n) != [] ==> Unmarked(marked, n)[0] in Unmarked(marked, n);
  }

  function Missing(marked: set<nat>, n: nat, limit: nat): seq<nat> {
    var all := Unmarked(marked, n);
    if |all| <= limit then all else all[..limit]
  }

  class Marks {
    const n: nat
    const bits: array<bv8>

    ghost predicate Valid()
      reads this
    {
      bits.Length == ByteCount(n)
    }

    function Marked(): set<nat>
      requires Valid()
      reads this, bits
    {
      MarkedIn(bits[..], n)
    }

    constructor (n: nat)
      ensures Valid() && fresh(bits) && this.n == n
      ensures Marked() == {}
    {
      this.n := n;
      bits := new bv8[ByteCount(n)](_ => 0);
    }

    constructor FromBytes(b: seq<bv8>, n: nat)
      ensures Valid() && fresh(bits) && this.n == n
      ensures Marked() == Restored(b, n)
    {
      this.n := n;
      bits := new bv8[ByteCount(n)](k => if |b| == ByteCount(n) && 0 <= k < |b| then b[k] else 0);
      new;
      if |b| == ByteCount(n) {
        assert bits[..] == b;
      }
    }

    method Bytes() returns (b: seq<bv8>)
      requires Valid()
      ensures Restored(b, n) == Marked()
    {
      b := bits[..];
    }

    /** Marks chunk i; false when there is no such chunk or it was marked. */
    method Set(i: int) returns (added: bool)
      requires Valid()
      modifies bits
      ensures added == (0 <= i < n && i !in old(Marked()))
      ensures Marked() == old(Marked()) + if added then {i} else {}
    {
      if i < 0 || i >= n {
        return false;
      }
      var mask := Mask(i % 8);
      if bits[i / 8] & mask != 0 {
        return false;
      }
      ghost var before := bits[..];
      bits[i / 8] := bits[i / 8] | mask;
      forall k: nat | k < n
        ensures HasBit(bits[..], k) <==> k == i || HasBit(before, k)
      {
        MaskBits(before[k / 8], i % 8, k % 8);
      }
      return true;
    }

    method Has(i: int) returns (b: bool)
      requires Valid()
      ensures b == (i in Marked())
    {
      if i < 0 || i >= n {
        return false;
      }
      b := bits[i / 8] & Mask(i % 8) != 0;
    }

    method Count() returns (c: nat)
      requires Valid()
      ensures c == |Marked()|
    {
      hide MarkedIn, CountBelow;
      c := 0;
      CountStep(Marked(), 0);
      for i := 0 to n
        invariant c == CountBelow(Marked(), i)
      {
        CountStep(Marked(), i);
        var b := Has(i);
        if b {
          c := c + 1;
        }
      }
      MarkedBelow();
    }

    lemma MarkedBelow()
      requires Valid()
      ensures forall i :: i in Marked() ==> i < n
      ensures CountBelow(Marked(), n) == |Marked()|
    {
      assert Marked() * UpTo(n) == Marked();
    }

    method Complete() returns (b: bool)
      requires Valid()
      ensures b == (Marked() == UpTo(n))
    {
      var c := Count();
      MarkedBelow();
      AllOrMissing(Marked(), n);
      b := c == n;
    }

    /** The first unmarked chunks, at most limit of them. */
    method FirstMissing(limit: nat) returns (out: seq<nat>)
      requires Valid()
      ensures out == Missing(Marked(), n, limit)
    {
      hide MarkedIn, Unmarked;
      out := [];
      var i := 0;
      UnmarkedNext(Marked(), 0);
      while i < n && |out| < limit
        invariant i <= n && |out| <= limit
        invariant out == Unmarked(Marked(), i)
      {
        UnmarkedNext(Marked(), i);
        var b := Has(i);
        if !b {
          out := out + [i];
        }
        i := i + 1;
      }
      UnmarkedPrefix(Marked(), i, n);
    }
  }

  lemma UnmarkedNext(marked: set<nat>, i: nat)
    ensures Unmarked(marked, 0) == []
    ensures Unmarked(marked, i + 1) == Unmarked(marked, i) + if i in marked then [] else [i]
  {
  }

  lemma {:induction false} UnmarkedPrefix(marked: set<nat>, i: nat, n: nat)
    requires i <= n
    ensures Unmarked(marked, i) <= Unmarked(marked, n)
  {
    if i < n {
      UnmarkedPrefix(marked, i, n - 1);
    }
  }
}
