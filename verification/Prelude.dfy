/** Shared vocabulary: optional values, results, bytes and a few facts about sequences. */
module Prelude {

  datatype Option<+T> = None | Some(value: T)

  datatype Result<+T, +E> = Ok(value: T) | Err(error: E)

  newtype byte = x: int | 0 <= x < 256

  type Bytes = seq<byte>

  /** Node and message ids. */
  type PeerId = Bytes

  type MsgId = Bytes

  /** How far an own message got; it never goes back. */
  datatype Status = Queued | Sent | Delivered

  function Rank(s: Status): nat {
    match s
    case Queued => 1
    case Sent => 2
    case Delivered => 3
  }

  const U32: nat := 0x1_0000_0000

  const U64: nat := 0x1_0000_0000_0000_0000

  predicate Apart<T(==)>(s: seq<T>, i: int, j: int) {
    0 <= i < j < |s| ==> s[i] != s[j]
  }

  /** No element occurs at two positions. */
  ghost predicate NoDup<T>(s: seq<T>) {
    forall i, j :: Apart(s, i, j)
  }

  lemma SamePosition<T>(s: seq<T>, i: nat, j: nat)
    requires NoDup(s) && i < |s| && j < |s| && s[i] == s[j]
    ensures i == j
  {
    assert Apart(s, i, j) && Apart(s, j, i);
  }

  lemma NoDupAppend<T>(s: seq<T>, t: seq<T>)
    requires NoDup(s) && NoDup(t) && forall x :: x in t ==> x !in s
    ensures NoDup(s + t)
  {
    forall i, j
      ensures Apart(s + t, i, j)
    {
      assert Apart(s, i, j) && Apart(t, i - |s|, j - |s|);
      if 0 <= i < |s| <= j < |s + t| {
        assert (s + t)[j] in t && (s + t)[i] in s;
      }
    }
  }

  lemma NoDupSnoc<T>(s: seq<T>, x: T)
    ensures NoDup(s + [x]) <==> NoDup(s) && x !in s
  {
    var all := s + [x];
    if NoDup(all) {
      forall i, j
        ensures Apart(s, i, j)
      {
        assert Apart(all, i, j);
      }
      forall i | 0 <= i < |s|
        ensures s[i] != x
      {
        assert Apart(all, i, |s|);
      }
    }
    if NoDup(s) && x !in s {
      assert NoDup([x]) by {
        forall i, j
          ensures Apart([x], i, j)
        {
        }
      }
      NoDupAppend(s, [x]);
    }
  }

  /** The last n elements of s, or all of it when s is shorter. */
  function LastN<T>(s: seq<T>, n: nat): (r: seq<T>)
    ensures |r| == if |s| <= n then |s| else n
    ensures r == s[|s| - |r|..]
  {
    if |s| <= n then s else s[|s| - n..]
  }

  /** s without its element at position i. */
  function RemoveAt<T>(s: seq<T>, i: nat): seq<T>
    requires i < |s|
  {
    s[..i] + s[i + 1..]
  }

  lemma RemoveAtMembers<T>(s: seq<T>, i: nat)
    requires i < |s| && NoDup(s)
    ensures NoDup(RemoveAt(s, i))
    ensures forall x :: x in RemoveAt(s, i) <==> x in s && x != s[i]
  {
    var r := RemoveAt(s, i);
    forall a, b
      ensures Apart(r, a, b)
    {
      assert Apart(s, if a < i then a else a + 1, if b < i then b else b + 1);
    }
    forall x | x in r
      ensures x in s && x != s[i]
    {
      var a :| 0 <= a < |r| && r[a] == x;
      assert Apart(s, a, i) && Apart(s, i, a + 1);
    }
    forall x | x in s && x != s[i]
      ensures x in r
    {
      var j :| 0 <= j < |s| && s[j] == x;
      assert r[if j < i then j else j - 1] == x;
    }
  }

  /** A duplicate-free sequence over a set is no longer than the set is large. */
  lemma {:induction false} NoDupBounded<T>(s: seq<T>, xs: set<T>)
    requires NoDup(s)
    requires forall x :: x in s ==> x in xs
    ensures |s| <= |xs|
  {
    if s != [] {
      var init, last := s[..|s| - 1], s[|s| - 1];
      forall a, b
        ensures Apart(init, a, b)
      {
        assert Apart(s, a, b);
      }
      forall x | x in init
        ensures x in xs - {last}
      {
        var j :| 0 <= j < |init| && init[j] == x;
        assert s[j] == x && Apart(s, j, |s| - 1);
        assert x in s;
      }
      NoDupBounded(init, xs - {last});
      assert last in s;
    }
  }
}
