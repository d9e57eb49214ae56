/**
 The queue of texts that wait for a session: one row per peer and message id with the wall clock
 read when the text was written. Taking a peer's rows scans them by id and sorts them by the clock.
 */
module Pending {
  import opened Prelude

  /** A row or queue entry is found by the peer and the message id. */
  type RowKey = (PeerId, MsgId)

  type Queue = map<RowKey, int>

  datatype Entry = Entry(mid: MsgId, at: int)

  // ----- the order of the primary key -----

  /** Byte by byte, the shorter of two equal beginnings first. */
  predicate IdLess(a: MsgId, b: MsgId) {
    b != [] && (a == [] || a[0] < b[0] || (a[0] == b[0] && IdLess(a[1..], b[1..])))
  }

  lemma {:induction false} IdTotal(a: MsgId, b: MsgId)
    ensures IdLess(a, b) || a == b || IdLess(b, a)
    ensures IdLess(a, b) ==> a != b && !IdLess(b, a)
  {
    if a != [] && b != [] {
      IdTotal(a[1..], b[1..]);
      assert a == [a[0]] + a[1..] && b == [b[0]] + b[1..];
    }
  }

  lemma {:induction false} IdTransitive(a: MsgId, b: MsgId, c: MsgId)
    requires IdLess(a, b) && IdLess(b, c)
    ensures IdLess(a, c)
  {
    if a != [] && a[0] == b[0] == c[0] {
      IdTransitive(a[1..], b[1..], c[1..]);
    }
  }

  predicate IsLeast(ids: set<MsgId>, x: MsgId) {
    x in ids && forall y :: y in ids ==> y == x || IdLess(x, y)
  }

  lemma {:induction false} LeastExists(ids: set<MsgId>)
    requires ids != {}
    ensures exists x :: IsLeast(ids, x)
  {
    var y :| y in ids;
    var rest := ids - {y};
    if rest == {} {
      assert forall z :: z in ids ==> z == y || z in rest;
      assert IsLeast(ids, y);
    } else {
      LeastExists(rest);
      var x :| IsLeast(rest, x);
      IdTotal(x, y);
      if IdLess(x, y) {
        assert IsLeast(ids, x);
      } else {
        forall z | z in rest && z != x
          ensures IdLess(y, z)
        {
          IdTransitive(y, x, z);
        }
        assert IsLeast(ids, y);
      }
    }
  }

  lemma LeastUnique(ids: set<MsgId>)
    ensures forall x, y :: IsLeast(ids, x) && IsLeast(ids, y) ==> x == y
  {
    forall x, y | IsLeast(ids, x) && IsLeast(ids, y)
      ensures x == y
    {
      IdTotal(x, y);
    }
  }

  function Least(ids: set<MsgId>): (x: MsgId)
    requires ids != {}
    ensures IsLeast(ids, x)
  {
    LeastExists(ids);
    LeastUnique(ids);
    var x :| IsLeast(ids, x);
    x
  }

  /** The ids in the order in which an index over them is scanned. */
  function Ascending(ids: set<MsgId>): seq<MsgId> {
    if ids == {} then [] else [Least(ids)] + Ascending(ids - {Least(ids)})
  }

  lemma {:induction false} AscendingMeaning(ids: set<MsgId>)
    ensures forall x :: x in Ascending(ids) <==> x in ids
    ensures forall i, j :: 0 <= i < j < |Ascending(ids)| ==> IdLess(Ascending(ids)[i], Ascending(ids)[j])
  {
    if ids != {} {
      var x := Least(ids);
      var rest := Ascending(ids - {x});
      AscendingMeaning(ids - {x});
      forall j | 0 <= j < |rest|
        ensures IdLess(x, rest[j])
      {
        assert rest[j] in rest;
      }
    }
  }

  // ----- taking -----

  function IdsOf(q: Queue, to: PeerId): set<MsgId> {
    set k | k in q && k.0 == to :: k.1
  }

  function Entries(q: Queue, to: PeerId, ids: seq<MsgId>): (es: seq<Entry>)
    requires forall id :: id in ids ==> (to, id) in q
    ensures |es| == |ids| && forall i :: 0 <= i < |ids| ==> es[i] == Entry(ids[i], q[(to, ids[i])])
  {
    if ids == [] then []
    else Entries(q, to, ids[..|ids| - 1]) + [Entry(ids[|ids| - 1], q[(to, ids[|ids| - 1])])]
  }

  /** The peer's rows as the statement returns them. */
  function Rows(q: Queue, to: PeerId): seq<Entry> {
    AscendingMeaning(IdsOf(q, to));
    Entries(q, to, Ascending(IdsOf(q, to)))
  }

  /** e goes left past the entries written later than it, and no further. */
  function Insert(es: seq<Entry>, e: Entry): seq<Entry> {
    if es == [] || es[|es| - 1].at <= e.at then es + [e]
    else Insert(es[..|es| - 1], e) + [es[|es| - 1]]
  }

  function ByTime(es: seq<Entry>): (r: seq<Entry>) {
    if es == [] then [] else Insert(ByTime(es[..|es| - 1]), es[|es| - 1])
  }

  function Keys(to: PeerId, es: seq<Entry>): (ks: seq<RowKey>)
    ensures |ks| == |es| && forall i :: 0 <= i < |es| ==> ks[i] == (to, es[i].mid)
  {
    if es == [] then [] else Keys(to, es[..|es| - 1]) + [(to, es[|es| - 1].mid)]
  }

  /** The peer's texts in the order in which they are taken. */
  function Take(q: Queue, to: PeerId): seq<RowKey> {
    Keys(to, ByTime(Rows(q, to)))
  }

  function Except(q: Queue, to: PeerId): Queue {
    map k | k in q && k.0 != to :: q[k]
  }

  function Add(q: Queue, k: RowKey, now: int): Queue {
    if k in q then q else q[k := now]
  }

  /** e in its place at position j among es, with tail behind. */
  function Placed(es: seq<Entry>, e: Entry, j: nat, tail: seq<Entry>): (r: seq<Entry>)
    requires j <= |es|
    ensures |r| == |es| + 1 + |tail| && r[j] == e && (j > 0 ==> r[j - 1] == es[j - 1])
  {
    es[..j] + [e] + es[j..] + tail
  }

  lemma PlacedLeft(es: seq<Entry>, e: Entry, j: nat, tail: seq<Entry>)
    requires 0 < j <= |es|
    ensures Placed(es, e, j, tail)[j := es[j - 1]][j - 1 := e] == Placed(es, e, j - 1, tail)
  {
  }

  /** Where e comes to rest. */
  lemma {:induction false} Rests(es: seq<Entry>, e: Entry, j: nat, tail: seq<Entry>)
    requires j <= |es| && (j > 0 ==> es[j - 1].at <= e.at) && forall k :: j <= k < |es| ==> es[k].at > e.at
    ensures Placed(es, e, j, tail) == Insert(es, e) + tail
  {
    if j < |es| {
      var init, last := es[..|es| - 1], es[|es| - 1];
      Rests(init, e, j, [last] + tail);
      assert init[..j] == es[..j] && init[j..] + [last] == es[j..];
      assert Placed(es, e, j, tail) == Placed(init, e, j, [last] + tail);
      assert Insert(es, e) + tail == Insert(init, e) + ([last] + tail);
    }
  }

  lemma PlacedWhole(s: seq<Entry>, i: nat)
    requires i < |s|
    ensures Placed(s[..i], s[i], i, s[i + 1..]) == s
  {
    assert s[..i][..i] == s[..i] && s[..i][i..] == [];
  }

  /** Entry i goes left by swaps among the first i, which are sorted. */
  method Sink(a: array<Entry>, i: nat)
    requires i < a.Length
    modifies a
    ensures a[..] == Insert(old(a[..i]), old(a[i])) + old(a[i + 1..])
  {
    ghost var es, e, tail := a[..i], a[i], a[i + 1..];
    var j := i;
    PlacedWhole(a[..], i);
    assert a[..][..i] == es && a[..][i] == e && a[..][i + 1..] == tail;
    hide Placed, Insert;
    while j > 0 && a[j].at < a[j - 1].at
      invariant 0 <= j <= i && a[..] == Placed(es, e, j, tail)
      invariant forall k :: j <= k < i ==> es[k].at > e.at
    {
      ghost var before := a[..];
      assert before[j] == e && before[j - 1] == es[j - 1];
      PlacedLeft(es, e, j, tail);
      a[j], a[j - 1] := a[j - 1], a[j];
      assert a[..] == before[j := before[j - 1]][j - 1 := before[j]];
      j := j - 1;
    }
    assert a[j] == a[..][j] && (j > 0 ==> a[j - 1] == a[..][j - 1]);
    Rests(es, e, j, tail);
  }

  lemma ByTimeNext(was: seq<Entry>, i: nat)
    requires i < |was|
    ensures ByTime(was[..i + 1]) == Insert(ByTime(was[..i]), was[i])
  {
    assert was[..i + 1][..i] == was[..i];
  }

  lemma {:induction false} ByTimeLength(es: seq<Entry>)
    ensures |ByTime(es)| == |es|
  {
    if es != [] {
      ByTimeLength(es[..|es| - 1]);
      InsertLength(ByTime(es[..|es| - 1]), es[|es| - 1]);
    }
  }

  lemma Split(sorted: seq<Entry>, was: seq<Entry>, i: nat, s: seq<Entry>)
    requires |sorted| == i < |was| && s == sorted + was[i..]
    ensures s[..i] == sorted && s[i] == was[i] && s[i + 1..] == was[i + 1..]
  {
  }

  /** Sorts in place, swapping each entry to the left. */
  method SortByTime(a: array<Entry>)
    modifies a
    ensures a[..] == ByTime(old(a[..]))
  {
    ghost var was := a[..];
    assert ByTime(was[..0]) + was[0..] == was;
    hide ByTime, Insert;
    for i := 0 to a.Length
      invariant a[..] == ByTime(was[..i]) + was[i..]
    {
      ByTimeLength(was[..i]);
      Split(ByTime(was[..i]), was, i, a[..]);
      assert a[..][..i] == a[..i] && a[..][i] == a[i] && a[..][i + 1..] == a[i + 1..];
      Sink(a, i);
      ByTimeNext(was, i);
    }
    assert was[..a.Length] == was && ByTime(was) + was[a.Length..] == ByTime(was);
  }

  lemma {:induction false} InsertLength(es: seq<Entry>, e: Entry)
    ensures |Insert(es, e)| == |es| + 1
  {
    if es != [] {
      InsertLength(es[..|es| - 1], e);
    }
  }

  method PendingChatTake(q: Queue, to: PeerId) returns (ks: seq<RowKey>, rest: Queue)
    ensures ks == Take(q, to) && rest == Except(q, to)
  {
    var rows := Rows(q, to);
    rest := Except(q, to);
    var a := new Entry[|rows|](i requires 0 <= i < |rows| => rows[i]);
    assert a[..] == rows;
    SortByTime(a);
    ks := Keys(to, a[..]);
  }

  // ----- what taking does -----

  /** Written before, by the clock; texts of one millisecond by their ids. */
  predicate Before(d: Entry, e: Entry) {
    d.at < e.at || (d.at == e.at && IdLess(d.mid, e.mid))
  }

  predicate Sorted(es: seq<Entry>) {
    forall i, j :: 0 <= i < j < |es| ==> Before(es[i], es[j])
  }

  lemma BeforeOrder(d: Entry, e: Entry)
    ensures Before(d, e) ==> !Before(e, d) && d != e
  {
    IdTotal(d.mid, e.mid);
  }

  /** e is last by its id, so among equal clocks it stays last. */
  lemma {:induction false} InsertSorted(es: seq<Entry>, e: Entry)
    requires Sorted(es) && forall i :: 0 <= i < |es| ==> IdLess(es[i].mid, e.mid)
    ensures Sorted(Insert(es, e)) && |Insert(es, e)| == |es| + 1
    ensures forall x :: x in Insert(es, e) <==> x in es || x == e
  {
    if es != [] && es[|es| - 1].at > e.at {
      var init, last := es[..|es| - 1], es[|es| - 1];
      InsertSorted(init, e);
      var r := Insert(init, e);
      assert es == init + [last];
      forall i | 0 <= i < |r|
        ensures Before(r[i], last)
      {
        assert r[i] in r;
        if r[i] != e {
          var k :| 0 <= k < |init| && init[k] == r[i];
          assert Before(es[k], es[|es| - 1]);
        }
      }
    } else {
      forall i | 0 <= i < |es|
        ensures Before(es[i], e)
      {
        if i < |es| - 1 {
          assert Before(es[i], es[|es| - 1]);
        }
      }
    }
  }

  lemma {:induction false} ByTimeSorts(es: seq<Entry>)
    requires forall i, j :: 0 <= i < j < |es| ==> IdLess(es[i].mid, es[j].mid)
    ensures Sorted(ByTime(es)) && |ByTime(es)| == |es|
    ensures forall x :: x in ByTime(es) <==> x in es
  {
    if es != [] {
      var init, last := es[..|es| - 1], es[|es| - 1];
      ByTimeSorts(init);
      assert es == init + [last];
      forall i | 0 <= i < |init|
        ensures IdLess(ByTime(init)[i].mid, last.mid)
      {
        assert ByTime(init)[i] in init;
      }
      InsertSorted(ByTime(init), last);
    }
  }

  function EntryOf(q: Queue, k: RowKey): Entry
    requires k in q
  {
    Entry(k.1, q[k])
  }

  /** Taking returns each of the peer's texts once, earlier clocks first and smaller ids first. */
  lemma TakeMeaning(q: Queue, to: PeerId)
    ensures forall k :: k in Take(q, to) <==> k in q && k.0 == to
    ensures forall i, j :: 0 <= i < j < |Take(q, to)| && Take(q, to)[i] in q && Take(q, to)[j] in q ==>
              Before(EntryOf(q, Take(q, to)[i]), EntryOf(q, Take(q, to)[j]))
    ensures NoDup(Take(q, to))
  {
    var ids := Ascending(IdsOf(q, to));
    AscendingMeaning(IdsOf(q, to));
    var rows := Rows(q, to);
    ByTimeSorts(rows);
    var es := ByTime(rows);
    var ks := Take(q, to);
    forall i | 0 <= i < |es|
      ensures (to, es[i].mid) in q && es[i] == EntryOf(q, (to, es[i].mid))
    {
      assert es[i] in rows;
      var j :| 0 <= j < |rows| && rows[j] == es[i];
      assert ids[j] in IdsOf(q, to);
    }
    forall k | k in q && k.0 == to
      ensures k in ks
    {
      assert k.1 in IdsOf(q, to);
      var j :| 0 <= j < |ids| && ids[j] == k.1;
      assert rows[j] in es;
      var i :| 0 <= i < |es| && es[i] == rows[j];
      assert ks[i] == k;
    }
    forall i, j
      ensures Apart(ks, i, j)
    {
      if 0 <= i < j < |ks| {
        BeforeOrder(es[i], es[j]);
      }
    }
  }
}
