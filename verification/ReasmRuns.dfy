/**
 The segments of several frames pushed once each, in any order in which at most REASM_SLOTS frames
 are open at a time: every frame comes back exactly once, byte for byte.
 */
module ReasmRuns {
  import opened Prelude
  import opened Reasm
  import Bitmap

  type Frames = map<nat, Bytes>

  /** Frame id and part number of each push. */
  type Order = seq<(nat, nat)>

  predicate Proper(fs: Frames) {
    forall id :: id in fs ==> id < U32 && Sendable(fs[id])
  }

  function Got(order: Order, id: nat): set<nat> {
    set e | e in order && e.0 == id :: e.1
  }

  predicate Full(fs: Frames, order: Order, id: nat)
    requires id in fs
  {
    |Got(order, id)| == Total(fs[id])
  }

  function OpenFrames(fs: Frames, order: Order): set<nat> {
    set id | id in fs && Got(order, id) != {} && !Full(fs, order, id)
  }

  predicate Fits(fs: Frames, order: Order) {
    order == []
    || (var init, e := order[..|order| - 1], order[|order| - 1];
        && Fits(fs, init) && e.0 in fs && e.1 < Total(fs[e.0]) && e !in init
        && |OpenFrames(fs, init) + {e.0}| <= REASM_SLOTS)
  }

  function Slots(fs: Frames, order: Order): (slots: seq<Slot>)
    requires Proper(fs) && Fits(fs, order)
    ensures SlotsOk(slots)
  {
    if order == [] then []
    else
      var e := order[|order| - 1];
      var before := Slots(fs, order[..|order| - 1]);
      var seg := SegmentOf(e.0, fs[e.0], e.1);
      PushKeeps(before, seg);
      PushV(before, seg).0
  }

  /** What the last push returns. */
  function LastResult(fs: Frames, order: Order): Result<Option<Bytes>, Error>
    requires Proper(fs) && Fits(fs, order) && order != []
  {
    var e := order[|order| - 1];
    PushV(Slots(fs, order[..|order| - 1]), SegmentOf(e.0, fs[e.0], e.1)).1
  }

  /** The frames returned so far, with the id of the push that returned each. */
  function Returned(fs: Frames, order: Order): seq<(nat, Bytes)>
    requires Proper(fs) && Fits(fs, order)
  {
    if order == [] then []
    else
      var rest := Returned(fs, order[..|order| - 1]);
      match LastResult(fs, order)
      case Ok(Some(frame)) => rest + [(order[|order| - 1].0, frame)]
      case _ => rest
  }

  // ----- what the slots hold -----

  predicate SlotMatches(fs: Frames, order: Order, s: Slot) {
    && s.id in fs && s.total == Total(fs[s.id]) == |s.parts| && s.have == |Got(order, s.id)|
    && forall i :: 0 <= i < s.total ==> s.parts[i] == if i in Got(order, s.id) then Some(Part(fs[s.id], i)) else None
  }

  ghost predicate HasSlot(slots: seq<Slot>, id: nat) {
    exists i :: 0 <= i < |slots| && slots[i].id == id
  }

  ghost predicate Matches(fs: Frames, order: Order, slots: seq<Slot>) {
    && (forall i :: 0 <= i < |slots| ==> SlotMatches(fs, order, slots[i]) && slots[i].id in OpenFrames(fs, order))
    && forall id :: id in OpenFrames(fs, order) ==> HasSlot(slots, id)
  }

  lemma GotStep(init: Order, e: (nat, nat), id: nat)
    ensures Got(init + [e], id) == Got(init, id) + if e.0 == id then {e.1} else {}
    ensures e !in init && e.0 == id ==> e.1 !in Got(init, id)
  {
    forall i | i in Got(init, id) + if e.0 == id then {e.1} else {}
      ensures i in Got(init + [e], id)
    {
      if i in Got(init, id) {
        var d :| d in init && d.0 == id && d.1 == i;
        assert d in init + [e];
      } else {
        assert e in init + [e];
      }
    }
  }

  lemma {:induction false} GotBelow(fs: Frames, order: Order, id: nat)
    requires Fits(fs, order) && id in fs
    ensures forall i :: i in Got(order, id) ==> i < Total(fs[id])
  {
    hide OpenFrames, Got, Total;
    if order == [] {
      assert Got(order, id) == {} by {
        NoneGot(id);
      }
    } else {
      var init, e := order[..|order| - 1], order[|order| - 1];
      GotBelow(fs, init, id);
      assert order == init + [e];
      GotStep(init, e, id);
    }
  }

  lemma NoneGot(id: nat)
    ensures Got([], id) == {}
  {
  }

  lemma FullGot(fs: Frames, order: Order, id: nat)
    requires Fits(fs, order) && id in fs
    ensures Full(fs, order, id) <==> forall i: nat :: i < Total(fs[id]) ==> i in Got(order, id)
    ensures |Got(order, id)| <= Total(fs[id])
  {
    GotBelow(fs, order, id);
    hide Got, Total;
    Bitmap.AllOrMissing(Got(order, id), Total(fs[id]));
  }

  lemma {:induction false} SlotsBounded(slots: seq<Slot>, ids: set<nat>)
    requires forall i, j :: 0 <= i < j < |slots| ==> slots[i].id != slots[j].id
    requires forall i :: 0 <= i < |slots| ==> slots[i].id in ids
    ensures |slots| <= |ids|
  {
    if slots != [] {
      SlotsBounded(slots[..|slots| - 1], ids - {slots[|slots| - 1].id});
    }
  }

  /** All the parts of a frame make the frame. */
  lemma {:induction false} JoinedParts(frame: Bytes, parts: seq<Option<Bytes>>, k: nat)
    requires Sendable(frame) && |parts| == Total(frame) && k <= |parts|
    requires forall i :: 0 <= i < |parts| ==> parts[i] == Some(Part(frame, i))
    ensures Joined(parts[..k]) == frame[..Cut(frame, k)]
  {
    if k > 0 {
      JoinedParts(frame, parts, k - 1);
      assert parts[..k][..k - 1] == parts[..k - 1];
      assert frame[..Cut(frame, k)] == frame[..Cut(frame, k - 1)] + Part(frame, k - 1);
    }
  }

  // ----- one push -----

  lemma Touched(fs: Frames, init: Order, e: (nat, nat))
    requires Fits(fs, init + [e])
    ensures Fits(fs, init) && e.0 in fs && e.1 < Total(fs[e.0]) && e !in init
    ensures |OpenFrames(fs, init) + {e.0}| <= REASM_SLOTS
    ensures e.1 !in Got(init, e.0) && Got(init + [e], e.0) == Got(init, e.0) + {e.1}
    ensures forall id :: id != e.0 ==> Got(init + [e], id) == Got(init, id)
    ensures !Full(fs, init, e.0)
  {
    assert (init + [e])[..|init|] == init;
    forall id
      ensures Got(init + [e], id) == Got(init, id) + if e.0 == id then {e.1} else {}
    {
      GotStep(init, e, id);
    }
    GotStep(init, e, e.0);
    FullGot(fs, init, e.0);
  }

  /** Slot i is the frame of e before the push; the others are the other open frames. */
  ghost predicate Ready(fs: Frames, init: Order, e: (nat, nat), slots: seq<Slot>, i: nat) {
    && i < |slots| && slots[i].id == e.0 && SlotMatches(fs, init, slots[i])
    && (forall j, k :: 0 <= j < k < |slots| ==> slots[j].id != slots[k].id)
    && (forall j :: 0 <= j < |slots| && j != i ==>
          SlotMatches(fs, init, slots[j]) && slots[j].id in OpenFrames(fs, init))
    && forall id :: id in OpenFrames(fs, init) ==> HasSlot(slots, id)
  }

  lemma StillMatches(fs: Frames, init: Order, e: (nat, nat), s: Slot)
    requires Fits(fs, init + [e]) && s.id != e.0 && SlotMatches(fs, init, s)
    ensures SlotMatches(fs, init + [e], s)
    ensures s.id in OpenFrames(fs, init) ==> s.id in OpenFrames(fs, init + [e])
  {
    Touched(fs, init, e);
  }

  /** One more part in a slot that holds the parts got of its frame. */
  lemma FilledParts(frame: Bytes, got: set<nat>, f: Slot, s: Segment)
    requires f.total == |f.parts| == Total(frame) && f.have == |got| && s.index < f.total && s.index !in got
    requires s.data == Part(frame, s.index)
    requires forall i :: 0 <= i < f.total ==> f.parts[i] == if i in got then Some(Part(frame, i)) else None
    ensures var g, got' := Filled(f, s), got + {s.index};
      && g.id == f.id && g.total == f.total == |g.parts| && g.have == |got'|
      && forall i :: 0 <= i < g.total ==> g.parts[i] == if i in got' then Some(Part(frame, i)) else None
  {
    hide Part, Total;
  }

  lemma FilledMatches(fs: Frames, init: Order, e: (nat, nat), f: Slot, s: Segment)
    requires Fits(fs, init + [e]) && f.id == e.0 && SlotMatches(fs, init, f)
    requires s == Segment(e.0, e.1, Total(fs[e.0]), Part(fs[e.0], e.1))
    ensures SlotMatches(fs, init + [e], Filled(f, s))
    ensures Full(fs, init + [e], e.0) <==> Filled(f, s).have == f.total
    ensures Filled(f, s).have <= f.total
  {
    hide Part, Total, OpenFrames;
    Touched(fs, init, e);
    FullGot(fs, init + [e], e.0);
    hide Fits, Got;
    FilledParts(fs[e.0], Got(init, e.0), f, s);
    hide Filled;
  }

  lemma FullOther(fs: Frames, init: Order, e: (nat, nat), id: nat)
    requires Fits(fs, init + [e]) && id != e.0
    ensures id in fs ==> (Full(fs, init + [e], id) <==> Full(fs, init, id))
    ensures id in OpenFrames(fs, init + [e]) <==> id in OpenFrames(fs, init)
  {
    Touched(fs, init, e);
  }

  lemma FullOwn(fs: Frames, init: Order, e: (nat, nat))
    requires Fits(fs, init + [e])
    ensures e.0 in fs && (e.0 in OpenFrames(fs, init + [e]) <==> !Full(fs, init + [e], e.0))
  {
    Touched(fs, init, e);
  }

  /** The slots other than i hold the other open frames. */
  ghost predicate OthersOk(fs: Frames, order: Order, slots: seq<Slot>, i: nat, id: nat) {
    && i < |slots| && slots[i].id == id
    && (forall j :: 0 <= j < |slots| && j != i ==>
          SlotMatches(fs, order, slots[j]) && slots[j].id in OpenFrames(fs, order))
    && forall k :: k in OpenFrames(fs, order) && k != id ==> HasSlot(slots, k)
  }

  lemma OthersStay(fs: Frames, init: Order, e: (nat, nat), slots: seq<Slot>, i: nat)
    requires Fits(fs, init + [e]) && Ready(fs, init, e, slots, i)
    ensures OthersOk(fs, init + [e], slots, i, e.0)
  {
    hide Fits, SlotMatches, OpenFrames;
    forall j | 0 <= j < |slots| && j != i
      ensures SlotMatches(fs, init + [e], slots[j]) && slots[j].id in OpenFrames(fs, init + [e])
    {
      assert slots[j].id != e.0;
      StillMatches(fs, init, e, slots[j]);
    }
    forall k | k in OpenFrames(fs, init + [e]) && k != e.0
      ensures HasSlot(slots, k)
    {
      FullOther(fs, init, e, k);
    }
  }

  lemma OneStays(fs: Frames, order: Order, slots: seq<Slot>, i: nat, f: Slot)
    requires OthersOk(fs, order, slots, i, f.id) && SlotMatches(fs, order, f) && f.id in OpenFrames(fs, order)
    ensures Matches(fs, order, slots[i := f])
  {
    hide SlotMatches, OpenFrames;
    forall k | k in OpenFrames(fs, order)
      ensures HasSlot(slots[i := f], k)
    {
      if k == f.id {
        assert slots[i := f][i].id == k;
      } else {
        var j :| 0 <= j < |slots| && slots[j].id == k;
        assert slots[i := f][j].id == k;
      }
    }
  }

  lemma OneGoes(fs: Frames, order: Order, slots: seq<Slot>, i: nat, id: nat)
    requires OthersOk(fs, order, slots, i, id) && id !in OpenFrames(fs, order)
    ensures Matches(fs, order, RemoveAt(slots, i))
  {
    hide SlotMatches, OpenFrames;
    forall k | k in OpenFrames(fs, order)
      ensures HasSlot(RemoveAt(slots, i), k)
    {
      var j :| 0 <= j < |slots| && slots[j].id == k;
      assert RemoveAt(slots, i)[if j < i then j else j - 1] == slots[j];
    }
  }

  /** The frame stays open with the part in its slot, or is whole and returned. */
  lemma PushAtMatches(fs: Frames, init: Order, e: (nat, nat), slots: seq<Slot>, i: nat, s: Segment)
    requires Proper(fs) && Fits(fs, init + [e]) && Ready(fs, init, e, slots, i) && e.0 in fs && e.1 < Total(fs[e.0])
    requires s == Segment(e.0, e.1, Total(fs[e.0]), Part(fs[e.0], e.1))
    requires |slots[i].parts| == slots[i].total
    ensures Matches(fs, init + [e], PushAt(slots, i, s).0)
    ensures PushAt(slots, i, s).1 == if Full(fs, init + [e], e.0) then Ok(Some(fs[e.0])) else Ok(None)
  {
    Touched(fs, init, e);
    FilledMatches(fs, init, e, slots[i], s);
    OthersStay(fs, init, e, slots, i);
    FullOwn(fs, init, e);
    assert slots[i].parts[e.1].None? && slots[i].total == s.total;
    var f := Filled(slots[i], s);
    hide SlotMatches, OpenFrames, Fits, Full, Ready, OthersOk, Got, Matches, Total, Part, Joined;
    if Full(fs, init + [e], e.0) {
      Whole(fs, init + [e], f);
      OneGoes(fs, init + [e], slots, i, e.0);
    } else {
      OneStays(fs, init + [e], slots, i, f);
    }
  }

  lemma Whole(fs: Frames, order: Order, f: Slot)
    requires Proper(fs) && Fits(fs, order) && SlotMatches(fs, order, f) && Full(fs, order, f.id)
    ensures Joined(f.parts) == fs[f.id]
  {
    FullGot(fs, order, f.id);
    JoinedParts(fs[f.id], f.parts, |f.parts|);
    assert f.parts[..|f.parts|] == f.parts;
    assert Cut(fs[f.id], Total(fs[f.id])) == |fs[f.id]|;
  }

  /** A frame seen for the first time gets a slot without any other losing its own. */
  lemma NewSlotReady(fs: Frames, init: Order, e: (nat, nat), slots: seq<Slot>, s: Segment)
    requires Proper(fs) && Fits(fs, init + [e]) && SlotsOk(slots) && Matches(fs, init, slots)
    requires s == Segment(e.0, e.1, Total(fs[e.0]), Part(fs[e.0], e.1)) && FindSlot(slots, e.0) == |slots|
    ensures Opened(slots, s) == slots + [Slot(e.0, s.total, 0, Empty(s.total))]
    ensures Ready(fs, init, e, Opened(slots, s), |slots|)
  {
    hide OpenFrames, SlotMatches, Fits, Got, Total, Part, Full, Empty, SlotOk;
    Touched(fs, init, e);
    Unseen(fs, init, e, slots);
    SlotsBounded(slots, OpenFrames(fs, init));
    var f := Slot(e.0, s.total, 0, Empty(s.total));
    GrownSlots(slots, OpenFrames(fs, init), e.0, f);
    NewMatches(fs, init, f);
    NewReady(fs, init, e, slots, f);
  }

  lemma NewMatches(fs: Frames, init: Order, f: Slot)
    requires f.id in fs && f == Slot(f.id, Total(fs[f.id]), 0, Empty(Total(fs[f.id]))) && Got(init, f.id) == {}
    ensures SlotMatches(fs, init, f)
  {
    hide Total, Got, Part;
  }

  lemma NewReady(fs: Frames, init: Order, e: (nat, nat), slots: seq<Slot>, f: Slot)
    requires SlotsOk(slots) && Matches(fs, init, slots) && f.id == e.0 && SlotMatches(fs, init, f)
    requires forall j :: 0 <= j < |slots| ==> slots[j].id != e.0
    ensures Ready(fs, init, e, slots + [f], |slots|)
  {
    hide OpenFrames, SlotMatches, SlotOk;
    var grown := slots + [f];
    forall id | id in OpenFrames(fs, init)
      ensures HasSlot(grown, id)
    {
      var j :| 0 <= j < |slots| && slots[j].id == id;
      assert grown[j].id == id;
    }
  }

  lemma Unseen(fs: Frames, init: Order, e: (nat, nat), slots: seq<Slot>)
    requires Fits(fs, init + [e]) && Matches(fs, init, slots) && FindSlot(slots, e.0) == |slots|
    ensures e.0 !in OpenFrames(fs, init) && Got(init, e.0) == {}
    ensures forall j :: 0 <= j < |slots| ==> slots[j].id != e.0
  {
    Touched(fs, init, e);
    assert !HasSlot(slots, e.0);
  }

  lemma GrownSlots(slots: seq<Slot>, ids: set<nat>, id: nat, f: Slot)
    requires id !in ids && |slots| <= |ids| && |ids + {id}| <= REASM_SLOTS
    ensures |slots + [f]| <= REASM_SLOTS
  {
    assert |ids + {id}| == |ids| + 1;
  }

  lemma PushMatches(fs: Frames, init: Order, e: (nat, nat), slots: seq<Slot>)
    requires Proper(fs) && Fits(fs, init + [e]) && e.0 in fs && e.1 < Total(fs[e.0])
    requires SlotsOk(slots) && Matches(fs, init, slots)
    ensures var (after, r) := PushV(slots, SegmentOf(e.0, fs[e.0], e.1));
      && Matches(fs, init + [e], after)
      && r == if Full(fs, init + [e], e.0) then Ok(Some(fs[e.0])) else Ok(None)
  {
    hide Fits, Full, Got, Total, Part, OpenFrames, SlotMatches, SegmentOf, PushAt, Empty, Opened, Parse;
    var s := Segment(e.0, e.1, Total(fs[e.0]), Part(fs[e.0], e.1));
    ParseSegment(e.0, fs[e.0], e.1);
    var found := FindSlot(slots, e.0);
    if found < |slots| {
      assert Ready(fs, init, e, slots, found);
      PushAtMatches(fs, init, e, slots, found, s);
    } else {
      NewSlotReady(fs, init, e, slots, s);
      PushAtMatches(fs, init, e, Opened(slots, s), |slots|, s);
    }
  }

  // ----- the run -----

  /** The last push of an order, apart. */
  lemma LastPush(fs: Frames, order: Order) returns (init: Order, e: (nat, nat))
    requires Fits(fs, order) && order != []
    ensures init == order[..|order| - 1] && e == order[|order| - 1] && order == init + [e]
    ensures Fits(fs, init) && Fits(fs, init + [e]) && e.0 in fs && e.1 < Total(fs[e.0]) && !Full(fs, init, e.0)
  {
    hide OpenFrames;
    init, e := order[..|order| - 1], order[|order| - 1];
    assert order == init + [e];
    Touched(fs, init, e);
  }

  /** A push returns a frame exactly when it brings the frame's last part, and then that frame. */
  lemma {:induction false} SlotsMatch(fs: Frames, order: Order)
    requires Proper(fs) && Fits(fs, order)
    ensures Matches(fs, order, Slots(fs, order))
    ensures order != [] ==>
              var id := order[|order| - 1].0;
              LastResult(fs, order) == if Full(fs, order, id) then Ok(Some(fs[id])) else Ok(None)
  {
    if order == [] {
      assert forall id :: Got(order, id) == {};
    } else {
      hide Fits, OpenFrames, Full, Got, Total, Matches, PushV, SlotsOk, SegmentOf;
      var init, e := LastPush(fs, order);
      SlotsMatch(fs, init);
      PushMatches(fs, init, e, Slots(fs, init));
    }
  }

  /** The frames returned are those with every part pushed, each once and unchanged. */
  lemma {:induction false} ReturnedOnce(fs: Frames, order: Order)
    requires Proper(fs) && Fits(fs, order)
    ensures forall r :: r in Returned(fs, order) <==> r.0 in fs && Full(fs, order, r.0) && r.1 == fs[r.0]
    ensures NoDup(Returned(fs, order))
  {
    if order == [] {
      NoneFull(fs);
    } else {
      hide Fits, Returned, OpenFrames, Full, Got, Total, NoDup;
      var init, e := LastPush(fs, order);
      ReturnedOnce(fs, init);
      ReturnedUnfolds(fs, order);
      ReturnedStep(fs, init, e, Returned(fs, init));
    }
  }

  lemma ReturnedUnfolds(fs: Frames, order: Order)
    requires Proper(fs) && Fits(fs, order) && order != []
    ensures var init, e := order[..|order| - 1], order[|order| - 1];
      Returned(fs, order)
      == if Full(fs, order, e.0) then Returned(fs, init) + [(e.0, fs[e.0])] else Returned(fs, init)
  {
    hide OpenFrames, Full, Got, Total, Matches, Slots, LastResult;
    SlotsMatch(fs, order);
  }

  lemma NoneFull(fs: Frames)
    requires Proper(fs)
    ensures forall id :: id in fs ==> !Full(fs, [], id)
  {
    forall id | id in fs
      ensures !Full(fs, [], id)
    {
      NoneGot(id);
    }
  }

  lemma ReturnedStep(fs: Frames, init: Order, e: (nat, nat), rs: seq<(nat, Bytes)>)
    requires Proper(fs) && Fits(fs, init + [e]) && e.0 in fs && NoDup(rs) && !Full(fs, init, e.0)
    requires forall r :: r in rs <==> r.0 in fs && Full(fs, init, r.0) && r.1 == fs[r.0]
    ensures var after := if Full(fs, init + [e], e.0) then rs + [(e.0, fs[e.0])] else rs;
      && NoDup(after)
      && forall r :: r in after <==> r.0 in fs && Full(fs, init + [e], r.0) && r.1 == fs[r.0]
  {
    NoDupSnoc(rs, (e.0, fs[e.0]));
    hide NoDup, Fits, Full;
    forall id | id in fs && id != e.0
      ensures Full(fs, init + [e], id) <==> Full(fs, init, id)
    {
      FullOther(fs, init, e, id);
    }
  }

  /** When every segment of every frame is pushed, every frame comes back, and only those. */
  lemma EveryFrameOnce(fs: Frames, order: Order)
    requires Proper(fs) && Fits(fs, order)
    requires forall id, i: nat :: id in fs && i < Total(fs[id]) ==> (id, i) in order
    ensures forall r :: r in Returned(fs, order) <==> r.0 in fs && r.1 == fs[r.0]
    ensures NoDup(Returned(fs, order)) && Slots(fs, order) == []
  {
    ReturnedOnce(fs, order);
    SlotsMatch(fs, order);
    assert Slots(fs, order) != [] ==> Slots(fs, order)[0].id in OpenFrames(fs, order);
    hide Matches, Slots, Returned, NoDup;
    forall id | id in fs
      ensures Full(fs, order, id)
    {
      FullGot(fs, order, id);
      forall i: nat | i < Total(fs[id])
        ensures i in Got(order, id)
      {
        assert (id, i) in order;
      }
    }
    assert OpenFrames(fs, order) == {};
  }
}
