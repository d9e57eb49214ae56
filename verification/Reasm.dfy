/** Video frames cut into segments, and put together again from a bounded list of open frames. */
module Reasm {
  import opened Prelude
  import opened BigEndian
  import Bitmap

  const SEG_HEADER_LEN: nat := 6
  const SEG_PAYLOAD: nat := 61440
  const MAX_VIDEO_FRAME: nat := 0x10_0000
  const REASM_SLOTS: nat := 4

  datatype Error = BadSegment

  // ----- cutting -----

  function Total(frame: Bytes): nat {
    (|frame| + SEG_PAYLOAD - 1) / SEG_PAYLOAD
  }

  function Min(a: nat, b: nat): nat {
    if a < b then a else b
  }

  predicate Sendable(frame: Bytes) {
    0 < |frame| <= MAX_VIDEO_FRAME
  }

  /** Where part i starts; past the end, the end. */
  function Cut(frame: Bytes, i: nat): nat {
    Min(i * SEG_PAYLOAD, |frame|)
  }

  function Part(frame: Bytes, i: nat): Bytes
    requires i < Total(frame)
  {
    frame[Cut(frame, i)..Cut(frame, i + 1)]
  }

  lemma Parts(frame: Bytes, i: nat)
    requires Sendable(frame) && i < Total(frame)
    ensures Total(frame) <= 18
    ensures 0 < |Part(frame, i)| <= SEG_PAYLOAD
  {
  }

  function Header(id: nat, index: nat, total: nat): (b: Bytes)
    requires id < U32 && index < total < 256
    ensures |b| == SEG_HEADER_LEN
  {
    Put32(id) + [index as byte, total as byte]
  }

  function SegmentOf(id: nat, frame: Bytes, i: nat): Bytes
    requires id < U32 && Sendable(frame) && i < Total(frame)
  {
    Header(id, i, Total(frame)) + Part(frame, i)
  }

  function Segments(id: nat, frame: Bytes, n: nat): (segs: seq<Bytes>)
    requires id < U32 && Sendable(frame) && n <= Total(frame)
    ensures |segs| == n && forall i :: 0 <= i < n ==> segs[i] == SegmentOf(id, frame, i)
  {
    if n == 0 then [] else Segments(id, frame, n - 1) + [SegmentOf(id, frame, n - 1)]
  }

  method Fill(buf: array<byte>, id: nat, index: nat, total: nat, data: Bytes) returns (n: nat)
    requires id < U32 && index < total < 256 && buf.Length >= SEG_HEADER_LEN + |data|
    modifies buf
    ensures n <= buf.Length && buf[..n] == Header(id, index, total) + data
  {
    var head := Put32(id);
    buf[0], buf[1], buf[2], buf[3] := head[0], head[1], head[2], head[3];
    buf[4], buf[5] := index as byte, total as byte;
    forall k | 0 <= k < |data| {
      buf[SEG_HEADER_LEN + k] := data[k];
    }
    n := SEG_HEADER_LEN + |data|;
    hide Put32;
    assert buf[..n] == Header(id, index, total) + data;
  }

  /** One buffer is used for all segments; what is sent is the part of it that is filled. */
  method SegmentVideo(id: nat, frame: Bytes) returns (r: Result<seq<Bytes>, Error>)
    requires id < U32
    ensures r == if Sendable(frame) then Ok(Segments(id, frame, Total(frame))) else Err(BadSegment)
  {
    if |frame| == 0 || |frame| > MAX_VIDEO_FRAME {
      return Err(BadSegment);
    }
    var total := (|frame| + SEG_PAYLOAD - 1) / SEG_PAYLOAD;
    if total > 255 {
      return Err(BadSegment);
    }
    var buf := new byte[SEG_HEADER_LEN + SEG_PAYLOAD](_ => 0);
    var out: seq<Bytes> := [];
    for i := 0 to total
      invariant out == Segments(id, frame, i)
    {
      Parts(frame, i);
      var start := i * SEG_PAYLOAD;
      var end := Min(start + SEG_PAYLOAD, |frame|);
      var n := Fill(buf, id, i, total, frame[start..end]);
      out := out + [buf[..n]];
    }
    r := Ok(out);
  }

  // ----- putting together -----

  datatype Segment = Segment(id: nat, index: nat, total: nat, data: Bytes)

  function Parse(seg: Bytes): (r: Option<Segment>)
    ensures r.Some? ==> r.value.index < r.value.total < 256 && r.value.data != []
  {
    if |seg| <= SEG_HEADER_LEN then None
    else
      var id, index, total := Get32(seg), seg[4] as nat, seg[5] as nat;
      if total == 0 || index >= total || |seg| - SEG_HEADER_LEN > SEG_PAYLOAD then None
      else Some(Segment(id, index, total, seg[SEG_HEADER_LEN..]))
  }

  lemma ParseSegment(id: nat, frame: Bytes, i: nat)
    requires id < U32 && Sendable(frame) && i < Total(frame)
    ensures Parse(SegmentOf(id, frame, i)) == Some(Segment(id, i, Total(frame), Part(frame, i)))
  {
    Parts(frame, i);
    var tail := [i as byte, Total(frame) as byte] + Part(frame, i);
    assert SegmentOf(id, frame, i) == Put32(id) + tail;
    PutGet(id, tail);
  }

  /** A frame being put together; parts not there yet are None. */
  datatype Slot = Slot(id: nat, total: nat, have: nat, parts: seq<Option<Bytes>>)

  function Present(parts: seq<Option<Bytes>>): nat {
    if parts == [] then 0 else Present(parts[..|parts| - 1]) + if parts[|parts| - 1].Some? then 1 else 0
  }

  function Joined(parts: seq<Option<Bytes>>): Bytes {
    if parts == [] then []
    else
      var rest := Joined(parts[..|parts| - 1]);
      if parts[|parts| - 1].Some? then rest + parts[|parts| - 1].value else rest
  }

  function Empty(n: nat): (parts: seq<Option<Bytes>>)
    ensures |parts| == n && forall i :: 0 <= i < n ==> parts[i] == None
  {
    if n == 0 then [] else Empty(n - 1) + [None]
  }

  predicate SlotOk(s: Slot) {
    0 < s.total < 256 && |s.parts| == s.total && s.have == Present(s.parts) && s.have < s.total
  }

  /** Few slots, of different frames, each with its count of parts right and some part missing. */
  predicate SlotsOk(slots: seq<Slot>) {
    && |slots| <= REASM_SLOTS
    && (forall i :: 0 <= i < |slots| ==> SlotOk(slots[i]))
    && forall i, j :: 0 <= i < j < |slots| ==> slots[i].id != slots[j].id
  }

  function FindSlot(slots: seq<Slot>, id: nat): (i: nat)
    ensures i <= |slots| && (i < |slots| ==> slots[i].id == id)
    ensures forall j :: 0 <= j < i ==> slots[j].id != id
  {
    if slots == [] || slots[0].id == id then 0 else 1 + FindSlot(slots[1..], id)
  }

  /** A new slot at the end; beyond the limit the oldest goes. */
  function Opened(slots: seq<Slot>, s: Segment): (r: seq<Slot>)
    ensures r != [] && r[|r| - 1] == Slot(s.id, s.total, 0, Empty(s.total))
  {
    var all := slots + [Slot(s.id, s.total, 0, Empty(s.total))];
    if |all| > REASM_SLOTS then all[1..] else all
  }

  function Filled(f: Slot, s: Segment): Slot
    requires s.index < |f.parts|
  {
    f.(parts := f.parts[s.index := Some(s.data)], have := f.have + 1)
  }

  function PushV(slots: seq<Slot>, seg: Bytes): (seq<Slot>, Result<Option<Bytes>, Error>)
    requires SlotsOk(slots)
  {
    match Parse(seg)
    case None => (slots, Err(BadSegment))
    case Some(s) =>
      var found := FindSlot(slots, s.id);
      if found < |slots| then PushAt(slots, found, s)
      else
        var grown := Opened(slots, s);
        PushAt(grown, |grown| - 1, s)
  }

  function PushAt(slots: seq<Slot>, i: nat, s: Segment): (seq<Slot>, Result<Option<Bytes>, Error>)
    requires i < |slots| && |slots[i].parts| == slots[i].total && s.index < s.total
  {
    if slots[i].total != s.total then (slots, Err(BadSegment))
    else if slots[i].parts[s.index].Some? then (slots, Ok(None))
    else
      var f := Filled(slots[i], s);
      if f.have < f.total then (slots[i := f], Ok(None))
      else if |Joined(f.parts)| > MAX_VIDEO_FRAME then (RemoveAt(slots, i), Err(BadSegment))
      else (RemoveAt(slots, i), Ok(Some(Joined(f.parts))))
  }

  class Reassembler {
    var slots: seq<Slot>

    constructor ()
      ensures slots == []
    {
      slots := [];
    }

    method Push(seg: Bytes) returns (r: Result<Option<Bytes>, Error>)
      requires SlotsOk(slots)
      modifies this`slots
      ensures (slots, r) == PushV(old(slots), seg)
      ensures SlotsOk(slots)
    {
      PushKeeps(slots, seg);
      hide Joined, Present, Parse, Empty, SlotOk;
      var parsed := Parse(seg);
      if parsed.None? {
        return Err(BadSegment);
      }
      var s := parsed.value;
      var i := 0;
      while i < |slots| && slots[i].id != s.id
        invariant i <= |slots| && forall j :: 0 <= j < i ==> slots[j].id != s.id
      {
        i := i + 1;
      }
      if i == |slots| {
        slots := slots + [Slot(s.id, s.total, 0, Empty(s.total))];
        if |slots| > REASM_SLOTS {
          slots := slots[1..];
        }
        i := |slots| - 1;
      }
      if slots[i].total != s.total {
        return Err(BadSegment);
      }
      if slots[i].parts[s.index].Some? {
        return Ok(None);
      }
      slots := slots[i := Filled(slots[i], s)];
      var f := slots[i];
      if f.have < f.total {
        return Ok(None);
      }
      assert RemoveAt(slots, i) == slots[..i] + slots[i + 1..];
      slots := slots[..i] + slots[i + 1..];
      var out := Join(f.parts);
      r := if |out| > MAX_VIDEO_FRAME then Err(BadSegment) else Ok(Some(out));
    }
  }

  method Join(parts: seq<Option<Bytes>>) returns (out: Bytes)
    ensures out == Joined(parts)
  {
    out := [];
    for k := 0 to |parts|
      invariant out == Joined(parts[..k])
    {
      assert parts[..k + 1][..k] == parts[..k];
      if parts[k].Some? {
        out := out + parts[k].value;
      }
    }
    assert parts[..|parts|] == parts;
  }

  // ----- whatever arrives -----

  lemma {:induction false} FillCounts(parts: seq<Option<Bytes>>, i: nat, data: Bytes)
    requires i < |parts| && parts[i].None?
    ensures Present(parts[i := Some(data)]) == Present(parts) + 1
  {
    var init := parts[..|parts| - 1];
    if i == |parts| - 1 {
      assert parts[i := Some(data)][..|parts| - 1] == init;
    } else {
      FillCounts(init, i, data);
      assert parts[i := Some(data)][..|parts| - 1] == init[i := Some(data)];
    }
  }

  lemma {:induction false} PresentBound(parts: seq<Option<Bytes>>)
    ensures Present(parts) <= |parts|
    ensures Present(parts) == |parts| ==> forall i :: 0 <= i < |parts| ==> parts[i].Some?
    ensures (forall i :: 0 <= i < |parts| ==> parts[i].None?) ==> Present(parts) == 0
  {
    if parts != [] {
      PresentBound(parts[..|parts| - 1]);
    }
  }

  /** Whatever arrives, the slots stay in order. */
  lemma PushKeeps(slots: seq<Slot>, seg: Bytes)
    requires SlotsOk(slots)
    ensures SlotsOk(PushV(slots, seg).0)
  {
    hide Parse, PushAt, SlotOk;
    var parsed := Parse(seg);
    if parsed.Some? {
      var s := parsed.value;
      var found := FindSlot(slots, s.id);
      if found < |slots| {
        PushAtKeeps(slots, found, s);
      } else {
        OpenedOk(slots, s);
        PushAtKeeps(Opened(slots, s), |Opened(slots, s)| - 1, s);
      }
    }
  }

  lemma OpenedOk(slots: seq<Slot>, s: Segment)
    requires SlotsOk(slots) && FindSlot(slots, s.id) == |slots| && s.index < s.total < 256
    ensures SlotsOk(Opened(slots, s))
  {
    PresentBound(Empty(s.total));
  }

  lemma PushAtKeeps(slots: seq<Slot>, i: nat, s: Segment)
    requires SlotsOk(slots) && i < |slots| && s.index < s.total
    ensures SlotsOk(PushAt(slots, i, s).0)
  {
    if slots[i].total == s.total && slots[i].parts[s.index].None? {
      FillCounts(slots[i].parts, s.index, s.data);
    }
  }
}
