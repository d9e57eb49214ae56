/**
 One node sends to another over a network that loses, repeats and reorders frames and acks,
 while handlers fail and roll back and dedup windows are pruned.
 */
module Delivery {
  import opened Prelude
  import opened Outbox

  /**
   Both nodes' tables; every frame and ack ever sent (each may arrive any number of times, or
   never); what was enqueued; and how often each envelope's effect was committed and each dedup
   entry evicted.
   */
  datatype World = World(sender: Tables, receiver: Tables, frames: set<(MsgId, Bytes)>, acks: set<MsgId>,
                         enqueued: map<MsgId, Bytes>, effects: map<MsgId, nat>, evictions: map<MsgId, nat>)

  datatype Peers = Peers(sender: PeerId, receiver: PeerId)

  datatype Event =
    | Enqueue(mid: MsgId, body: Bytes, id: nat, now: int)
    | Transmit(mid: MsgId)
    | MarkSent(mid: MsgId)
    | Reschedule(id: nat, attempts: nat, nextAt: int)
    | Deliver(frame: (MsgId, Bytes), verdict: Verdict, now: int)
    | DeliverAck(mid: MsgId)
    | Evict(mid: MsgId)
    | EraseAtSender(mid: MsgId)
    | EraseAtReceiver(mid: MsgId)

  /** The receiving handler fails, keeps the text as an incoming row, or eats the envelope. */
  datatype Verdict = Refuses | Keeps | Eats

  function Count(m: map<MsgId, nat>, mid: MsgId): nat {
    if mid in m then m[mid] else 0
  }

  function ToReceiver(p: Peers, mid: MsgId): RowKey {
    RowKey(p.receiver, mid)
  }

  function FromSender(p: Peers, mid: MsgId): RowKey {
    RowKey(p.sender, mid)
  }

  function EffectOf(p: Peers, frame: (MsgId, Bytes), v: Verdict): Effect {
    match v
    case Refuses => Fails
    case Eats => Quiet
    case Keeps => Inserts(Row(FromSender(p, frame.0), false, Delivered, false, Some(frame.1)))
  }

  function Step(p: Peers, w: World, e: Event): World {
    match e
    case Enqueue(mid, body, id, now) =>
      var k := ToReceiver(p, mid);
      var t := InsertMessage(w.sender, Row(k, true, Queued, false, Some(body))).0;
      w.(sender := t.(outbox := t.outbox + [Item(id, k, body, 0, now)]), enqueued := w.enqueued[mid := body])
    case Transmit(mid) =>
      var i := FindItem(w.sender.outbox, ToReceiver(p, mid));
      if i < |w.sender.outbox| then w.(frames := w.frames + {(mid, w.sender.outbox[i].frame)}) else w
    case MarkSent(mid) => w.(sender := MessageStatusUp(w.sender, ToReceiver(p, mid), Sent))
    case Reschedule(id, attempts, nextAt) => w.(sender := OutboxAttempt(w.sender, id, attempts, nextAt))
    case Deliver(frame, verdict, now) =>
      var (t, acked, done) := HandleReliable(w.receiver, FromSender(p, frame.0), EffectOf(p, frame, verdict), now);
      w.(receiver := t,
         acks := if acked then w.acks + {frame.0} else w.acks,
         effects := if done then w.effects[frame.0 := Count(w.effects, frame.0) + 1] else w.effects)
    case DeliverAck(mid) => w.(sender := HandleAck(w.sender, ToReceiver(p, mid)))
    case Evict(mid) =>
      var k := FromSender(p, mid);
      if k in w.receiver.dedup then
        w.(receiver := w.receiver.(dedup := w.receiver.dedup - {k}),
           evictions := w.evictions[mid := Count(w.evictions, mid) + 1])
      else w
    case EraseAtSender(mid) => w.(sender := DeleteMessageBody(w.sender, ToReceiver(p, mid)))
    case EraseAtReceiver(mid) => w.(receiver := DeleteMessageBody(w.receiver, FromSender(p, mid)))
  }

  /** Message ids are fresh; only what was sent can arrive. */
  predicate Possible(w: World, e: Event) {
    match e
    case Enqueue(mid, _, _, _) => mid !in w.enqueued
    case Deliver(frame, _, _) => frame in w.frames
    case DeliverAck(mid) => mid in w.acks
    case _ => true
  }

  // ----- rows by their index -----

  function RowAt(rows: seq<Row>, k: RowKey, outgoing: bool): Option<Row> {
    var i := FindRow(rows, k, outgoing);
    if i < |rows| then Some(rows[i]) else None
  }

  /** No two rows share their index. */
  ghost predicate UniqueRows(rows: seq<Row>) {
    forall i :: 0 <= i < |rows| ==> FindRow(rows, rows[i].key, rows[i].outgoing) == i
  }

  lemma FindIs(rows: seq<Row>, k: RowKey, outgoing: bool, i: nat)
    requires i <= |rows|
    requires i < |rows| ==> rows[i].key == k && rows[i].outgoing == outgoing
    requires forall j :: 0 <= j < i ==> !(rows[j].key == k && rows[j].outgoing == outgoing)
    ensures FindRow(rows, k, outgoing) == i
  {
    var x := FindRow(rows, k, outgoing);
  }

  /** Rows rewritten in place, index columns untouched, are found where they were. */
  lemma FindSame(rows: seq<Row>, rows': seq<Row>, k: RowKey, outgoing: bool)
    requires |rows'| == |rows|
    requires forall i :: 0 <= i < |rows| ==> rows'[i].key == rows[i].key && rows'[i].outgoing == rows[i].outgoing
    ensures FindRow(rows', k, outgoing) == FindRow(rows, k, outgoing)
  {
    FindIs(rows', k, outgoing, FindRow(rows, k, outgoing));
  }

  lemma RewriteKeepsUnique(rows: seq<Row>, rows': seq<Row>)
    requires |rows'| == |rows| && UniqueRows(rows)
    requires forall i :: 0 <= i < |rows| ==> rows'[i].key == rows[i].key && rows'[i].outgoing == rows[i].outgoing
    ensures UniqueRows(rows')
  {
    forall i | 0 <= i < |rows'|
      ensures FindRow(rows', rows'[i].key, rows'[i].outgoing) == i
    {
      FindSame(rows, rows', rows'[i].key, rows'[i].outgoing);
    }
  }

  lemma InsertRow(t: Tables, row: Row, k: RowKey, outgoing: bool)
    requires UniqueRows(t.messages)
    ensures var rows' := InsertMessage(t, row).0.messages;
      && UniqueRows(rows')
      && RowAt(rows', k, outgoing) ==
         if RowAt(t.messages, k, outgoing).Some? then RowAt(t.messages, k, outgoing)
         else if row.key == k && row.outgoing == outgoing then Some(row) else None
  {
    var rows, rows' := t.messages, InsertMessage(t, row).0.messages;
    var at := FindRow(rows, k, outgoing);
    if FindRow(rows, row.key, row.outgoing) == |rows| {
      if at == |rows| && !(row.key == k && row.outgoing == outgoing) {
        FindIs(rows', k, outgoing, |rows'|);
      } else {
        FindIs(rows', k, outgoing, at);
      }
      forall i | 0 <= i < |rows'|
        ensures FindRow(rows', rows'[i].key, rows'[i].outgoing) == i
      {
        if i < |rows| {
          assert FindRow(rows, rows[i].key, rows[i].outgoing) == i;
        }
        FindIs(rows', rows'[i].key, rows'[i].outgoing, i);
      }
    }
  }

  lemma StatusRow(t: Tables, k: RowKey, s: Status, x: RowKey, outgoing: bool)
    requires UniqueRows(t.messages)
    ensures var rows' := MessageStatusUp(t, k, s).messages; var r := RowAt(t.messages, x, outgoing);
      && UniqueRows(rows')
      && RowAt(rows', x, outgoing) ==
         if outgoing && x == k && r.Some? && Rank(r.value.status) < Rank(s) then Some(r.value.(status := s)) else r
  {
    var rows, rows' := t.messages, MessageStatusUp(t, k, s).messages;
    FindSame(rows, rows', x, outgoing);
    RewriteKeepsUnique(rows, rows');
  }

  lemma EraseRow(t: Tables, k: RowKey, x: RowKey, outgoing: bool)
    requires UniqueRows(t.messages)
    ensures var rows' := DeleteMessageBody(t, k).messages; var r := RowAt(t.messages, x, outgoing);
      && UniqueRows(rows')
      && RowAt(rows', x, outgoing) ==
         if x == k && r.Some? then Some(r.value.(deleted := true, body := None)) else r
  {
    var rows, rows' := t.messages, DeleteMessageBody(t, k).messages;
    FindSame(rows, rows', x, outgoing);
    RewriteKeepsUnique(rows, rows');
  }

  // ----- queue entries by their index -----

  function ItemAt(q: seq<Item>, k: RowKey): Option<Item> {
    var i := FindItem(q, k);
    if i < |q| then Some(q[i]) else None
  }

  ghost predicate UniqueItems(q: seq<Item>) {
    forall i :: 0 <= i < |q| ==> FindItem(q, q[i].key) == i
  }

  lemma FindItemIs(q: seq<Item>, k: RowKey, i: nat)
    requires i <= |q| && (i < |q| ==> q[i].key == k) && forall j :: 0 <= j < i ==> q[j].key != k
    ensures FindItem(q, k) == i
  {
    var x := FindItem(q, k);
  }

  lemma AppendItem(q: seq<Item>, item: Item, k: RowKey)
    requires UniqueItems(q) && ItemAt(q, item.key).None?
    ensures UniqueItems(q + [item])
    ensures ItemAt(q + [item], k) == if k == item.key then Some(item) else ItemAt(q, k)
  {
    var q' := q + [item];
    forall i | 0 <= i < |q'|
      ensures FindItem(q', q'[i].key) == i
    {
      if i < |q| {
        assert FindItem(q, q[i].key) == i;
      }
      FindItemIs(q', q'[i].key, i);
    }
    FindItemIs(q', k, if FindItem(q, k) == |q| && k != item.key then |q'| else FindItem(q, k));
  }

  lemma RemoveItemUnique(q: seq<Item>, i: nat)
    requires UniqueItems(q) && i < |q|
    ensures UniqueItems(RemoveAt(q, i))
    ensures forall j :: 0 <= j < |q| - 1 ==> RemoveAt(q, i)[j].key != q[i].key
  {
    var q' := RemoveAt(q, i);
    forall j | 0 <= j < |q'|
      ensures FindItem(q', q'[j].key) == j && q'[j].key != q[i].key
    {
      var o := if j < i then j else j + 1;
      assert FindItem(q, q[o].key) == o && FindItem(q, q[i].key) == i;
      FindItemIs(q', q'[j].key, j);
    }
  }

  lemma RemoveItem(q: seq<Item>, i: nat, x: RowKey)
    requires UniqueItems(q) && i < |q|
    ensures UniqueItems(RemoveAt(q, i))
    ensures ItemAt(RemoveAt(q, i), x) == if x == q[i].key then None else ItemAt(q, x)
  {
    RemoveItemUnique(q, i);
    var q', o := RemoveAt(q, i), FindItem(q, x);
    hide UniqueItems;
    FindItemIs(q', x, if x == q[i].key || o == |q| then |q'| else if o < i then o else o - 1);
  }

  lemma SettleItem(t: Tables, k: RowKey, x: RowKey)
    requires UniqueItems(t.outbox)
    ensures var (t', settled) := OutboxSettle(t, k);
      && UniqueItems(t'.outbox) && (settled <==> ItemAt(t.outbox, k).Some?)
      && ItemAt(t'.outbox, x) == if x == k then None else ItemAt(t.outbox, x)
  {
    var i := FindItem(t.outbox, k);
    if i < |t.outbox| {
      hide UniqueItems, RemoveAt;
      RemoveItem(t.outbox, i, x);
    }
  }

  lemma FindItemSame(q: seq<Item>, q': seq<Item>, k: RowKey)
    requires |q'| == |q| && forall i :: 0 <= i < |q| ==> q'[i].key == q[i].key
    ensures FindItem(q', k) == FindItem(q, k)
  {
    FindItemIs(q', k, FindItem(q, k));
  }

  lemma RescheduleItem(t: Tables, id: nat, attempts: nat, nextAt: int, k: RowKey)
    requires UniqueItems(t.outbox)
    ensures var q' := OutboxAttempt(t, id, attempts, nextAt).outbox;
      && UniqueItems(q')
      && (ItemAt(q', k).Some? <==> ItemAt(t.outbox, k).Some?)
      && (ItemAt(q', k).Some? ==> ItemAt(q', k).value.frame == ItemAt(t.outbox, k).value.frame)
  {
    var q, q' := t.outbox, OutboxAttempt(t, id, attempts, nextAt).outbox;
    FindItemSame(q, q', k);
    forall i | 0 <= i < |q'|
      ensures FindItem(q', q'[i].key) == i
    {
      FindItemSame(q, q', q'[i].key);
    }
  }

  // ----- the invariant -----

  /** What holds for each message id in every reachable world. */
  predicate IdOk(p: Peers, w: World, mid: MsgId) {
    var sent := RowAt(w.sender.messages, ToReceiver(p, mid), true);
    var queued := ItemAt(w.sender.outbox, ToReceiver(p, mid));
    var got := RowAt(w.receiver.messages, FromSender(p, mid), false);
    var n := Count(w.effects, mid);
    // exactly one commit, plus one for each time the dedup entry was evicted in between
    && n == Count(w.evictions, mid) + (if FromSender(p, mid) in w.receiver.dedup then 1 else 0)
    // acks and deliveries mean a commit
    && (mid in w.acks ==> n > 0)
    && (n > 0 ==> mid in w.enqueued)
    // until delivered, the sender keeps the envelope
    && (sent.Some? <==> mid in w.enqueued)
    && (queued.Some? ==> mid in w.enqueued && queued.value.frame == w.enqueued[mid])
    && (sent.Some? ==> (sent.value.status == Delivered <==> queued.None?))
    && (sent.Some? && sent.value.status == Delivered ==> n > 0)
    // what was received is what was written
    && (got.Some? ==> n > 0 && (got.value.deleted || got.value.body == Some(w.enqueued[mid])))
  }

  ghost predicate Inv(p: Peers, w: World) {
    && UniqueRows(w.sender.messages) && UniqueRows(w.receiver.messages) && UniqueItems(w.sender.outbox)
    && (forall f: (MsgId, Bytes) :: f in w.frames ==> f.0 in w.enqueued && w.enqueued[f.0] == f.1)
    && (forall mid :: IdOk(p, w, mid))
  }

  lemma EnqueueKeeps(p: Peers, w: World, e: Event)
    requires Inv(p, w) && e.Enqueue? && Possible(w, e)
    ensures Inv(p, Step(p, w, e))
  {
    var w' := Step(p, w, e);
    var k := ToReceiver(p, e.mid);
    var row := Row(k, true, Queued, false, Some(e.body));
    assert IdOk(p, w, e.mid);
    InsertRow(w.sender, row, k, true);
    var item := Item(e.id, k, e.body, 0, e.now);
    AppendItem(w.sender.outbox, item, k);
    forall mid
      ensures IdOk(p, w', mid)
    {
      assert IdOk(p, w, mid);
      InsertRow(w.sender, row, ToReceiver(p, mid), true);
      AppendItem(w.sender.outbox, item, ToReceiver(p, mid));
    }
  }

  lemma SenderKeeps(p: Peers, w: World, e: Event)
    requires Inv(p, w) && (e.MarkSent? || e.Reschedule? || e.EraseAtSender?)
    ensures Inv(p, Step(p, w, e))
  {
    var w' := Step(p, w, e);
    forall mid
      ensures IdOk(p, w', mid) && UniqueRows(w'.sender.messages) && UniqueItems(w'.sender.outbox)
    {
      assert IdOk(p, w, mid);
      match e
      case MarkSent(m) => StatusRow(w.sender, ToReceiver(p, m), Sent, ToReceiver(p, mid), true);
      case Reschedule(id, attempts, nextAt) => RescheduleItem(w.sender, id, attempts, nextAt, ToReceiver(p, mid));
      case EraseAtSender(m) => EraseRow(w.sender, ToReceiver(p, m), ToReceiver(p, mid), true);
    }
    assert IdOk(p, w', []);
  }

  lemma TransmitKeeps(p: Peers, w: World, mid: MsgId)
    requires Inv(p, w)
    ensures Inv(p, Step(p, w, Transmit(mid)))
  {
    var w' := Step(p, w, Transmit(mid));
    assert IdOk(p, w, mid);
    forall x
      ensures IdOk(p, w', x)
    {
      assert IdOk(p, w, x);
    }
  }

  /** The receiver's tables after a frame, seen through one id. */
  lemma Handled(p: Peers, t: Tables, frame: (MsgId, Bytes), v: Verdict, now: int, mid: MsgId)
    requires UniqueRows(t.messages)
    ensures var (t', acked, done) := HandleReliable(t, FromSender(p, frame.0), EffectOf(p, frame, v), now);
      var k := FromSender(p, frame.0); var x := FromSender(p, mid); var r := RowAt(t.messages, x, false);
      && UniqueRows(t'.messages)
      && (done <==> k !in t.dedup && !v.Refuses?) && (acked <==> k in t.dedup || !v.Refuses?)
      && (x in t'.dedup <==> x in t.dedup || (done && x == k))
      && RowAt(t'.messages, x, false) ==
         if r.None? && done && v.Keeps? && mid == frame.0
         then Some(Row(x, false, Delivered, false, Some(frame.1))) else r
  {
    var row := Row(FromSender(p, frame.0), false, Delivered, false, Some(frame.1));
    InsertRow(DedupInsert(t, FromSender(p, frame.0), now).0, row, FromSender(p, mid), false);
  }

  lemma DeliverKeeps(p: Peers, w: World, e: Event)
    requires Inv(p, w) && e.Deliver? && Possible(w, e)
    ensures Inv(p, Step(p, w, e))
  {
    hide HandleReliable, RowAt, UniqueRows, UniqueItems, ItemAt;
    var w' := Step(p, w, e);
    Handled(p, w.receiver, e.frame, e.verdict, e.now, e.frame.0);
    forall mid
      ensures IdOk(p, w', mid)
    {
      assert IdOk(p, w, mid);
      Handled(p, w.receiver, e.frame, e.verdict, e.now, mid);
    }
  }

  lemma DeliverAckKeeps(p: Peers, w: World, e: Event)
    requires Inv(p, w) && e.DeliverAck? && Possible(w, e)
    ensures Inv(p, Step(p, w, e))
  {
    var w' := Step(p, w, e);
    var k := ToReceiver(p, e.mid);
    var t1 := OutboxSettle(w.sender, k).0;
    assert IdOk(p, w, e.mid);
    SettleItem(w.sender, k, k);
    StatusRow(t1, k, Delivered, k, true);
    forall mid
      ensures IdOk(p, w', mid)
    {
      assert IdOk(p, w, mid);
      SettleItem(w.sender, k, ToReceiver(p, mid));
      StatusRow(t1, k, Delivered, ToReceiver(p, mid), true);
    }
  }

  lemma ReceiverKeeps(p: Peers, w: World, e: Event)
    requires Inv(p, w) && (e.Evict? || e.EraseAtReceiver?)
    ensures Inv(p, Step(p, w, e))
  {
    var w' := Step(p, w, e);
    forall mid
      ensures IdOk(p, w', mid) && UniqueRows(w'.receiver.messages)
    {
      assert IdOk(p, w, mid);
      if e.EraseAtReceiver? {
        EraseRow(w.receiver, FromSender(p, e.mid), FromSender(p, mid), false);
      }
    }
    assert IdOk(p, w', []);
  }

  lemma StepKeeps(p: Peers, w: World, e: Event)
    requires Inv(p, w) && Possible(w, e)
    ensures Inv(p, Step(p, w, e))
  {
    hide IdOk, UniqueRows, UniqueItems;
    match e
    case Enqueue(_, _, _, _) => EnqueueKeeps(p, w, e);
    case Transmit(mid) => TransmitKeeps(p, w, mid);
    case MarkSent(_) => SenderKeeps(p, w, e);
    case Reschedule(_, _, _) => SenderKeeps(p, w, e);
    case Deliver(_, _, _) => DeliverKeeps(p, w, e);
    case DeliverAck(_) => DeliverAckKeeps(p, w, e);
    case Evict(_) => ReceiverKeeps(p, w, e);
    case EraseAtSender(_) => SenderKeeps(p, w, e);
    case EraseAtReceiver(_) => ReceiverKeeps(p, w, e);
  }

  const START := World(Tables([], [], map[]), Tables([], [], map[]), {}, {}, map[], map[], map[])

  ghost predicate Reaches(p: Peers, w: World, es: seq<Event>, w': World)
    decreases |es|
  {
    if es == [] then w == w' else Possible(w, es[0]) && Reaches(p, Step(p, w, es[0]), es[1..], w')
  }

  lemma {:induction false} ReachesKeeps(p: Peers, w: World, es: seq<Event>, w': World)
    requires Inv(p, w) && Reaches(p, w, es, w')
    ensures Inv(p, w')
    decreases |es|
  {
    if es != [] {
      StepKeeps(p, w, es[0]);
      ReachesKeeps(p, Step(p, w, es[0]), es[1..], w');
    }
  }

  lemma Reachable(p: Peers, es: seq<Event>, w: World)
    requires Reaches(p, START, es, w)
    ensures Inv(p, w)
  {
    assert forall mid :: IdOk(p, START, mid);
    ReachesKeeps(p, START, es, w);
  }

  /** Pruning the sender's dedup window is a sequence of evictions. */
  lemma PruneIsEvictions(p: Peers, w: World, after: map<RowKey, int>, cutoff: int, cap: nat)
    returns (es: seq<Event>, w': World)
    requires Pruned(w.receiver.dedup, after, p.sender, cutoff, cap)
    ensures (forall e :: e in es ==> e.Evict?) && Reaches(p, w, es, w')
    ensures w'.receiver == w.receiver.(dedup := after)
  {
    es, w' := EvictAll(p, w, after);
  }

  lemma EvictAll(p: Peers, w: World, after: map<RowKey, int>) returns (es: seq<Event>, w': World)
    requires forall k :: k in after ==> k in w.receiver.dedup && after[k] == w.receiver.dedup[k]
    requires forall k :: k in w.receiver.dedup && k.peer != p.sender ==> k in after
    ensures (forall e :: e in es ==> e.Evict?) && Reaches(p, w, es, w')
    ensures w'.receiver == w.receiver.(dedup := after)
    decreases |w.receiver.dedup|
  {
    if k :| k in w.receiver.dedup && k !in after {
      assert k == FromSender(p, k.mid);
      EvictOne(p, w, k.mid);
      hide Step;
      var w1 := Step(p, w, Evict(k.mid));
      var rest;
      rest, w' := EvictAll(p, w1, after);
      es := [Evict(k.mid)] + rest;
      assert es[1..] == rest;
    } else {
      es, w' := [], w;
      assert w.receiver.dedup == after;
    }
  }

  lemma EvictOne(p: Peers, w: World, mid: MsgId)
    requires FromSender(p, mid) in w.receiver.dedup
    ensures Possible(w, Evict(mid))
    ensures var d := Step(p, w, Evict(mid)).receiver.dedup;
      && Step(p, w, Evict(mid)).receiver == w.receiver.(dedup := d)
      && d == w.receiver.dedup - {FromSender(p, mid)} && |d| < |w.receiver.dedup|
  {
    var k := FromSender(p, mid);
    var d := w.receiver.dedup - {k};
    assert w.receiver.dedup.Keys == d.Keys + {k};
  }

  // ----- what it means -----

  /** The receiver's history holds at most one row per peer, direction and message id. */
  lemma HistoryHasNoDoubles(p: Peers, es: seq<Event>, w: World, i: nat, j: nat)
    requires Reaches(p, START, es, w) && i < j < |w.receiver.messages|
    ensures w.receiver.messages[i].key != w.receiver.messages[j].key
         || w.receiver.messages[i].outgoing != w.receiver.messages[j].outgoing
  {
    Reachable(p, es, w);
    var rows := w.receiver.messages;
    assert FindRow(rows, rows[i].key, rows[i].outgoing) == i && FindRow(rows, rows[j].key, rows[j].outgoing) == j;
  }

  /** A handler's effect is committed once, and once more only after its dedup entry was evicted. */
  lemma EffectsOnce(p: Peers, es: seq<Event>, w: World, mid: MsgId)
    requires Reaches(p, START, es, w)
    ensures Count(w.effects, mid)
         == Count(w.evictions, mid) + (if FromSender(p, mid) in w.receiver.dedup then 1 else 0)
  {
    Reachable(p, es, w);
    assert IdOk(p, w, mid);
  }

  /** Delivered is an honest signal, and an undelivered text is still in the queue, whole. */
  lemma DeliveredIsHonest(p: Peers, es: seq<Event>, w: World, mid: MsgId)
    requires Reaches(p, START, es, w) && mid in w.enqueued
    ensures var sent := RowAt(w.sender.messages, ToReceiver(p, mid), true);
      var queued := ItemAt(w.sender.outbox, ToReceiver(p, mid));
      && sent.Some?
      && (sent.value.status == Delivered ==> Count(w.effects, mid) > 0)
      && (sent.value.status != Delivered <==> queued.Some?)
      && (queued.Some? ==> queued.value.frame == w.enqueued[mid])
  {
    Reachable(p, es, w);
    assert IdOk(p, w, mid);
  }

  /** An incoming row holds the text that was written, and deleting it is final. */
  lemma ReceivedIsWritten(p: Peers, es: seq<Event>, w: World, mid: MsgId, e: Event)
    requires Reaches(p, START, es, w) && Possible(w, e)
    requires RowAt(w.receiver.messages, FromSender(p, mid), false).Some?
    ensures var got := RowAt(w.receiver.messages, FromSender(p, mid), false).value;
      var then' := RowAt(Step(p, w, e).receiver.messages, FromSender(p, mid), false);
      && mid in w.enqueued && (got.deleted || got.body == Some(w.enqueued[mid]))
      && then'.Some? && (got.deleted ==> then'.value.deleted)
  {
    Reachable(p, es, w);
    assert IdOk(p, w, mid);
    hide RowAt, UniqueRows, IdOk, HandleReliable;
    if e.Deliver? {
      Handled(p, w.receiver, e.frame, e.verdict, e.now, mid);
    } else if e.EraseAtReceiver? {
      EraseRow(w.receiver, FromSender(p, e.mid), FromSender(p, mid), false);
    }
  }
}
