/**
 The chat's store and the tables of the reliability layer are the same tables: each event of the
 chat has its statements on history and outbox, and they do to the tables what it does to the store.
 */
module ChatTables {
  import opened Prelude
  import opened RatchetCrypto
  import opened Ratchet
  import opened RatchetHandshake
  import opened Chat
  import opened ChatInvariant
  import ChatOrder
  import Lamport
  import Pending
  import SessionAgreement
  import O = Outbox
  import D = Delivery

  /** A statement on history or outbox. */
  datatype Statement =
    | Insert(row: O.Row)
    | Put(k: O.RowKey, frame: Bytes, now: int)
    | Up(k: O.RowKey, status: Status)
    | Wipe(k: O.RowKey)
    | Acked(k: O.RowKey)

  /** One above every row number in use. */
  function NextId(q: seq<O.Item>): (id: nat)
    ensures forall x :: x in q ==> x.id < id
  {
    if q == [] then 1
    else
      var rest, last := NextId(q[..|q| - 1]), q[|q| - 1];
      assert q == q[..|q| - 1] + [last];
      if last.id < rest then rest else last.id + 1
  }

  function Exec(t: O.Tables, x: Statement): O.Tables {
    match x
    case Insert(row) => O.InsertMessage(t, row).0
    case Put(k, frame, now) => t.(outbox := t.outbox + [O.Item(NextId(t.outbox), k, frame, 0, now)])
    case Up(k, status) => O.MessageStatusUp(t, k, status)
    case Wipe(k) => O.DeleteMessageBody(t, k)
    case Acked(k) => O.HandleAck(t, k)
  }

  function ExecAll(t: O.Tables, xs: seq<Statement>): O.Tables {
    if xs == [] then t else Exec(ExecAll(t, xs[..|xs| - 1]), xs[|xs| - 1])
  }

  function Key(k: RowKey): O.RowKey {
    O.RowKey(k.0, k.1)
  }

  function OwnRow(k: RowKey, r: Row): O.Row {
    O.Row(Key(k), true, r.status, r.deleted, r.body)
  }

  function GotRow(k: RowKey, body: Bytes): O.Row {
    O.Row(Key(k), false, Delivered, false, Some(body))
  }

  function PutOf(enc: Frame -> Bytes, k: RowKey, f: Frame, now: int): Statement {
    Put(Key(k), enc(f), now)
  }

  type Rows = map<RowKey, Row>

  /** What the tables hold under one key is what the maps hold; enc is how a frame is written. */
  predicate Held(ms: Rows, got: map<RowKey, Bytes>, box: map<RowKey, Frame>, t: O.Tables, enc: Frame -> Bytes,
                 k: RowKey)
  {
    var own := D.RowAt(t.messages, Key(k), true);
    var read := D.RowAt(t.messages, Key(k), false);
    var queued := D.ItemAt(t.outbox, Key(k));
    && (own.Some? <==> k in ms) && (read.Some? <==> k in got) && (queued.Some? <==> k in box)
    && (k in ms ==> own.value == OwnRow(k, ms[k]))
    && (k in got ==> read.value.deleted || read.value.body == Some(got[k]))
    && (k in box ==> queued.value.frame == enc(box[k]))
  }

  ghost predicate Match(ms: Rows, got: map<RowKey, Bytes>, box: map<RowKey, Frame>, t: O.Tables,
                        enc: Frame -> Bytes)
  {
    && D.UniqueRows(t.messages) && D.UniqueItems(t.outbox)
    && forall k: RowKey :: Held(ms, got, box, t, enc, k)
  }

  ghost predicate Same(s: Store, t: O.Tables, enc: Frame -> Bytes) {
    Match(s.messages, s.received, s.outbox, t, enc)
  }

  // ----- statements -----

  function Raised(ms: Rows, k: RowKey, status: Status): Rows {
    if k in ms && Rank(ms[k].status) < Rank(status) then ms[k := ms[k].(status := status)] else ms
  }

  lemma StatusItems(t: O.Tables, k: O.RowKey, status: Status)
    ensures O.MessageStatusUp(t, k, status).outbox == t.outbox
  {
  }

  lemma RaisedMatch(ms: Rows, got: map<RowKey, Bytes>, box: map<RowKey, Frame>, t: O.Tables, enc: Frame -> Bytes,
                    k: RowKey, status: Status)
    requires Match(ms, got, box, t, enc)
    ensures Match(Raised(ms, k, status), got, box, O.MessageStatusUp(t, Key(k), status), enc)
  {
    hide D.RowAt, D.ItemAt, D.UniqueRows, D.UniqueItems, O.MessageStatusUp;
    var t' := O.MessageStatusUp(t, Key(k), status);
    StatusItems(t, Key(k), status);
    D.StatusRow(t, Key(k), status, Key(k), true);
    forall x: RowKey
      ensures Held(Raised(ms, k, status), got, box, t', enc, x)
    {
      assert Held(ms, got, box, t, enc, x) && Held(ms, got, box, t, enc, k);
      D.StatusRow(t, Key(k), status, Key(x), true);
      D.StatusRow(t, Key(k), status, Key(x), false);
    }
  }

  /** The envelope of k leaves the queue. */
  lemma SettledMatch(ms: Rows, got: map<RowKey, Bytes>, box: map<RowKey, Frame>, t: O.Tables, enc: Frame -> Bytes,
                     k: RowKey)
    requires Match(ms, got, box, t, enc)
    ensures var (t', settled) := O.OutboxSettle(t, Key(k));
      Match(ms, got, box - {k}, t', enc) && (settled <==> k in box)
  {
    hide D.RowAt, D.ItemAt, D.UniqueRows, D.UniqueItems, O.OutboxSettle;
    var t' := O.OutboxSettle(t, Key(k)).0;
    SettleRows(t, Key(k));
    D.SettleItem(t, Key(k), Key(k));
    assert Held(ms, got, box, t, enc, k);
    forall x: RowKey
      ensures Held(ms, got, box - {k}, t', enc, x)
    {
      assert Held(ms, got, box, t, enc, x);
      D.SettleItem(t, Key(k), Key(x));
    }
  }

  lemma SettleRows(t: O.Tables, k: O.RowKey)
    ensures O.OutboxSettle(t, k).0.messages == t.messages
  {
  }

  function Wiped(ms: Rows, k: RowKey): Rows {
    if k in ms then ms[k := ms[k].(deleted := true, body := None)] else ms
  }

  lemma WipedMatch(ms: Rows, got: map<RowKey, Bytes>, box: map<RowKey, Frame>, t: O.Tables, enc: Frame -> Bytes,
                   k: RowKey)
    requires Match(ms, got, box, t, enc)
    ensures Match(Wiped(ms, k), got, box, O.DeleteMessageBody(t, Key(k)), enc)
  {
    hide D.RowAt, D.ItemAt, D.UniqueRows, D.UniqueItems, O.Erase;
    var t' := O.DeleteMessageBody(t, Key(k));
    D.EraseRow(t, Key(k), Key(k), true);
    forall x: RowKey
      ensures Held(Wiped(ms, k), got, box, t', enc, x)
    {
      assert Held(ms, got, box, t, enc, x) && Held(ms, got, box, t, enc, k);
      D.EraseRow(t, Key(k), Key(x), true);
      D.EraseRow(t, Key(k), Key(x), false);
    }
  }

  lemma PutMatch(ms: Rows, got: map<RowKey, Bytes>, box: map<RowKey, Frame>, t: O.Tables, enc: Frame -> Bytes,
                 k: RowKey, f: Frame, now: int)
    requires Match(ms, got, box, t, enc) && k !in box
    ensures Match(ms, got, box[k := f], Exec(t, PutOf(enc, k, f, now)), enc)
  {
    hide D.RowAt, D.ItemAt, D.UniqueRows, D.UniqueItems, NextId;
    var t', item := Exec(t, PutOf(enc, k, f, now)), O.Item(NextId(t.outbox), Key(k), enc(f), 0, now);
    assert Held(ms, got, box, t, enc, k);
    D.AppendItem(t.outbox, item, Key(k));
    var box' := box[k := f];
    forall x: RowKey
      ensures Held(ms, got, box', t', enc, x)
    {
      assert Held(ms, got, box, t, enc, x);
      D.AppendItem(t.outbox, item, Key(x));
    }
  }

  lemma OwnMatch(ms: Rows, got: map<RowKey, Bytes>, box: map<RowKey, Frame>, t: O.Tables, enc: Frame -> Bytes,
                 k: RowKey, r: Row)
    requires Match(ms, got, box, t, enc) && k !in ms
    ensures Match(ms[k := r], got, box, Exec(t, Insert(OwnRow(k, r))), enc)
  {
    hide D.RowAt, D.ItemAt, D.UniqueRows, D.UniqueItems;
    var t' := Exec(t, Insert(OwnRow(k, r)));
    D.InsertRow(t, OwnRow(k, r), Key(k), true);
    var ms' := ms[k := r];
    forall x: RowKey
      ensures Held(ms', got, box, t', enc, x)
    {
      assert Held(ms, got, box, t, enc, x) && Held(ms, got, box, t, enc, k);
      D.InsertRow(t, OwnRow(k, r), Key(x), true);
      D.InsertRow(t, OwnRow(k, r), Key(x), false);
    }
  }

  /** Inserting a row that is there already does nothing. */
  lemma GotMatch(ms: Rows, got: map<RowKey, Bytes>, box: map<RowKey, Frame>, t: O.Tables, enc: Frame -> Bytes,
                 k: RowKey, body: Bytes)
    requires Match(ms, got, box, t, enc)
    ensures Match(ms, if k in got then got else got[k := body], box, Exec(t, Insert(GotRow(k, body))), enc)
  {
    hide D.RowAt, D.ItemAt, D.UniqueRows, D.UniqueItems;
    var t' := Exec(t, Insert(GotRow(k, body)));
    D.InsertRow(t, GotRow(k, body), Key(k), true);
    var got' := if k in got then got else got[k := body];
    forall x: RowKey
      ensures Held(ms, got', box, t', enc, x)
    {
      assert Held(ms, got, box, t, enc, x) && Held(ms, got, box, t, enc, k);
      D.InsertRow(t, GotRow(k, body), Key(x), true);
      D.InsertRow(t, GotRow(k, body), Key(x), false);
    }
  }

  lemma {:induction false} ExecAppend(t: O.Tables, xs: seq<Statement>, ys: seq<Statement>)
    ensures ExecAll(t, xs + ys) == ExecAll(ExecAll(t, xs), ys)
  {
    if ys == [] {
      assert xs + ys == xs;
    } else {
      ExecAppend(t, xs, ys[..|ys| - 1]);
      assert (xs + ys)[..|xs + ys| - 1] == xs + ys[..|ys| - 1];
    }
  }

  lemma ExecOne(t: O.Tables, x: Statement)
    ensures ExecAll(t, [x]) == Exec(t, x) && ExecAll(t, []) == t
  {
    assert [x][..0] == [];
  }

  // ----- what each handler writes, in its order -----

  function Begin(me: Identity, s: Store, to: PeerId, d: Draw, enc: Frame -> Bytes): seq<Statement> {
    if to in s.handshakes then []
    else [PutOf(enc, (to, d.serviceMid), InitFrame(InitOf(Handshake(me.ik, d.eph, d.sid))), d.now)]
  }

  /** The envelopes of the texts ks that still exist, one after the other, and the session after them. */
  function Puts(ms: Rows, st: StateV, ks: seq<RowKey>, now: int, enc: Frame -> Bytes): (seq<Statement>, StateV) {
    if ks == [] then ([], st)
    else
      var (xs, st1) := Puts(ms, st, ks[..|ks| - 1], now, enc);
      var k := ks[|ks| - 1];
      if k !in ms || ms[k].deleted || ms[k].body.None? then (xs, st1)
      else
        match EncryptV(st1, ms[k].body.value)
        case Err(_) => (xs, st1)
        case Ok((m, st2)) => (xs + [PutOf(enc, k, ChatFrame(ms[k].seqNo, ms[k].lamport, m), now)], st2)
  }

  function Drains(s: Store, p: PeerId, st: StateV, now: int, enc: Frame -> Bytes): seq<Statement> {
    if st.hasCKs then Puts(s.messages, st, Pending.Take(s.pending, p), now, enc).0 else []
  }

  function SendWrites(me: Identity, s: Store, to: PeerId, text: Bytes, d: Draw, enc: Frame -> Bytes): seq<Statement> {
    var k, row := (to, d.mid), ChatOrder.NewRow(s, to, text);
    [Insert(OwnRow(k, row))]
    + if ChatOrder.MustWait(s, to) then Begin(me, s, to, d, enc)
      else [PutOf(enc, k, ChatFrame(row.seqNo, row.lamport, EncryptV(s.sessions[to], text).value.0), d.now)]
  }

  /** keep: what the handler inserts for the plaintext. */
  function ReadWrites(me: Identity, s: Store, from: PeerId, m: Option<Message>, d: Draw,
                      keep: Bytes -> seq<Statement>, enc: Frame -> Bytes): seq<Statement>
    requires forall p :: p in s.sessions ==> WellFormed(s.sessions[p])
  {
    if m.None? then []
    else if from !in s.sessions then Begin(me, s, from, d, enc)
    else
      match DecryptV(s.sessions[from], d.ratchetKey, m.value)
      case Err(_) => Begin(me, s, from, d, enc)
      case Ok((plain, st)) => keep(plain) + Drains(s, from, st, d.now, enc)
  }

  /** The statements of an event on history and outbox; of a transaction that fails none remain. */
  function StatementsOf(me: Identity, s: Store, e: Event, enc: Frame -> Bytes): seq<Statement>
    requires forall p :: p in s.sessions ==> WellFormed(s.sessions[p])
  {
    if Attempt(me, s, e).Err? then []
    else
      match e
      case SendsText(_, to, text, d) => SendWrites(me, s, to, text, d, enc)
      case SendsSealed(_, to, kind, plain, d) =>
        if ChatOrder.MustWait(s, to) then Begin(me, s, to, d, enc)
        else [PutOf(enc, (to, d.mid), SealedFrame(kind, EncryptV(s.sessions[to], plain).value.0), d.now)]
      case GetsChat(from, mid, _, m, d) =>
        ReadWrites(me, s, from, m, d, plain => [Insert(GotRow((from, mid), plain))], enc)
      case GetsSealed(from, _, m, d) => ReadWrites(me, s, from, m, d, _ => [], enc)
      case GetsInit(from, init, d) =>
        if init.None? || (from in s.handshakes && SessionAgreement.Less(me.id, from)) then []
        else
          (match AcceptHandshake(me.ik, d.eph, init.value, from, me.id)
           case Err(_) => []
           case Ok((_, ack)) => [PutOf(enc, (from, d.serviceMid), AckFrame(ack), d.now)])
      case GetsInitAck(from, ack, d) =>
        if ack.None? || from !in s.handshakes then []
        else
          (match Finish(s.handshakes[from], d.ratchetKey, ack.value, me.id, from)
           case Err(_) => []
           case Ok(st) => Drains(s, from, st, d.now, enc))
      case Deletes(k) => [Wipe(Key(k))]
      case GetsAck(k) => [Acked(Key(k))]
      case Flushes(k) => [Up(Key(k), Sent)]
  }

  // ----- they do to the tables what the event does to the store -----

  /** An ack at the chat is the ack of the tables, an erasure the erasure, a flush the rise to Sent. */
  lemma OneStatement(s: Store, t: O.Tables, enc: Frame -> Bytes, k: RowKey)
    requires Same(s, t, enc)
    ensures Same(Settle(s, k), O.HandleAck(t, Key(k)), enc)
    ensures Same(Delete(s, k), O.DeleteMessageBody(t, Key(k)), enc)
    ensures Same(WentOut(s, k), O.MessageStatusUp(t, Key(k), Sent), enc)
  {
    hide Match, O.MessageStatusUp, O.DeleteMessageBody, O.OutboxSettle;
    RaisedMatch(s.messages, s.received, s.outbox, t, enc, k, Sent);
    WipedMatch(s.messages, s.received, s.outbox, t, enc, k);
    SettledMatch(s.messages, s.received, s.outbox, t, enc, k);
    RaisedMatch(s.messages, s.received, s.outbox - {k}, O.OutboxSettle(t, Key(k)).0, enc, k, Delivered);
  }

  /** One envelope more. */
  lemma PutSame(s: Store, t: O.Tables, enc: Frame -> Bytes, k: RowKey, f: Frame, now: int)
    requires Same(s, t, enc) && k !in s.outbox
    ensures Enqueue(s, k, f).Ok? && Enqueue(s, k, f).value == s.(outbox := s.outbox[k := f])
    ensures Same(Enqueue(s, k, f).value, ExecAll(t, [PutOf(enc, k, f, now)]), enc)
  {
    hide Match;
    PutMatch(s.messages, s.received, s.outbox, t, enc, k, f, now);
    ExecOne(t, PutOf(enc, k, f, now));
  }

  lemma BeginSame(me: Identity, s: Store, to: PeerId, d: Draw, t: O.Tables, enc: Frame -> Bytes)
    requires Same(s, t, enc) && (to, d.serviceMid) !in s.outbox
    ensures EnsureHandshake(me, s, to, d).Ok?
    ensures Same(EnsureHandshake(me, s, to, d).value, ExecAll(t, Begin(me, s, to, d, enc)), enc)
  {
    hide Match, Exec;
    if to !in s.handshakes {
      var h := Handshake(me.ik, d.eph, d.sid);
      PutSame(s.(handshakes := s.handshakes[to := h]), t, enc, (to, d.serviceMid), InitFrame(InitOf(h)), d.now);
    }
  }

  lemma {:induction false} DrainSame(s: Store, st: StateV, ks: seq<RowKey>, now: int, t: O.Tables, enc: Frame -> Bytes)
    requires st.hasCKs && WellFormed(st) && NoDup(ks) && forall k :: k in ks ==> k !in s.outbox
    requires Same(s, t, enc)
    ensures var r, (xs, st') := DrainList(s, st, ks), Puts(s.messages, st, ks, now, enc);
      r.Ok? && r.value.1 == st' && r.value.0 == s.(outbox := r.value.0.outbox) && Same(r.value.0, ExecAll(t, xs), enc)
  {
    DrainEffect(s, st, ks);
    if ks != [] {
      var init, k := ks[..|ks| - 1], ks[|ks| - 1];
      NoDupSnoc(init, k);
      assert ks == init + [k];
      DrainSame(s, st, init, now, t, enc);
      DrainEffect(s, st, init);
      var (s1, st1) := DrainList(s, st, init).value;
      var xs := Puts(s.messages, st, init, now, enc).0;
      assert Drained(s, s1, init, k);
      hide Match, Exec, NoDup, WellFormed;
      if Sendable(s1, k) {
        var row := s1.messages[k];
        var f := ChatFrame(row.seqNo, row.lamport, EncryptV(st1, row.body.value).value.0);
        PutSame(s1, ExecAll(t, xs), enc, k, f, now);
        ExecAppend(t, xs, [PutOf(enc, k, f, now)]);
      }
    }
  }

  lemma DrainAndSaveSame(s: Store, p: PeerId, st: StateV, now: int, t: O.Tables, enc: Frame -> Bytes)
    requires Inv(s) && WellFormed(st) && Same(s, t, enc)
    ensures DrainAndSave(s, p, st).Ok?
    ensures Same(DrainAndSave(s, p, st).value, ExecAll(t, Drains(s, p, st, now, enc)), enc)
  {
    hide Match, Reloaded, DrainList, Exec, WellFormed;
    if st.hasCKs {
      var ks := Pending.Take(s.pending, p);
      Pending.TakeMeaning(s.pending, p);
      forall k | k in ks
        ensures k !in s.outbox
      {
        assert KeyOk(s, k);
      }
      DrainSame(s.(pending := Pending.Except(s.pending, p)), st, ks, now, t, enc);
    }
  }

  lemma SendSame(me: Identity, s: Store, to: PeerId, text: Bytes, d: Draw, t: O.Tables, enc: Frame -> Bytes)
    requires Inv(s) && FreshDraw(s, to, d) && Same(s, t, enc) && SendText(me, s, true, to, text, d).Ok?
    ensures Same(SendText(me, s, true, to, text, d).value, ExecAll(t, SendWrites(me, s, to, text, d, enc)), enc)
  {
    hide Match, Exec, KeyOk, Reloaded, InitOf, NoDup;
    var k, row := (to, d.mid), ChatOrder.NewRow(s, to, text);
    var insert := Insert(OwnRow(k, row));
    var s1 := s.(seqNos := s.seqNos[to := row.seqNo], lamport := row.lamport, messages := s.messages[k := row]);
    OwnMatch(s.messages, s.received, s.outbox, t, enc, k, row);
    ExecOne(t, insert);
    if ChatOrder.MustWait(s, to) {
      BeginSame(me, s1.(pending := Pending.Add(s1.pending, k, d.now)), to, d, Exec(t, insert), enc);
      ExecAppend(t, [insert], Begin(me, s, to, d, enc));
    } else {
      var f := ChatFrame(row.seqNo, row.lamport, EncryptV(s.sessions[to], text).value.0);
      PutSame(s1, Exec(t, insert), enc, k, f, d.now);
      ExecAppend(t, [insert], [PutOf(enc, k, f, d.now)]);
    }
  }

  lemma SealedSame(me: Identity, s: Store, to: PeerId, kind: nat, plain: Bytes, d: Draw, t: O.Tables,
                   enc: Frame -> Bytes)
    requires FreshDraw(s, to, d) && Same(s, t, enc)
    requires Inv(s) && SendSealed(me, s, true, to, kind, plain, d).Ok?
    ensures Same(SendSealed(me, s, true, to, kind, plain, d).value,
                 ExecAll(t, StatementsOf(me, s, SendsSealed(true, to, kind, plain, d), enc)), enc)
  {
    hide Match, Exec, KeyOk, Reloaded, InitOf, NoDup;
    if ChatOrder.MustWait(s, to) {
      BeginSame(me, s, to, d, t, enc);
    } else {
      PutSame(s, t, enc, (to, d.mid), SealedFrame(kind, EncryptV(s.sessions[to], plain).value.0), d.now);
    }
  }

  lemma ReadSame(me: Identity, s: Store, e: Event, t: O.Tables, enc: Frame -> Bytes)
    requires Inv(s) && FreshEvent(s, e) && Same(s, t, enc) && (e.GetsChat? || e.GetsSealed?) && Attempt(me, s, e).Ok?
    ensures Same(Attempt(me, s, e).value, ExecAll(t, StatementsOf(me, s, e, enc)), enc)
  {
    hide Match, ExecAll, KeyOk, DecryptV, DrainAndSave, EnsureHandshake, Drains, Begin;
    var d := e.d;
    ExecNone(t);
    if e.chat.Some? {
      if e.from !in s.sessions || DecryptV(s.sessions[e.from], d.ratchetKey, e.chat.value).Err? {
        BeginSame(me, s, e.from, d, t, enc);
      } else {
        var (plain, st) := DecryptV(s.sessions[e.from], d.ratchetKey, e.chat.value).value;
        DecryptKeeps(s.sessions[e.from], d.ratchetKey, e.chat.value);
        if e.GetsChat? {
          TextSame(s, e.from, e.mid, e.stamp, plain, st, d.now, t, enc);
        } else {
          DrainAndSaveSame(s, e.from, st, d.now, t, enc);
          assert [] + Drains(s, e.from, st, d.now, enc) == Drains(s, e.from, st, d.now, enc);
        }
      }
    }
  }

  lemma TextSame(s: Store, from: PeerId, mid: MsgId, stamp: nat, plain: Bytes, st: StateV, now: int, t: O.Tables,
                 enc: Frame -> Bytes)
    requires Inv(s) && WellFormed(st) && Same(s, t, enc)
    ensures var k := (from, mid);
      var s1 := s.(lamport := Lamport.Observed(s.lamport, stamp),
                   received := if k in s.received then s.received else s.received[k := plain]);
      && DrainAndSave(s1, from, st).Ok?
      && Same(DrainAndSave(s1, from, st).value,
              ExecAll(t, [Insert(GotRow(k, plain))] + Drains(s, from, st, now, enc)), enc)
  {
    hide Match, Exec, ExecAll, KeyOk, DrainAndSave, Drains, WellFormed;
    var k := (from, mid);
    var insert := Insert(GotRow(k, plain));
    var s1 := s.(lamport := Lamport.Observed(s.lamport, stamp),
                 received := if k in s.received then s.received else s.received[k := plain]);
    ChatOrder.SameQueues(s, s1);
    GotMatch(s.messages, s.received, s.outbox, t, enc, k, plain);
    ExecOne(t, insert);
    DrainAndSaveSame(s1, from, st, now, Exec(t, insert), enc);
    SameDrains(s, s1, from, st, now, enc);
    ExecAppend(t, [insert], Drains(s, from, st, now, enc));
  }

  lemma SameDrains(s: Store, s1: Store, p: PeerId, st: StateV, now: int, enc: Frame -> Bytes)
    requires s1.messages == s.messages && s1.pending == s.pending
    ensures Drains(s1, p, st, now, enc) == Drains(s, p, st, now, enc)
  {
  }

  lemma InitSame(me: Identity, s: Store, from: PeerId, init: Option<Init>, d: Draw, t: O.Tables, enc: Frame -> Bytes)
    requires Same(s, t, enc) && (from, d.serviceMid) !in s.outbox
    requires forall p :: p in s.sessions ==> WellFormed(s.sessions[p])
    ensures var r, xs := OnSessionInit(me, s, from, init, d), StatementsOf(me, s, GetsInit(from, init, d), enc);
      r.Ok? && Same(r.value, ExecAll(t, xs), enc)
  {
    hide Match, ExecAll, AcceptHandshake, Reloaded, SessionAgreement.Less;
    ExecNone(t);
    if init.Some? && !(from in s.handshakes && SessionAgreement.Less(me.id, from)) {
      var r := AcceptHandshake(me.ik, d.eph, init.value, from, me.id);
      if r.Ok? {
        PutSame(s.(handshakes := s.handshakes - {from}), t, enc, (from, d.serviceMid), AckFrame(r.value.1), d.now);
      }
    }
  }

  lemma AckSame(me: Identity, s: Store, from: PeerId, ack: Option<InitAck>, d: Draw, t: O.Tables, enc: Frame -> Bytes)
    requires Inv(s) && Same(s, t, enc)
    ensures var r, xs := OnSessionInitAck(me, s, from, ack, d), StatementsOf(me, s, GetsInitAck(from, ack, d), enc);
      r.Ok? && Same(r.value, ExecAll(t, xs), enc)
  {
    hide Match, ExecAll, KeyOk, DrainAndSave, Finish, Drains;
    ExecNone(t);
    if ack.Some? && from in s.handshakes && Finish(s.handshakes[from], d.ratchetKey, ack.value, me.id, from).Ok? {
      var s1, st := s.(handshakes := s.handshakes - {from}),
                    Finish(s.handshakes[from], d.ratchetKey, ack.value, me.id, from).value;
      ChatOrder.SameQueues(s, s1);
      BegunFormed(s.handshakes[from], d.ratchetKey, ack.value, me.id, from);
      DrainAndSaveSame(s1, from, st, d.now, t, enc);
      SameDrains(s, s1, from, st, d.now, enc);
    }
  }

  lemma BegunFormed(h: Handshake, drawn: Priv, ack: InitAck, self: PeerId, peer: PeerId)
    ensures var r := Finish(h, drawn, ack, self, peer); r.Ok? ==> WellFormed(r.value)
  {
  }

  /**
   Every event of the chat does to history and outbox what its statements do to the tables, on any
   tables that hold the same before.
   */
  lemma EventOnTables(me: Identity, s: Store, e: Event, t: O.Tables, enc: Frame -> Bytes)
    requires Inv(s) && FreshEvent(s, e) && Same(s, t, enc)
    ensures Same(Step(me, s, e), ExecAll(t, StatementsOf(me, s, e, enc)), enc)
  {
    hide KeyOk, Same, Exec, SendText, SendSealed, OnChat, OnSealed, OnSessionInit, OnSessionInitAck;
    hide Settle, Delete, WentOut, SendWrites, ReadWrites;
    assert ExecAll(t, []) == t;
    if Attempt(me, s, e).Ok? {
      match e
      case SendsText(canSend, to, text, d) =>
        SendTextKeeps(me, s, canSend, to, text, d);
        SendSame(me, s, to, text, d, t, enc);
      case SendsSealed(canSend, to, kind, plain, d) =>
        SealedOnly(me, s, canSend, to, kind, plain, d);
        SealedSame(me, s, to, kind, plain, d, t, enc);
      case GetsChat(_, _, _, _, _) => ReadSame(me, s, e, t, enc);
      case GetsSealed(_, _, _, _) => ReadSame(me, s, e, t, enc);
      case GetsInit(from, init, d) => InitSame(me, s, from, init, d, t, enc);
      case GetsInitAck(from, ack, d) => AckSame(me, s, from, ack, d, t, enc);
      case _ => LocalSame(me, s, e, t, enc);
    }
  }

  lemma LocalSame(me: Identity, s: Store, e: Event, t: O.Tables, enc: Frame -> Bytes)
    requires Inv(s) && Same(s, t, enc) && (e.Deletes? || e.GetsAck? || e.Flushes?)
    ensures Same(Step(me, s, e), ExecAll(t, StatementsOf(me, s, e, enc)), enc)
  {
    hide Same, ExecAll, Settle, Delete, WentOut;
    OneStatement(s, t, enc, e.k);
    ExecOne(t, Wipe(Key(e.k)));
    ExecOne(t, Acked(Key(e.k)));
    ExecOne(t, Up(Key(e.k), Sent));
    hide O.HandleAck, O.DeleteMessageBody, O.MessageStatusUp;
  }

  lemma SealedOnly(me: Identity, s: Store, canSend: bool, to: PeerId, kind: nat, plain: Bytes, d: Draw)
    requires SendSealed(me, s, canSend, to, kind, plain, d).Ok?
    ensures canSend
  {
  }

  // ----- runs -----

  const NO_ROWS := O.Tables([], [], map[])

  /** The statements of a run, event after event. */
  ghost function RunStatements(me: Identity, s: Store, es: seq<Event>, s': Store, enc: Frame -> Bytes): seq<Statement>
    requires (forall p :: p in s.sessions ==> WellFormed(s.sessions[p])) && Reaches(me, s, es, s')
    decreases |es|
  {
    if es == [] then []
    else StatementsOf(me, s, es[0], enc) + RunStatements(me, Step(me, s, es[0]), es[1..], s', enc)
  }

  lemma {:induction false} RunOnTables(me: Identity, s: Store, es: seq<Event>, s': Store, t: O.Tables,
                                       enc: Frame -> Bytes)
    requires Inv(s) && Reaches(me, s, es, s') && Same(s, t, enc)
    ensures Same(s', ExecAll(t, RunStatements(me, s, es, s', enc)), enc)
    decreases |es|
  {
    hide Same, ExecAll, Attempt, StatementsOf;
    if es == [] {
      ExecNone(t);
    } else {
      var xs, next := StatementsOf(me, s, es[0], enc), Step(me, s, es[0]);
      StepKeeps(me, s, es[0]);
      EventOnTables(me, s, es[0], t, enc);
      RunOnTables(me, next, es[1..], s', ExecAll(t, xs), enc);
      ExecAppend(t, xs, RunStatements(me, next, es[1..], s', enc));
    }
  }

  lemma ExecNone(t: O.Tables)
    ensures ExecAll(t, []) == t
  {
  }

  /**
   Conservation in the tables: the statements of any run of the chat lead to tables that hold its
   rows and envelopes, and in them every text that is neither deleted nor delivered either waits
   for a session or has its own envelope queued, a delivered one neither.
   */
  lemma TablesConserve(me: Identity, es: seq<Event>, s: Store, enc: Frame -> Bytes)
    requires Reaches(me, EMPTY, es, s)
    ensures var t := ExecAll(NO_ROWS, RunStatements(me, EMPTY, es, s, enc));
      && Same(s, t, enc)
      && forall k :: k in s.messages ==>
           var row, queued := D.RowAt(t.messages, Key(k), true), D.ItemAt(t.outbox, Key(k));
           && row == Some(OwnRow(k, s.messages[k]))
           && (row.value.status == Delivered ==> k !in s.pending && queued.None?)
           && (row.value.status != Delivered && !row.value.deleted ==>
                 && (k in s.pending) != queued.Some?
                 && (queued.Some? ==>
                       exists f :: ChatInvariant.Carries(f, s.messages[k]) && queued.value.frame == enc(f)))
  {
    assert forall x :: KeyOk(EMPTY, x);
    assert Same(EMPTY, NO_ROWS, enc);
    ReachesKeeps(me, EMPTY, es, s);
    RunOnTables(me, EMPTY, es, s, NO_ROWS, enc);
    var t := ExecAll(NO_ROWS, RunStatements(me, EMPTY, es, s, enc));
    hide ExecAll, RunStatements, D.RowAt, D.ItemAt, D.UniqueRows, D.UniqueItems;
    forall k | k in s.messages
      ensures Held(s.messages, s.received, s.outbox, t, enc, k) && KeyOk(s, k)
    {
    }
  }
}
