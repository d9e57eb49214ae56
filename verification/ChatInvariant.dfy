/** No text is lost or doubled between the pending queue, the outbox and delivery. */
module ChatInvariant {
  import opened Prelude
  import opened RatchetCrypto
  import opened Ratchet
  import opened RatchetHandshake
  import opened Chat
  import Lamport
  import Pending

  /** A queued envelope carries its row's numbers and, unless deleted since, its text. */
  predicate Carries(f: Frame, row: Row) {
    && f.ChatFrame? && f.seqNo == row.seqNo && f.lamport == row.lamport && f.m.ct.Sealed?
    && (row.deleted || row.body == Some(f.m.ct.plain))
  }

  /** A text that is neither deleted nor delivered is in exactly one of the two queues. */
  predicate InOneQueue(s: Store, k: RowKey) {
    k in s.messages && !s.messages[k].deleted && s.messages[k].status != Delivered ==>
      (k in s.pending) != (k in s.outbox)
  }

  predicate KeyOk(s: Store, k: RowKey) {
    && InOneQueue(s, k)
    && (k in s.pending ==> k in s.messages && k !in s.outbox)
    && (k in s.outbox ==> (s.outbox[k].ChatFrame? <==> k in s.messages))
    && (k in s.messages ==>
         && (s.messages[k].deleted <==> s.messages[k].body.None?)
         && (s.messages[k].status == Delivered ==> k !in s.pending && k !in s.outbox)
         && (k in s.outbox ==> Carries(s.outbox[k], s.messages[k])))
  }

  ghost predicate Inv(s: Store) {
    && (forall p :: p in s.sessions ==> WellFormed(s.sessions[p]))
    && (forall k: RowKey :: KeyOk(s, k))
  }

  /** Freshly drawn message ids do not repeat stored ones. */
  predicate Unused(s: Store, k: RowKey) {
    k !in s.messages && k !in s.outbox && k !in s.pending
  }

  predicate FreshDraw(s: Store, p: PeerId, d: Draw) {
    Unused(s, (p, d.mid)) && Unused(s, (p, d.serviceMid)) && d.mid != d.serviceMid
  }

  // ----- draining -----

  /** What draining ks does to the outbox entry of k. */
  predicate Drained(s: Store, s': Store, ks: seq<RowKey>, k: RowKey) {
    if k in ks && Sendable(s, k) then
      k in s'.outbox && Carries(s'.outbox[k], s.messages[k])
    else
      (k in s'.outbox <==> k in s.outbox) && (k in s.outbox ==> s'.outbox[k] == s.outbox[k])
  }

  /** The last text of the list, after the others. */
  lemma DrainOne(s: Store, s1: Store, st1: StateV, init: seq<RowKey>, k: RowKey)
    requires st1.hasCKs && WellFormed(st1) && k !in s1.outbox && s1 == s.(outbox := s1.outbox)
    requires forall x :: Drained(s, s1, init, x)
    ensures Sendable(s1, k) ==>
              var r := EncryptEnqueue(s1, st1, k, s1.messages[k], s1.messages[k].body.value);
              && r.Ok? && r.value.0 == s.(outbox := r.value.0.outbox)
              && WellFormed(r.value.1) && r.value.1.hasCKs && r.value.1.ad == st1.ad
              && forall x :: Drained(s, r.value.0, init + [k], x)
    ensures !Sendable(s1, k) ==> forall x :: Drained(s, s1, init + [k], x)
  {
    forall x
      ensures x in init + [k] <==> x in init || x == k
    {
    }
    if Sendable(s1, k) {
      var s' := EncryptEnqueue(s1, st1, k, s1.messages[k], s1.messages[k].body.value).value.0;
      forall x
        ensures Drained(s, s', init + [k], x)
      {
        assert Drained(s, s1, init, x);
      }
    } else {
      forall x
        ensures Drained(s, s1, init + [k], x)
      {
        assert Drained(s, s1, init, x);
      }
    }
  }

  /** Every waiting text that still exists goes out once; nothing else changes. */
  lemma {:induction false} DrainEffect(s: Store, st: StateV, ks: seq<RowKey>)
    requires st.hasCKs && WellFormed(st) && NoDup(ks) && forall k :: k in ks ==> k !in s.outbox
    ensures var r := DrainList(s, st, ks);
      && r.Ok? && r.value.0 == s.(outbox := r.value.0.outbox)
      && WellFormed(r.value.1) && r.value.1.hasCKs && r.value.1.ad == st.ad
      && forall k :: Drained(s, r.value.0, ks, k)
  {
    if ks != [] {
      var init, last := ks[..|ks| - 1], ks[|ks| - 1];
      forall i, j
        ensures Apart(init, i, j)
      {
        assert Apart(ks, i, j);
      }
      forall i | 0 <= i < |init|
        ensures init[i] != last
      {
        assert Apart(ks, i, |ks| - 1);
      }
      assert last !in init;
      DrainEffect(s, st, init);
      var (s1, st1) := DrainList(s, st, init).value;
      assert Drained(s, s1, init, last);
      assert ks == init + [last];
      DrainOne(s, s1, st1, init, last);
      hide EncryptEnqueue, Drained, NoDup;
    }
  }

  lemma DrainKeeps(s: Store, to: PeerId, st: StateV)
    requires Inv(s) && WellFormed(st)
    ensures DrainAndSave(s, to, st).Ok? && Inv(DrainAndSave(s, to, st).value)
  {
    if st.hasCKs {
      Pending.TakeMeaning(s.pending, to);
      var ks := Pending.Take(s.pending, to);
      var s0 := s.(pending := Pending.Except(s.pending, to));
      forall k | k in ks
        ensures k !in s0.outbox
      {
        assert KeyOk(s, k);
      }
      DrainEffect(s0, st, ks);
      var (s1, st1) := DrainList(s0, st, ks).value;
      var s' := SaveSession(s1, to, st1);
      forall k: RowKey
        ensures KeyOk(s', k)
      {
        assert KeyOk(s, k) && Drained(s0, s1, ks, k);
      }
    } else {
      var s' := SaveSession(s, to, st);
      forall k: RowKey
        ensures KeyOk(s', k)
      {
        assert KeyOk(s, k);
      }
    }
  }

  // ----- the handlers -----

  lemma HandshakeKeeps(me: Identity, s: Store, to: PeerId, d: Draw)
    requires Inv(s) && Unused(s, (to, d.serviceMid))
    ensures EnsureHandshake(me, s, to, d).Ok? && Inv(EnsureHandshake(me, s, to, d).value)
  {
    var s' := EnsureHandshake(me, s, to, d).value;
    forall k: RowKey
      ensures KeyOk(s', k)
    {
      assert KeyOk(s, k);
    }
  }

  /** A new row and its place in the pending queue. */
  lemma PendingAddKeeps(s: Store, k: RowKey, row: Row, now: int, s': Store)
    requires Inv(s) && Unused(s, k) && row.body.Some? && !row.deleted && row.status == Queued
    requires s'.messages == s.messages[k := row] && s'.pending == Pending.Add(s.pending, k, now)
    requires s'.outbox == s.outbox && s'.sessions == s.sessions
    ensures Inv(s')
  {
    forall x: RowKey
      ensures KeyOk(s', x)
    {
      assert KeyOk(s, x);
    }
  }

  /** The new text's row exists, keeps the text, and waits in exactly one queue. */
  predicate Accepted(s: Store, k: RowKey, text: Bytes) {
    k in s.messages && s.messages[k].body == Some(text) && (k in s.pending) != (k in s.outbox)
  }

  lemma SendWaiting(me: Identity, s: Store, to: PeerId, text: Bytes, d: Draw)
    requires Inv(s) && FreshDraw(s, to, d) && text != [] && |text| <= MAX_TEXT_LEN
    requires to !in s.sessions || !s.sessions[to].hasCKs
    ensures var r := SendText(me, s, true, to, text, d);
      r.Ok? && Inv(r.value) && Accepted(r.value, (to, d.mid), text)
  {
    var k := (to, d.mid);
    var seqNo := (if to in s.seqNos then s.seqNos[to] else 0) + 1;
    var row := Row(Some(text), Queued, false, seqNo, s.lamport + 1);
    var s1 := s.(seqNos := s.seqNos[to := seqNo], lamport := s.lamport + 1,
                 messages := s.messages[k := row], pending := Pending.Add(s.pending, k, d.now));
    PendingAddKeeps(s, k, row, d.now, s1);
    HandshakeKeeps(me, s1, to, d);
    assert k in s1.pending;
    assert KeyOk(EnsureHandshake(me, s1, to, d).value, k);
  }

  lemma SendNow(me: Identity, s: Store, to: PeerId, text: Bytes, d: Draw)
    requires Inv(s) && FreshDraw(s, to, d) && text != [] && |text| <= MAX_TEXT_LEN
    requires to in s.sessions && s.sessions[to].hasCKs
    ensures var r := SendText(me, s, true, to, text, d);
      r.Ok? && Inv(r.value) && Accepted(r.value, (to, d.mid), text)
  {
    var s' := SendText(me, s, true, to, text, d).value;
    forall x: RowKey
      ensures KeyOk(s', x)
    {
      assert KeyOk(s, x);
    }
  }

  lemma SendTextKeeps(me: Identity, s: Store, canSend: bool, to: PeerId, text: Bytes, d: Draw)
    requires Inv(s) && FreshDraw(s, to, d)
    ensures var r := SendText(me, s, canSend, to, text, d);
      && (r.Ok? <==> canSend && text != [] && |text| <= MAX_TEXT_LEN)
      && (r.Ok? ==> Inv(r.value) && Accepted(r.value, (to, d.mid), text))
  {
    if canSend && text != [] && |text| <= MAX_TEXT_LEN {
      if to !in s.sessions || !s.sessions[to].hasCKs {
        SendWaiting(me, s, to, text, d);
      } else {
        SendNow(me, s, to, text, d);
      }
    }
  }

  lemma SendSealedKeeps(me: Identity, s: Store, canSend: bool, to: PeerId, kind: nat, plain: Bytes, d: Draw)
    requires Inv(s) && FreshDraw(s, to, d)
    ensures var r := SendSealed(me, s, canSend, to, kind, plain, d); r.Ok? ==> Inv(r.value)
  {
    if canSend {
      if to !in s.sessions || !s.sessions[to].hasCKs {
        HandshakeKeeps(me, s, to, d);
      } else {
        var s' := SendSealed(me, s, canSend, to, kind, plain, d).value;
        forall x: RowKey
          ensures KeyOk(s', x)
        {
          assert KeyOk(s, x);
        }
      }
    }
  }

  lemma DeleteKeeps(s: Store, k: RowKey)
    requires Inv(s)
    ensures Inv(Delete(s, k))
  {
    forall x: RowKey
      ensures KeyOk(Delete(s, k), x)
    {
      assert KeyOk(s, x);
    }
  }

  lemma OnChatKeeps(me: Identity, s: Store, from: PeerId, mid: MsgId, stamp: nat, payload: Option<Message>, d: Draw)
    requires Inv(s) && FreshDraw(s, from, d)
    ensures OnChat(me, s, from, mid, stamp, payload, d).Ok?
    ensures Inv(OnChat(me, s, from, mid, stamp, payload, d).value)
  {
    if payload.Some? {
      if from !in s.sessions || DecryptV(s.sessions[from], d.ratchetKey, payload.value).Err? {
        HandshakeKeeps(me, s, from, d);
      } else {
        var (plain, st) := DecryptV(s.sessions[from], d.ratchetKey, payload.value).value;
        DecryptKeeps(s.sessions[from], d.ratchetKey, payload.value);
        var k := (from, mid);
        var s1 := s.(lamport := Lamport.Observed(s.lamport, stamp),
                     received := if k in s.received then s.received else s.received[k := plain]);
        forall x: RowKey
          ensures KeyOk(s1, x)
        {
          assert KeyOk(s, x);
        }
        DrainKeeps(s1, from, st);
      }
    }
  }

  lemma OnSealedKeeps(me: Identity, s: Store, from: PeerId, handled: bool, payload: Option<Message>, d: Draw)
    requires Inv(s) && FreshDraw(s, from, d)
    ensures var r := OnSealed(me, s, from, handled, payload, d); r.Ok? ==> Inv(r.value)
  {
    if payload.Some? {
      if from !in s.sessions || DecryptV(s.sessions[from], d.ratchetKey, payload.value).Err? {
        HandshakeKeeps(me, s, from, d);
      } else if handled {
        DecryptKeeps(s.sessions[from], d.ratchetKey, payload.value);
        DrainKeeps(s, from, DecryptV(s.sessions[from], d.ratchetKey, payload.value).value.1);
      }
    }
  }

  lemma OnSessionInitKeeps(me: Identity, s: Store, from: PeerId, payload: Option<Init>, d: Draw)
    requires Inv(s) && FreshDraw(s, from, d)
    ensures OnSessionInit(me, s, from, payload, d).Ok?
    ensures Inv(OnSessionInit(me, s, from, payload, d).value)
  {
    hide AcceptHandshake, Reloaded, KeyOk;
    var s' := OnSessionInit(me, s, from, payload, d).value;
    if s' != s {
      var (st, ack) := AcceptHandshake(me.ik, d.eph, payload.value, from, me.id).value;
      NewbornSame(me.ik, d.eph, payload.value, from, me.id);
      NewbornFormed(me.ik, d.eph, payload.value, from, me.id);
      InitAnswered(s, s', (from, d.serviceMid), ack);
    }
  }

  lemma NewbornFormed(ik: Priv, drawn: Priv, init: Init, initiator: PeerId, self: PeerId)
    ensures var r := AcceptHandshake(ik, drawn, init, initiator, self); r.Ok? ==> WellFormed(r.value.0)
  {
  }

  lemma InitAnswered(s: Store, s': Store, k: RowKey, ack: InitAck)
    requires Inv(s) && Unused(s, k) && s'.outbox == s.outbox[k := AckFrame(ack)]
    requires s'.messages == s.messages && s'.pending == s.pending
    requires forall p :: p in s'.sessions ==> WellFormed(s'.sessions[p])
    ensures Inv(s')
  {
    forall x: RowKey
      ensures KeyOk(s', x)
    {
      assert KeyOk(s, x);
    }
  }

  lemma OnSessionInitAckKeeps(me: Identity, s: Store, from: PeerId, payload: Option<InitAck>, d: Draw)
    requires Inv(s) && FreshDraw(s, from, d)
    ensures OnSessionInitAck(me, s, from, payload, d).Ok?
    ensures Inv(OnSessionInitAck(me, s, from, payload, d).value)
  {
    if payload.Some? && from in s.handshakes {
      var f := Finish(s.handshakes[from], d.ratchetKey, payload.value, me.id, from);
      if f.Ok? {
        var s1 := s.(handshakes := s.handshakes - {from});
        forall x: RowKey
          ensures KeyOk(s1, x)
        {
          assert KeyOk(s, x);
        }
        DrainKeeps(s1, from, f.value);
      }
    }
  }

  lemma SettleKeeps(s: Store, k: RowKey)
    requires Inv(s)
    ensures Inv(Settle(s, k))
    ensures k in s.outbox && k in s.messages ==> Settle(s, k).messages[k].status == Delivered
  {
    forall x: RowKey
      ensures KeyOk(Settle(s, k), x)
    {
      assert KeyOk(s, x) && KeyOk(s, k);
      SettledKey(s, k, x);
    }
    assert KeyOk(s, k);
    hide KeyOk;
  }

  lemma SettledKey(s: Store, k: RowKey, x: RowKey)
    requires KeyOk(s, k) && KeyOk(s, x)
    ensures KeyOk(Settle(s, k), x)
  {
  }

  lemma WentOutKeeps(s: Store, k: RowKey)
    requires Inv(s)
    ensures Inv(WentOut(s, k))
  {
    forall x: RowKey
      ensures KeyOk(WentOut(s, k), x)
    {
      assert KeyOk(s, x);
    }
  }

  // ----- runs -----

  /** Everything that can happen to the store of one node. */
  datatype Event =
    | SendsText(canSend: bool, to: PeerId, text: Bytes, d: Draw)
    | SendsSealed(canSend: bool, to: PeerId, kind: nat, plain: Bytes, d: Draw)
    | Deletes(k: RowKey)
    | GetsChat(from: PeerId, mid: MsgId, stamp: nat, chat: Option<Message>, d: Draw)
    | GetsSealed(from: PeerId, handled: bool, chat: Option<Message>, d: Draw)
    | GetsInit(from: PeerId, init: Option<Init>, d: Draw)
    | GetsInitAck(from: PeerId, ack: Option<InitAck>, d: Draw)
    | GetsAck(k: RowKey)
    | Flushes(k: RowKey)

  predicate FreshEvent(s: Store, e: Event) {
    match e
    case SendsText(_, to, _, d) => FreshDraw(s, to, d)
    case SendsSealed(_, to, _, _, d) => FreshDraw(s, to, d)
    case GetsChat(from, _, _, _, d) => FreshDraw(s, from, d)
    case GetsSealed(from, _, _, d) => FreshDraw(s, from, d)
    case GetsInit(from, _, d) => FreshDraw(s, from, d)
    case GetsInitAck(from, _, d) => FreshDraw(s, from, d)
    case _ => true
  }

  function Attempt(me: Identity, s: Store, e: Event): Result<Store, ChatError>
    requires forall p :: p in s.sessions ==> WellFormed(s.sessions[p])
  {
    match e
    case SendsText(canSend, to, text, d) => SendText(me, s, canSend, to, text, d)
    case SendsSealed(canSend, to, kind, plain, d) => SendSealed(me, s, canSend, to, kind, plain, d)
    case Deletes(k) => Ok(Delete(s, k))
    case GetsChat(from, mid, stamp, m, d) => OnChat(me, s, from, mid, stamp, m, d)
    case GetsSealed(from, handled, m, d) => OnSealed(me, s, from, handled, m, d)
    case GetsInit(from, init, d) => OnSessionInit(me, s, from, init, d)
    case GetsInitAck(from, ack, d) => OnSessionInitAck(me, s, from, ack, d)
    case GetsAck(k) => Ok(Settle(s, k))
    case Flushes(k) => Ok(WentOut(s, k))
  }

  /** A failing transaction is rolled back. */
  function Step(me: Identity, s: Store, e: Event): Store
    requires forall p :: p in s.sessions ==> WellFormed(s.sessions[p])
  {
    var r := Attempt(me, s, e);
    if r.Ok? then r.value else s
  }

  lemma StepKeeps(me: Identity, s: Store, e: Event)
    requires Inv(s) && FreshEvent(s, e)
    ensures Inv(Step(me, s, e))
  {
    hide KeyOk, NoDup;
    match e
    case SendsText(canSend, to, text, d) => SendTextKeeps(me, s, canSend, to, text, d);
    case SendsSealed(canSend, to, kind, plain, d) => SendSealedKeeps(me, s, canSend, to, kind, plain, d);
    case Deletes(k) => DeleteKeeps(s, k);
    case GetsChat(from, mid, stamp, m, d) => OnChatKeeps(me, s, from, mid, stamp, m, d);
    case GetsSealed(from, handled, m, d) => OnSealedKeeps(me, s, from, handled, m, d);
    case GetsInit(from, init, d) => OnSessionInitKeeps(me, s, from, init, d);
    case GetsInitAck(from, ack, d) => OnSessionInitAckKeeps(me, s, from, ack, d);
    case GetsAck(k) => SettleKeeps(s, k);
    case Flushes(k) => WentOutKeeps(s, k);
  }

  const EMPTY := Store(map[], map[], map[], map[], map[], map[], map[], 0)

  /** The states a node can reach: from the empty store, by events whose random ids are fresh. */
  ghost predicate Reaches(me: Identity, s: Store, es: seq<Event>, t: Store)
    requires forall p :: p in s.sessions ==> WellFormed(s.sessions[p])
    decreases |es|
  {
    if es == [] then s == t
    else
      var next := Step(me, s, es[0]);
      FreshEvent(s, es[0]) && (forall p :: p in next.sessions ==> WellFormed(next.sessions[p]))
      && Reaches(me, next, es[1..], t)
  }

  lemma {:induction false} ReachesKeeps(me: Identity, s: Store, es: seq<Event>, t: Store)
    requires Inv(s) && Reaches(me, s, es, t)
    ensures Inv(t)
    decreases |es|
  {
    if es != [] {
      StepKeeps(me, s, es[0]);
      ReachesKeeps(me, Step(me, s, es[0]), es[1..], t);
    }
  }

  /**
   Conservation: in every reachable state each text that is neither deleted nor delivered is in
   exactly one of the pending queue and the outbox, and what is queued for it is that text.
   */
  lemma Conservation(me: Identity, es: seq<Event>, t: Store, k: RowKey)
    requires Reaches(me, EMPTY, es, t)
    requires k in t.messages && !t.messages[k].deleted && t.messages[k].status != Delivered
    ensures (k in t.pending) != (k in t.outbox)
    ensures k in t.outbox ==>
              t.outbox[k].ChatFrame? && t.outbox[k].m.ct.Sealed? && Some(t.outbox[k].m.ct.plain) == t.messages[k].body
  {
    assert forall x :: KeyOk(EMPTY, x);
    ReachesKeeps(me, EMPTY, es, t);
    assert KeyOk(t, k);
  }

  /** Nothing is queued for a delivered text, and a queue never holds a text twice. */
  lemma NoLeftovers(me: Identity, es: seq<Event>, t: Store, k: RowKey)
    requires Reaches(me, EMPTY, es, t) && k in t.messages && t.messages[k].status == Delivered
    ensures k !in t.pending && k !in t.outbox
  {
    assert forall x :: KeyOk(EMPTY, x);
    ReachesKeeps(me, EMPTY, es, t);
    assert KeyOk(t, k);
  }
}
