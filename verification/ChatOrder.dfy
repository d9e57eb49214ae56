/**
 In which order texts that waited for a session are sent: by the wall clock read when they were
 written and, within one millisecond, by their random ids; exactly when that is the writing order.
 */
module ChatOrder {
  import opened Prelude
  import opened RatchetCrypto
  import opened Ratchet
  import opened RatchetHandshake
  import opened Chat
  import Lamport
  import Pending
  import opened ChatInvariant

  /** No text is numbered or stamped beyond its counters. */
  ghost predicate Counted(s: Store) {
    forall k :: k in s.messages ==>
      k.0 in s.seqNos && s.messages[k].seqNo <= s.seqNos[k.0] && s.messages[k].lamport <= s.lamport
  }

  predicate Waiting(s: Store, k: RowKey, to: PeerId) {
    k in s.pending && k in s.messages && k.0 == to
  }

  /** Of two waiting texts of one peer, the one written first is also before by the clock. */
  predicate PairInOrder(s: Store, a: RowKey, b: RowKey) {
    Waiting(s, a, b.0) && Waiting(s, b, b.0) && s.messages[a].seqNo < s.messages[b].seqNo ==>
      Pending.Before(Pending.EntryOf(s.pending, a), Pending.EntryOf(s.pending, b))
  }

  ghost predicate InOrder(s: Store) {
    forall a: RowKey, b: RowKey :: PairInOrder(s, a, b)
  }

  /** A text written now is after every text that waits for the same peer. */
  ghost predicate InTurn(s: Store, to: PeerId, d: Draw) {
    forall k :: Waiting(s, k, to) ==>
      Pending.Before(Pending.EntryOf(s.pending, k), Pending.Entry(d.mid, d.now))
  }

  // ----- numbers and the queue over one event -----

  predicate SameNumber(ms: map<RowKey, Row>, ms': map<RowKey, Row>, k: RowKey) {
    (k in ms <==> k in ms') && (k in ms ==> ms'[k].seqNo == ms[k].seqNo && ms'[k].lamport == ms[k].lamport)
  }

  /** Rows, numbers and counters stay; the queue loses at most some texts. */
  ghost predicate Kept(s: Store, t: Store) {
    && (forall k :: SameNumber(s.messages, t.messages, k))
    && t.seqNos == s.seqNos && t.lamport >= s.lamport
    && (forall k :: k in t.pending ==> k in s.pending && t.pending[k] == s.pending[k])
  }

  lemma KeptInOrder(s: Store, t: Store)
    requires Counted(s) && Kept(s, t)
    ensures Counted(t) && (InOrder(s) ==> InOrder(t))
  {
    forall k | k in t.messages
      ensures k.0 in t.seqNos && t.messages[k].seqNo <= t.seqNos[k.0] && t.messages[k].lamport <= t.lamport
    {
      assert SameNumber(s.messages, t.messages, k);
    }
    if InOrder(s) {
      forall a: RowKey, b: RowKey
        ensures PairInOrder(t, a, b)
      {
        assert PairInOrder(s, a, b);
        assert SameNumber(s.messages, t.messages, a) && SameNumber(s.messages, t.messages, b);
      }
    }
  }

  lemma DrainKept(s: Store, p: PeerId, st: StateV, t: Store)
    requires Inv(s) && WellFormed(st) && DrainAndSave(s, p, st) == Ok(t)
    ensures Kept(s, t) && t.lamport == s.lamport
  {
    if st.hasCKs {
      Pending.TakeMeaning(s.pending, p);
      var s0 := s.(pending := Pending.Except(s.pending, p));
      forall k | k in Pending.Take(s.pending, p)
        ensures k !in s0.outbox
      {
        assert KeyOk(s, k);
      }
      DrainEffect(s0, st, Pending.Take(s.pending, p));
    }
  }

  lemma HandshakeKept(me: Identity, s: Store, to: PeerId, d: Draw, t: Store)
    requires EnsureHandshake(me, s, to, d) == Ok(t)
    ensures Kept(s, t)
  {
  }

  lemma KeptAfter(s: Store, s1: Store, t: Store)
    requires s1.messages == s.messages && s1.pending == s.pending && s1.seqNos == s.seqNos && s1.lamport >= s.lamport
    requires Kept(s1, t)
    ensures Kept(s, t)
  {
  }

  lemma KeptSame(s: Store)
    ensures Kept(s, s)
  {
  }

  lemma SameQueues(s: Store, t: Store)
    requires Inv(s) && t.messages == s.messages && t.pending == s.pending && t.outbox == s.outbox
    requires forall p :: p in t.sessions ==> WellFormed(t.sessions[p])
    ensures Inv(t)
  {
    forall k: RowKey
      ensures KeyOk(t, k)
    {
      assert KeyOk(s, k);
    }
  }

  lemma OnChatKept(me: Identity, s: Store, from: PeerId, mid: MsgId, stamp: nat, m: Option<Message>, d: Draw, t: Store)
    requires Inv(s) && OnChat(me, s, from, mid, stamp, m, d) == Ok(t)
    ensures Kept(s, t)
  {
    hide KeyOk, NoDup, DecryptV, DrainAndSave, EnsureHandshake, Kept;
    if m.None? {
      KeptSame(s);
    } else if from in s.sessions && DecryptV(s.sessions[from], d.ratchetKey, m.value).Ok? {
      var (plain, st) := DecryptV(s.sessions[from], d.ratchetKey, m.value).value;
      DecryptKeeps(s.sessions[from], d.ratchetKey, m.value);
      var s1 := s.(lamport := Lamport.Observed(s.lamport, stamp),
                   received := if (from, mid) in s.received then s.received else s.received[(from, mid) := plain]);
      SameQueues(s, s1);
      DrainKept(s1, from, st, t);
      KeptAfter(s, s1, t);
    } else {
      HandshakeKept(me, s, from, d, t);
    }
  }

  lemma OnSealedKept(me: Identity, s: Store, from: PeerId, handled: bool, m: Option<Message>, d: Draw, t: Store)
    requires Inv(s) && OnSealed(me, s, from, handled, m, d) == Ok(t)
    ensures Kept(s, t)
  {
    hide KeyOk, NoDup, DecryptV, DrainAndSave, EnsureHandshake, Kept;
    if m.None? {
      KeptSame(s);
    } else if from in s.sessions && DecryptV(s.sessions[from], d.ratchetKey, m.value).Ok? {
      DecryptKeeps(s.sessions[from], d.ratchetKey, m.value);
      DrainKept(s, from, DecryptV(s.sessions[from], d.ratchetKey, m.value).value.1, t);
    } else {
      HandshakeKept(me, s, from, d, t);
    }
  }

  lemma OnAckKept(me: Identity, s: Store, from: PeerId, ack: Option<InitAck>, d: Draw, t: Store)
    requires Inv(s) && OnSessionInitAck(me, s, from, ack, d) == Ok(t)
    ensures Kept(s, t)
  {
    hide KeyOk, NoDup;
    if ack.Some? && from in s.handshakes && Finish(s.handshakes[from], d.ratchetKey, ack.value, me.id, from).Ok? {
      var s1 := s.(handshakes := s.handshakes - {from});
      SameQueues(s, s1);
      DrainKept(s1, from, Finish(s.handshakes[from], d.ratchetKey, ack.value, me.id, from).value, t);
    }
  }

  lemma OtherKept(me: Identity, s: Store, e: Event, t: Store)
    requires Inv(s) && Attempt(me, s, e) == Ok(t)
    requires e.SendsSealed? || e.Deletes? || e.GetsInit? || e.GetsAck? || e.Flushes?
    ensures Kept(s, t)
  {
    hide KeyOk, NoDup, Kept, SendSealed, OnSessionInit, Delete, Settle, WentOut;
    match e
    case SendsSealed(canSend, to, kind, plain, d) => SendSealedKept(me, s, canSend, to, kind, plain, d, t);
    case GetsInit(from, init, d) => OnInitKept(me, s, from, init, d, t);
    case Deletes(k) => RowKept(s, k);
    case GetsAck(k) => RowKept(s, k);
    case Flushes(k) => RowKept(s, k);
  }

  lemma RowKept(s: Store, k: RowKey)
    ensures Kept(s, Delete(s, k)) && Kept(s, Settle(s, k)) && Kept(s, WentOut(s, k))
  {
    StatusKept(s, k, Sent);
    StatusKept(s.(outbox := s.outbox - {k}), k, Delivered);
    hide StatusUp;
    KeptSame(s);
    assert Kept(s, Delete(s, k));
  }

  lemma StatusKept(s: Store, k: RowKey, status: Status)
    ensures Kept(s, StatusUp(s, k, status))
  {
    var t := StatusUp(s, k, status);
    assert forall x :: SameNumber(s.messages, t.messages, x);
  }

  lemma SendSealedKept(me: Identity, s: Store, canSend: bool, to: PeerId, kind: nat, plain: Bytes, d: Draw, t: Store)
    requires SendSealed(me, s, canSend, to, kind, plain, d) == Ok(t)
    ensures Kept(s, t)
  {
    hide EncryptV, Reloaded, InitOf, SameNumber;
    KeptSame(s);
    if canSend && (to !in s.sessions || !s.sessions[to].hasCKs) {
      HandshakeKept(me, s, to, d, t);
    }
  }

  lemma OnInitKept(me: Identity, s: Store, from: PeerId, init: Option<Init>, d: Draw, t: Store)
    requires OnSessionInit(me, s, from, init, d) == Ok(t)
    ensures Kept(s, t)
  {
    hide AcceptHandshake;
  }

  // ----- a new text -----

  /** The text has to wait for a session. */
  predicate MustWait(s: Store, to: PeerId) {
    to !in s.sessions || !s.sessions[to].hasCKs
  }

  function NewRow(s: Store, to: PeerId, text: Bytes): Row {
    Row(Some(text), Queued, false, (if to in s.seqNos then s.seqNos[to] else 0) + 1, s.lamport + 1)
  }

  lemma WaitShape(me: Identity, s: Store, to: PeerId, text: Bytes, d: Draw, t: Store)
    requires Unused(s, (to, d.mid)) && MustWait(s, to) && SendText(me, s, true, to, text, d) == Ok(t)
    ensures var row := NewRow(s, to, text);
      && t.messages == s.messages[(to, d.mid) := row] && t.lamport == row.lamport
      && t.seqNos == s.seqNos[to := row.seqNo] && t.pending == s.pending[(to, d.mid) := d.now]
  {
    hide InitOf, EncryptEnqueue;
  }

  lemma NowShape(me: Identity, s: Store, to: PeerId, text: Bytes, d: Draw, t: Store)
    requires Unused(s, (to, d.mid)) && !MustWait(s, to) && SendText(me, s, true, to, text, d) == Ok(t)
    ensures var row := NewRow(s, to, text);
      && t.messages == s.messages[(to, d.mid) := row] && t.lamport == row.lamport
      && t.seqNos == s.seqNos[to := row.seqNo] && t.pending == s.pending
  {
    hide EncryptV, Reloaded, EnsureHandshake;
  }

  lemma SendTextShape(me: Identity, s: Store, to: PeerId, text: Bytes, d: Draw, t: Store) returns (row: Row)
    requires Inv(s) && FreshDraw(s, to, d) && SendText(me, s, true, to, text, d) == Ok(t)
    ensures row == NewRow(s, to, text)
    ensures t.messages == s.messages[(to, d.mid) := row] && t.lamport == row.lamport
    ensures t.seqNos == s.seqNos[to := row.seqNo]
    ensures t.pending == if MustWait(s, to) then s.pending[(to, d.mid) := d.now] else s.pending
  {
    hide SendText, Inv;
    row := NewRow(s, to, text);
    if MustWait(s, to) {
      WaitShape(me, s, to, text, d, t);
    } else {
      NowShape(me, s, to, text, d, t);
    }
  }

  /** A text's number and stamp are above those of every text before it. */
  lemma NewestText(me: Identity, s: Store, to: PeerId, text: Bytes, d: Draw, t: Store)
    requires Inv(s) && Counted(s) && FreshDraw(s, to, d) && SendText(me, s, true, to, text, d) == Ok(t)
    ensures Counted(t)
    ensures var k := (to, d.mid);
      && k in t.messages && t.messages[k].lamport == t.lamport
      && forall x :: x in s.messages ==>
           s.messages[x].lamport < t.messages[k].lamport && (x.0 == to ==> s.messages[x].seqNo < t.messages[k].seqNo)
  {
    hide KeyOk, NoDup, SendText;
    var row := SendTextShape(me, s, to, text, d, t);
  }

  /** A text that waits keeps the queue in writing order exactly when it is written in turn. */
  lemma NewTextInOrder(me: Identity, s: Store, to: PeerId, text: Bytes, d: Draw, t: Store)
    requires Inv(s) && Counted(s) && FreshDraw(s, to, d) && SendText(me, s, true, to, text, d) == Ok(t)
    requires InOrder(s)
    ensures InOrder(t) <==> !MustWait(s, to) || InTurn(s, to, d)
  {
    hide KeyOk, NoDup, SendText, Pending.Before;
    var row := SendTextShape(me, s, to, text, d, t);
    NewestText(me, s, to, text, d, t);
    var k := (to, d.mid);
    if InOrder(t) && MustWait(s, to) {
      forall x | Waiting(s, x, to)
        ensures Pending.Before(Pending.EntryOf(s.pending, x), Pending.Entry(d.mid, d.now))
      {
        assert PairInOrder(t, x, k);
      }
    }
    if !MustWait(s, to) || InTurn(s, to, d) {
      forall a: RowKey, b: RowKey
        ensures PairInOrder(t, a, b)
      {
        assert PairInOrder(s, a, b);
        if b == k && a != k && Waiting(t, a, to) {
          assert Waiting(s, a, to);
        }
      }
    }
  }

  // ----- runs -----

  /** An event keeps the order unless it is a text that has to wait and is not written in turn. */
  ghost predicate EventInTurn(s: Store, e: Event) {
    e.SendsText? && e.canSend && e.text != [] && |e.text| <= MAX_TEXT_LEN && MustWait(s, e.to) ==> InTurn(s, e.to, e.d)
  }

  /** Every event keeps the counters, and the writing order exactly when it is in turn. */
  lemma StepInOrder(me: Identity, s: Store, e: Event)
    requires Inv(s) && Counted(s) && FreshEvent(s, e)
    ensures Counted(Step(me, s, e))
    ensures InOrder(s) ==> (InOrder(Step(me, s, e)) <==> EventInTurn(s, e))
  {
    hide KeyOk, NoDup, InOrder, Counted, Kept, InTurn, MustWait, SendText;
    hide SendSealed, OnChat, OnSealed, OnSessionInit, OnSessionInitAck;
    var r := Attempt(me, s, e);
    if e.SendsText? {
      SendTextKeeps(me, s, e.canSend, e.to, e.text, e.d);
    }
    if r.Ok? {
      var t := r.value;
      match e
      case SendsText(canSend, to, text, d) =>
        NewestText(me, s, to, text, d, t);
        if InOrder(s) {
          NewTextInOrder(me, s, to, text, d, t);
        }
      case GetsChat(from, mid, stamp, m, d) =>
        OnChatKept(me, s, from, mid, stamp, m, d, t);
        KeptInOrder(s, t);
      case GetsSealed(from, handled, m, d) =>
        OnSealedKept(me, s, from, handled, m, d, t);
        KeptInOrder(s, t);
      case GetsInitAck(from, ack, d) =>
        OnAckKept(me, s, from, ack, d, t);
        KeptInOrder(s, t);
      case _ =>
        OtherKept(me, s, e, t);
        KeptInOrder(s, t);
    }
  }

  /** Every text of the run that had to wait was written in turn. */
  ghost predicate AllInTurn(me: Identity, s: Store, es: seq<Event>)
    requires forall p :: p in s.sessions ==> WellFormed(s.sessions[p])
    decreases |es|
  {
    es != [] ==>
      var next := Step(me, s, es[0]);
      EventInTurn(s, es[0]) && (forall p :: p in next.sessions ==> WellFormed(next.sessions[p]))
      && AllInTurn(me, next, es[1..])
  }

  lemma {:induction false} ReachesInOrder(me: Identity, s: Store, es: seq<Event>, t: Store)
    requires Inv(s) && Counted(s) && Reaches(me, s, es, t)
    ensures Inv(t) && Counted(t)
    ensures InOrder(s) && AllInTurn(me, s, es) ==> InOrder(t)
    decreases |es|
  {
    if es != [] {
      StepKeeps(me, s, es[0]);
      StepInOrder(me, s, es[0]);
      ReachesInOrder(me, Step(me, s, es[0]), es[1..], t);
    }
  }

  // ----- what a drain sends -----

  /** The number, in the session, of the message that carries the text of row k. */
  function SentAs(t: Store, k: RowKey): Option<nat> {
    if k in t.outbox && t.outbox[k].ChatFrame? then Some(t.outbox[k].m.n) else None
  }

  /** Draining the peer's waiting texts sends both, a under the smaller number. */
  predicate SentBefore(s: Store, to: PeerId, st: StateV, a: RowKey, b: RowKey) {
    var r := DrainPending(s, to, st);
    r.Ok? && SentAs(r.value.0, a).Some? && SentAs(r.value.0, b).Some?
    && SentAs(r.value.0, a).value < SentAs(r.value.0, b).value
  }

  /** The texts go out under consecutive numbers, in the order of the list. */
  lemma {:induction false} DrainNumbers(s: Store, st: StateV, ks: seq<RowKey>)
    requires st.hasCKs && WellFormed(st) && NoDup(ks) && (forall k :: k in ks ==> k !in s.outbox)
    requires st.ns + |ks| < U32
    ensures DrainList(s, st, ks).Ok?
    ensures var (t, w) := DrainList(s, st, ks).value;
      && st.ns <= w.ns <= st.ns + |ks|
      && (forall i :: 0 <= i < |ks| && Sendable(s, ks[i]) ==>
            SentAs(t, ks[i]).Some? && st.ns <= SentAs(t, ks[i]).value < w.ns)
      && (forall i, j :: 0 <= i < j < |ks| && Sendable(s, ks[i]) && Sendable(s, ks[j]) ==>
            SentAs(t, ks[i]).Some? && SentAs(t, ks[j]).Some? && SentAs(t, ks[i]).value < SentAs(t, ks[j]).value)
  {
    DrainEffect(s, st, ks);
    if ks != [] {
      var init, last := ks[..|ks| - 1], ks[|ks| - 1];
      assert ks == init + [last];
      NoDupSnoc(init, last);
      DrainNumbers(s, st, init);
      DrainEffect(s, st, init);
      DrainOneMore(s, st, ks);
      hide Drained, NoDup, DrainList, WellFormed, SentAs, Sendable;
      assert forall i :: 0 <= i < |init| ==> ks[i] == init[i] && ks[i] != last;
    }
  }

  /** One text of a drain. */
  lemma OneText(before: Store, v: StateV, k: RowKey, t: Store, w: StateV)
    requires Sendable(before, k) && v.ns + 1 < U32
    requires EncryptEnqueue(before, v, k, before.messages[k], before.messages[k].body.value) == Ok((t, w))
    ensures forall x :: x != k ==> SentAs(t, x) == SentAs(before, x)
    ensures SentAs(t, k) == Some(v.ns) && w.ns == v.ns + 1
  {
  }

  lemma DrainUnfolds(s: Store, st: StateV, ks: seq<RowKey>)
    requires ks != [] && DrainList(s, st, ks[..|ks| - 1]).Ok?
    ensures var (before, v) := DrainList(s, st, ks[..|ks| - 1]).value;
      var k := ks[|ks| - 1];
      DrainList(s, st, ks)
      == if !Sendable(before, k) then Ok((before, v))
         else EncryptEnqueue(before, v, k, before.messages[k], before.messages[k].body.value)
  {
    hide EncryptEnqueue;
  }

  lemma DrainOneMore(s: Store, st: StateV, ks: seq<RowKey>)
    requires ks != [] && DrainList(s, st, ks).Ok? && DrainList(s, st, ks[..|ks| - 1]).Ok?
    requires DrainList(s, st, ks[..|ks| - 1]).value.0.messages == s.messages
    requires DrainList(s, st, ks[..|ks| - 1]).value.1.ns + 1 < U32
    ensures var (before, v) := DrainList(s, st, ks[..|ks| - 1]).value;
      var (t, w) := DrainList(s, st, ks).value;
      var last := ks[|ks| - 1];
      && (forall k :: k != last ==> SentAs(t, k) == SentAs(before, k))
      && if Sendable(s, last) then SentAs(t, last) == Some(v.ns) && w.ns == v.ns + 1 else w.ns == v.ns
  {
    DrainUnfolds(s, st, ks);
    hide DrainList, EncryptEnqueue, SentAs;
    var (before, v) := DrainList(s, st, ks[..|ks| - 1]).value;
    var (t, w) := DrainList(s, st, ks).value;
    if Sendable(before, ks[|ks| - 1]) {
      OneText(before, v, ks[|ks| - 1], t, w);
    }
  }

  /** The taken texts: no repeats, no more than wait, none of them in the outbox. */
  lemma TakenFit(s: Store, to: PeerId)
    requires Inv(s)
    ensures NoDup(Pending.Take(s.pending, to)) && |Pending.Take(s.pending, to)| <= |s.pending|
    ensures forall k :: k in Pending.Take(s.pending, to) ==> k !in s.outbox
  {
    var ks := Pending.Take(s.pending, to);
    Pending.TakeMeaning(s.pending, to);
    NoDupBounded(ks, s.pending.Keys);
    forall k | k in ks
      ensures k !in s.outbox
    {
      assert KeyOk(s, k);
    }
  }

  /** Where two waiting texts stand in what is taken. */
  lemma TakenOrder(q: Pending.Queue, to: PeerId, a: RowKey, b: RowKey) returns (i: nat, j: nat)
    requires a in q && b in q && a.0 == b.0 == to && Pending.Before(Pending.EntryOf(q, a), Pending.EntryOf(q, b))
    ensures i < j < |Pending.Take(q, to)| && Pending.Take(q, to)[i] == a && Pending.Take(q, to)[j] == b
  {
    Pending.TakeMeaning(q, to);
    Pending.BeforeOrder(Pending.EntryOf(q, a), Pending.EntryOf(q, b));
    hide Pending.Take, Pending.Before;
    var ks := Pending.Take(q, to);
    i :| 0 <= i < |ks| && ks[i] == a;
    j :| 0 <= j < |ks| && ks[j] == b;
  }

  /** The drain's order of two waiting texts. */
  lemma DrainOrder(s: Store, to: PeerId, st: StateV, a: RowKey, b: RowKey)
    requires Inv(s) && st.hasCKs && WellFormed(st) && st.ns + |s.pending| < U32
    requires Waiting(s, a, to) && Waiting(s, b, to) && Sendable(s, a) && Sendable(s, b)
    requires Pending.Before(Pending.EntryOf(s.pending, a), Pending.EntryOf(s.pending, b))
    ensures SentBefore(s, to, st, a, b)
  {
    TakenFit(s, to);
    var i, j := TakenOrder(s.pending, to, a, b);
    hide Inv, NoDup, SentAs, Sendable, Pending.Take, Pending.Before, Pending.Except, WellFormed, DrainList;
    var s0 := s.(pending := Pending.Except(s.pending, to));
    DrainNumbers(s0, st, Pending.Take(s.pending, to));
    SendableSame(s, s0, a);
    SendableSame(s, s0, b);
  }

  lemma SendableSame(s: Store, t: Store, k: RowKey)
    requires s.messages == t.messages
    ensures Sendable(s, k) == Sendable(t, k)
  {
  }

  /**
   In every reachable state, of two different texts that wait for a peer one is sent before the
   other exactly when its clock was earlier or, at one clock, its id is smaller.
   */
  lemma SentByClock(me: Identity, es: seq<Event>, s: Store, to: PeerId, st: StateV, a: RowKey, b: RowKey)
    requires Reaches(me, EMPTY, es, s) && st.hasCKs && WellFormed(st) && st.ns + |s.pending| < U32
    requires a in s.pending && b in s.pending && a.0 == b.0 == to && Sendable(s, a) && Sendable(s, b) && a != b
    ensures SentBefore(s, to, st, a, b) != SentBefore(s, to, st, b, a)
    ensures SentBefore(s, to, st, a, b) <==>
              Pending.Before(Pending.EntryOf(s.pending, a), Pending.EntryOf(s.pending, b))
  {
    assert forall x :: KeyOk(EMPTY, x);
    ReachesKeeps(me, EMPTY, es, s);
    Pending.IdTotal(a.1, b.1);
    if Pending.Before(Pending.EntryOf(s.pending, a), Pending.EntryOf(s.pending, b)) {
      DrainOrder(s, to, st, a, b);
    } else {
      DrainOrder(s, to, st, b, a);
    }
  }

  /** When every text that had to wait was written in turn, waiting texts are sent in writing order. */
  lemma SentInWritingOrder(me: Identity, es: seq<Event>, s: Store, to: PeerId, st: StateV, a: RowKey, b: RowKey)
    requires Reaches(me, EMPTY, es, s) && st.hasCKs && WellFormed(st) && st.ns + |s.pending| < U32
    requires a in s.pending && b in s.pending && a.0 == b.0 == to && Sendable(s, a) && Sendable(s, b)
    requires s.messages[a].seqNo < s.messages[b].seqNo
    requires AllInTurn(me, EMPTY, es)
    ensures SentBefore(s, to, st, a, b)
  {
    assert forall x :: KeyOk(EMPTY, x);
    ReachesInOrder(me, EMPTY, es, s);
    assert PairInOrder(s, a, b);
    SentByClock(me, es, s, to, st, a, b);
  }

  // ----- texts that do not wait -----

  /** No text waits for a peer to whom the node can send. */
  ghost predicate NoneWaits(s: Store) {
    forall k :: k in s.pending && k.0 in s.sessions ==> !s.sessions[k.0].hasCKs
  }

  lemma DrainLeavesNone(s: Store, p: PeerId, st: StateV, t: Store)
    requires Inv(s) && NoneWaits(s) && WellFormed(st) && DrainAndSave(s, p, st) == Ok(t)
    ensures NoneWaits(t)
  {
    if st.hasCKs {
      TakenFit(s, p);
      DrainEffect(s.(pending := Pending.Except(s.pending, p)), st, Pending.Take(s.pending, p));
    }
  }

  lemma ReadLeavesNone(me: Identity, s: Store, e: Event, t: Store)
    requires Inv(s) && NoneWaits(s) && (e.GetsChat? || e.GetsSealed?) && Attempt(me, s, e) == Ok(t)
    ensures NoneWaits(t)
  {
    hide KeyOk, DecryptV, DrainAndSave, EnsureHandshake, NoneWaits;
    if e.chat.Some? && e.from in s.sessions && DecryptV(s.sessions[e.from], e.d.ratchetKey, e.chat.value).Ok? {
      var (plain, st) := DecryptV(s.sessions[e.from], e.d.ratchetKey, e.chat.value).value;
      DecryptKeeps(s.sessions[e.from], e.d.ratchetKey, e.chat.value);
      if e.GetsChat? {
        var k := (e.from, e.mid);
        var s1 := s.(lamport := Lamport.Observed(s.lamport, e.stamp),
                     received := if k in s.received then s.received else s.received[k := plain]);
        SameQueues(s, s1);
        SameLeavesNone(s, s1);
        DrainLeavesNone(s1, e.from, st, t);
      } else {
        DrainLeavesNone(s, e.from, st, t);
      }
    } else if e.chat.Some? {
      HandshakeShape(me, s, e.from, e.d, t);
      SameLeavesNone(s, t);
    }
  }

  lemma HandshakeShape(me: Identity, s: Store, to: PeerId, d: Draw, t: Store)
    requires EnsureHandshake(me, s, to, d) == Ok(t)
    ensures t.pending == s.pending && t.sessions == s.sessions
  {
  }

  lemma SameLeavesNone(s: Store, t: Store)
    requires NoneWaits(s) && t.pending == s.pending && t.sessions == s.sessions
    ensures NoneWaits(t)
  {
  }

  lemma SessionLeavesNone(me: Identity, s: Store, e: Event, t: Store)
    requires Inv(s) && NoneWaits(s) && (e.GetsInit? || e.GetsInitAck?) && Attempt(me, s, e) == Ok(t)
    ensures NoneWaits(t)
  {
    hide KeyOk, DrainAndSave;
    if e.GetsInitAck? && e.ack.Some? && e.from in s.handshakes
       && Finish(s.handshakes[e.from], e.d.ratchetKey, e.ack.value, me.id, e.from).Ok? {
      var s1 := s.(handshakes := s.handshakes - {e.from});
      SameQueues(s, s1);
      DrainLeavesNone(s1, e.from, Finish(s.handshakes[e.from], e.d.ratchetKey, e.ack.value, me.id, e.from).value, t);
    }
  }

  /** Only the peer's session changes, and the queue only if the text has to wait. */
  lemma SendSessions(me: Identity, s: Store, to: PeerId, text: Bytes, d: Draw, t: Store)
    requires SendText(me, s, true, to, text, d) == Ok(t)
    ensures MustWait(s, to) ==> t.sessions == s.sessions && t.pending == Pending.Add(s.pending, (to, d.mid), d.now)
    ensures !MustWait(s, to) ==> t.pending == s.pending && t.sessions - {to} == s.sessions - {to}
  {
    hide EncryptV, Reloaded, EnsureHandshake, Pending.Add;
    if MustWait(s, to) {
      var k := (to, d.mid);
      var row := NewRow(s, to, text);
      var s1 := s.(seqNos := s.seqNos[to := row.seqNo], lamport := s.lamport + 1,
                   messages := if k in s.messages then s.messages else s.messages[k := row],
                   pending := Pending.Add(s.pending, k, d.now));
      HandshakeShape(me, s1, to, d, t);
    }
  }

  lemma SealedSessions(me: Identity, s: Store, to: PeerId, kind: nat, plain: Bytes, d: Draw, t: Store)
    requires SendSealed(me, s, true, to, kind, plain, d) == Ok(t)
    ensures t.pending == s.pending
    ensures if MustWait(s, to) then t.sessions == s.sessions else t.sessions - {to} == s.sessions - {to}
  {
    hide EncryptV, Reloaded, EnsureHandshake;
    if MustWait(s, to) {
      HandshakeShape(me, s, to, d, t);
    }
  }

  lemma SendLeavesNone(me: Identity, s: Store, e: Event, t: Store)
    requires Inv(s) && NoneWaits(s) && (e.SendsText? || e.SendsSealed?) && Attempt(me, s, e) == Ok(t)
    ensures NoneWaits(t)
  {
    hide KeyOk;
    if e.SendsText? {
      CanSend(me, s, e.canSend, e.to, e.text, e.d);
      SendSessions(me, s, e.to, e.text, e.d, t);
    } else {
      CanSeal(me, s, e.canSend, e.to, e.kind, e.plain, e.d);
      SealedSessions(me, s, e.to, e.kind, e.plain, e.d, t);
    }
    hide SendText, SendSealed;
    forall k | k in t.pending && k.0 in t.sessions
      ensures !t.sessions[k.0].hasCKs
    {
      if k.0 != e.to {
        assert k.0 in t.sessions - {e.to};
      }
    }
  }

  lemma CanSend(me: Identity, s: Store, canSend: bool, to: PeerId, text: Bytes, d: Draw)
    requires SendText(me, s, canSend, to, text, d).Ok?
    ensures canSend
  {
  }

  lemma CanSeal(me: Identity, s: Store, canSend: bool, to: PeerId, kind: nat, plain: Bytes, d: Draw)
    requires SendSealed(me, s, canSend, to, kind, plain, d).Ok?
    ensures canSend
  {
  }

  /** A text is sent at once only when none waits for the same peer, after any run. */
  lemma {:induction false} NoneOvertakesWaiting(me: Identity, s: Store, es: seq<Event>, t: Store)
    requires Inv(s) && NoneWaits(s) && Reaches(me, s, es, t)
    ensures NoneWaits(t)
    decreases |es|
  {
    if es != [] {
      var e := es[0];
      StepKeeps(me, s, e);
      hide KeyOk, SendText, SendSealed, OnChat, OnSealed, OnSessionInit, OnSessionInitAck, Reaches;
      if Attempt(me, s, e).Ok? {
        var s1 := Attempt(me, s, e).value;
        if e.GetsChat? || e.GetsSealed? {
          ReadLeavesNone(me, s, e, s1);
        } else if e.GetsInit? || e.GetsInitAck? {
          SessionLeavesNone(me, s, e, s1);
        } else if e.SendsText? || e.SendsSealed? {
          SendLeavesNone(me, s, e, s1);
        }
      }
      ReachesRest(me, s, es, t);
      NoneOvertakesWaiting(me, Step(me, s, e), es[1..], t);
    }
  }

  lemma ReachesRest(me: Identity, s: Store, es: seq<Event>, t: Store)
    requires Inv(s) && es != [] && Inv(Step(me, s, es[0])) && Reaches(me, s, es, t)
    ensures Reaches(me, Step(me, s, es[0]), es[1..], t)
  {
  }

  // ----- two texts -----

  /** Two texts written to a peer without a session. */
  function Texts(to: PeerId, t1: Bytes, d1: Draw, t2: Bytes, d2: Draw): seq<Event> {
    [SendsText(true, to, t1, d1), SendsText(true, to, t2, d2)]
  }

  function FirstRow(text: Bytes): Row {
    Row(Some(text), Queued, false, 1, 1)
  }

  function SecondRow(text: Bytes): Row {
    Row(Some(text), Queued, false, 2, 2)
  }

  function AfterTexts(me: Identity, to: PeerId, t1: Bytes, d1: Draw, t2: Bytes, d2: Draw): Store {
    var h := Handshake(me.ik, d1.eph, d1.sid);
    EMPTY.(messages := map[(to, d1.mid) := FirstRow(t1), (to, d2.mid) := SecondRow(t2)],
           pending := map[(to, d1.mid) := d1.now, (to, d2.mid) := d2.now],
           outbox := map[(to, d1.serviceMid) := InitFrame(InitOf(h))],
           handshakes := map[to := h], seqNos := map[to := 2], lamport := 2)
  }

  /** The first text waits, and the handshake is begun. */
  function AfterText(me: Identity, to: PeerId, t1: Bytes, d1: Draw): Store {
    var h := Handshake(me.ik, d1.eph, d1.sid);
    EMPTY.(messages := map[(to, d1.mid) := FirstRow(t1)], pending := map[(to, d1.mid) := d1.now],
           outbox := map[(to, d1.serviceMid) := InitFrame(InitOf(h))],
           handshakes := map[to := h], seqNos := map[to := 1], lamport := 1)
  }

  lemma FirstText(me: Identity, to: PeerId, t1: Bytes, d1: Draw)
    requires 0 < |t1| <= MAX_TEXT_LEN
    ensures Step(me, EMPTY, SendsText(true, to, t1, d1)) == AfterText(me, to, t1, d1)
  {
    hide InitOf;
  }

  lemma SecondText(me: Identity, to: PeerId, t1: Bytes, d1: Draw, t2: Bytes, d2: Draw)
    requires 0 < |t2| <= MAX_TEXT_LEN && d1.mid != d2.mid
    ensures Step(me, AfterText(me, to, t1, d1), SendsText(true, to, t2, d2)) == AfterTexts(me, to, t1, d1, t2, d2)
  {
    hide InitOf;
  }

  /** What the two calls leave. */
  lemma TextsReach(me: Identity, to: PeerId, t1: Bytes, d1: Draw, t2: Bytes, d2: Draw)
    requires 0 < |t1| <= MAX_TEXT_LEN && 0 < |t2| <= MAX_TEXT_LEN
    requires d1.mid !in {d1.serviceMid, d2.mid, d2.serviceMid} && d1.serviceMid !in {d2.mid, d2.serviceMid}
    requires d2.mid != d2.serviceMid
    ensures Reaches(me, EMPTY, Texts(to, t1, d1, t2, d2), AfterTexts(me, to, t1, d1, t2, d2))
  {
    var es := Texts(to, t1, d1, t2, d2);
    var s1, s2 := AfterText(me, to, t1, d1), AfterTexts(me, to, t1, d1, t2, d2);
    FirstText(me, to, t1, d1);
    SecondText(me, to, t1, d1, t2, d2);
    hide Step;
    assert es[1..] == [es[1]] && es[1..][1..] == [];
    assert Reaches(me, s2, [], s2);
    assert Reaches(me, s1, es[1..], s2);
  }

  /** The second text is sent first exactly when it was not written in turn. */
  lemma TwoTexts(me: Identity, to: PeerId, t1: Bytes, d1: Draw, t2: Bytes, d2: Draw, st: StateV)
    requires 0 < |t1| <= MAX_TEXT_LEN && 0 < |t2| <= MAX_TEXT_LEN
    requires d1.mid !in {d1.serviceMid, d2.mid, d2.serviceMid} && d1.serviceMid !in {d2.mid, d2.serviceMid}
    requires d2.mid != d2.serviceMid && st.hasCKs && WellFormed(st) && st.ns + 2 < U32
    ensures var s := AfterTexts(me, to, t1, d1, t2, d2);
      && Reaches(me, EMPTY, Texts(to, t1, d1, t2, d2), s)
      && (SentBefore(s, to, st, (to, d2.mid), (to, d1.mid)) <==>
            !Pending.Before(Pending.Entry(d1.mid, d1.now), Pending.Entry(d2.mid, d2.now)))
  {
    TextsReach(me, to, t1, d1, t2, d2);
    var s := AfterTexts(me, to, t1, d1, t2, d2);
    hide Reaches, WellFormed, SentBefore, Pending.Before;
    assert s.pending == map[(to, d1.mid) := d1.now][(to, d2.mid) := d2.now];
    assert |s.pending| == 2;
    SentByClock(me, Texts(to, t1, d1, t2, d2), s, to, st, (to, d1.mid), (to, d2.mid));
  }

  /** Two texts written in one millisecond with falling ids leave in the reverse order. */
  lemma OneMillisecond(me: Identity, to: PeerId, eph: Priv, now: int, d1: Draw, d2: Draw, st: StateV)
    requires d1 == Draw([1], [2], eph, [], eph, now) && d2 == Draw([0], [3], eph, [], eph, now)
    requires st.hasCKs && WellFormed(st) && st.ns + 2 < U32
    ensures var s := AfterTexts(me, to, [7], d1, [8], d2);
      Reaches(me, EMPTY, Texts(to, [7], d1, [8], d2), s) && SentBefore(s, to, st, (to, d2.mid), (to, d1.mid))
  {
    assert !Pending.Before(Pending.Entry(d1.mid, now), Pending.Entry(d2.mid, now));
    assert d1.mid[0] == 1 && d2.mid[0] == 0 && d1.serviceMid[0] == 2 && d2.serviceMid[0] == 3;
    hide AfterTexts, Reaches, WellFormed, SentBefore, Texts, Pending.Before;
    TwoTexts(me, to, [7], d1, [8], d2, st);
  }
}
