/**
 The chat handlers act on one peer's session and handshake exactly as the two-node protocol of
 SessionAgreement does, so what is proved of the protocol is proved of them.
 */
module ChatAgreement {
  import opened Prelude
  import opened RatchetCrypto
  import opened Ratchet
  import opened RatchetHandshake
  import opened Chat
  import Lamport
  import Pending
  import ChatInvariant
  import P = SessionAgreement

  /** What the store holds about one peer. */
  function NodeOf(s: Store, p: PeerId): P.Node {
    P.Node(if p in s.handshakes then Some(s.handshakes[p]) else None,
           if p in s.sessions then Some(s.sessions[p]) else None)
  }

  /** The envelopes a protocol step puts on the wire, as outbox entries under one message id. */
  function Sent(box: map<RowKey, Frame>, k: RowKey, ws: seq<P.Wire>): map<RowKey, Frame> {
    if ws == [] then box
    else box[k := match ws[0] case WInit(i) => InitFrame(i) case WAck(a) => AckFrame(a)]
  }

  /** Another peer's session and handshake are untouched. */
  ghost predicate OnlyAbout(s: Store, t: Store, p: PeerId) {
    && (forall q :: q != p ==> (q in t.handshakes <==> q in s.handshakes) && (q in t.sessions <==> q in s.sessions))
    && (forall q :: q != p && q in s.handshakes && q in t.handshakes ==> t.handshakes[q] == s.handshakes[q])
    && (forall q :: q != p && q in s.sessions && q in t.sessions ==> t.sessions[q] == s.sessions[q])
  }

  lemma InitRefines(me: Identity, s: Store, from: PeerId, init: Init, d: Draw, t: Store)
    requires OnSessionInit(me, s, from, Some(init), d) == Ok(t)
    ensures OnlyAbout(s, t, from)
    ensures var (n, ws) := P.OnSessionInit(me, from, NodeOf(s, from), init, d.eph);
      NodeOf(t, from) == n && t.outbox == Sent(s.outbox, (from, d.serviceMid), ws)
  {
    NewbornSame(me.ik, d.eph, init, from, me.id);
    hide AcceptHandshake, P.Less, Reloaded;
  }

  lemma HandshakeRefines(me: Identity, s: Store, to: PeerId, d: Draw, t: Store)
    requires EnsureHandshake(me, s, to, d) == Ok(t)
    ensures OnlyAbout(s, t, to)
    ensures var (n, ws) := P.EnsureHandshake(me, NodeOf(s, to), d.eph, d.sid);
      NodeOf(t, to) == n && t.outbox == Sent(s.outbox, (to, d.serviceMid), ws)
  {
    hide InitOf;
  }

  /** Draining encrypts: the session's binding, the handshakes and the other sessions stay. */
  lemma {:induction false} DrainOnlyTalks(s: Store, st: StateV, ks: seq<RowKey>, t: Store, st': StateV)
    requires DrainList(s, st, ks) == Ok((t, st'))
    ensures t.sessions == s.sessions && t.handshakes == s.handshakes && st'.ad == st.ad
  {
    if ks != [] {
      var (s1, st1) := DrainList(s, st, ks[..|ks| - 1]).value;
      DrainOnlyTalks(s, st, ks[..|ks| - 1], s1, st1);
    }
  }

  /** A drain from a session with begun's binding leaves the peer's node as if only talked to. */
  lemma DrainRefines(s: Store, p: PeerId, begun: StateV, t: Store)
    requires DrainAndSave(s, p, begun) == Ok(t)
    ensures OnlyAbout(s, t, p) && p in t.sessions && t.sessions[p].ad == begun.ad && t.handshakes == s.handshakes
  {
    var (s1, st) := DrainPending(s, p, begun).value;
    if begun.hasCKs {
      DrainOnlyTalks(s.(pending := Pending.Except(s.pending, p)), begun, Pending.Take(s.pending, p), s1, st);
    }
  }

  lemma AckRefines(me: Identity, s: Store, from: PeerId, ack: InitAck, d: Draw, t: Store)
    requires OnSessionInitAck(me, s, from, Some(ack), d) == Ok(t)
    ensures OnlyAbout(s, t, from)
    ensures var n := P.OnSessionInitAck(me, from, NodeOf(s, from), ack, d.ratchetKey);
      NodeOf(t, from) == match NodeOf(t, from).session case None => n case Some(st) => P.Talk(n, st)
  {
    hide Finish, DrainAndSave;
    if from in s.handshakes && Finish(s.handshakes[from], d.ratchetKey, ack, me.id, from).Ok? {
      var begun := Finish(s.handshakes[from], d.ratchetKey, ack, me.id, from).value;
      DrainRefines(s.(handshakes := s.handshakes - {from}), from, begun, t);
    }
  }

  // ----- every event of the chat -----

  /** What happens to one peer's node in the protocol. */
  datatype Move =
    | Starts(eph: Priv, sid: Bytes)
    | TakesInit(init: Init, drawn: Priv)
    | TakesAck(ack: InitAck, drawn: Priv)
    | Talks(st: StateV)

  function Moved(me: Identity, peer: PeerId, n: P.Node, m: Move): P.Node {
    match m
    case Starts(eph, sid) => P.EnsureHandshake(me, n, eph, sid).0
    case TakesInit(init, drawn) => P.OnSessionInit(me, peer, n, init, drawn).0
    case TakesAck(ack, drawn) => P.OnSessionInitAck(me, peer, n, ack, drawn)
    case Talks(st) => P.Talk(n, st)
  }

  function AfterMoves(me: Identity, peer: PeerId, n: P.Node, ms: seq<Move>): P.Node {
    if ms == [] then n else Moved(me, peer, AfterMoves(me, peer, n, ms[..|ms| - 1]), ms[|ms| - 1])
  }

  function PeerOf(e: ChatInvariant.Event): PeerId {
    match e
    case SendsText(_, to, _, _) => to
    case SendsSealed(_, to, _, _, _) => to
    case Deletes(k) => k.0
    case GetsChat(from, _, _, _, _) => from
    case GetsSealed(from, _, _, _) => from
    case GetsInit(from, _, _) => from
    case GetsInitAck(from, _, _) => from
    case GetsAck(k) => k.0
    case Flushes(k) => k.0
  }

  /** The session, if any, that an event leaves with its peer. */
  function Talking(t: Store, p: PeerId): seq<Move> {
    if p in t.sessions then [Talks(t.sessions[p])] else []
  }

  function SendMoves(s: Store, t: Store, to: PeerId, d: Draw): seq<Move> {
    if to !in s.sessions || !s.sessions[to].hasCKs then [Starts(d.eph, d.sid)] else Talking(t, to)
  }

  function ReadMoves(s: Store, t: Store, from: PeerId, m: Option<Message>, d: Draw): seq<Move>
    requires forall p :: p in s.sessions ==> WellFormed(s.sessions[p])
  {
    if m.None? then []
    else if from in s.sessions && DecryptV(s.sessions[from], d.ratchetKey, m.value).Ok? then Talking(t, from)
    else [Starts(d.eph, d.sid)]
  }

  /** The protocol's steps that an event makes with its peer. */
  function MovesOf(me: Identity, s: Store, e: ChatInvariant.Event): seq<Move>
    requires forall p :: p in s.sessions ==> WellFormed(s.sessions[p])
  {
    var t := ChatInvariant.Step(me, s, e);
    if ChatInvariant.Attempt(me, s, e).Err? then []
    else
      match e
      case SendsText(_, to, _, d) => SendMoves(s, t, to, d)
      case SendsSealed(_, to, _, _, d) => SendMoves(s, t, to, d)
      case GetsChat(from, _, _, m, d) => ReadMoves(s, t, from, m, d)
      case GetsSealed(from, _, m, d) => ReadMoves(s, t, from, m, d)
      case GetsInit(_, init, d) => if init.None? then [] else [TakesInit(init.value, d.eph)]
      case GetsInitAck(from, ack, d) =>
        if ack.None? then [] else [TakesAck(ack.value, d.ratchetKey)] + Talking(t, from)
      case _ => []
  }

  /** What the steps put on the wire. */
  function WiresOf(me: Identity, peer: PeerId, n: P.Node, ms: seq<Move>): seq<P.Wire> {
    if ms == [] then []
    else
      match ms[0]
      case Starts(eph, sid) => P.EnsureHandshake(me, n, eph, sid).1
      case TakesInit(init, drawn) => P.OnSessionInit(me, peer, n, init, drawn).1
      case _ => []
  }

  /** The queued envelopes of the session protocol. */
  function Frames(box: map<RowKey, Frame>): map<RowKey, Frame> {
    map k | k in box && (box[k].InitFrame? || box[k].AckFrame?) :: box[k]
  }

  function DrawOf(e: ChatInvariant.Event): Option<Draw> {
    match e
    case SendsText(_, _, _, d) => Some(d)
    case SendsSealed(_, _, _, _, d) => Some(d)
    case GetsChat(_, _, _, _, d) => Some(d)
    case GetsSealed(_, _, _, d) => Some(d)
    case GetsInit(_, _, d) => Some(d)
    case GetsInitAck(_, _, d) => Some(d)
    case _ => None
  }

  /** The peer's node makes the moves, the outbox gains their wires, and no other peer is touched. */
  ghost predicate Follows(me: Identity, s: Store, p: PeerId, mid: MsgId, ms: seq<Move>, t: Store) {
    && |ms| <= 2 && NodeOf(t, p) == AfterMoves(me, p, NodeOf(s, p), ms) && OnlyAbout(s, t, p)
    && Frames(t.outbox) == Sent(Frames(s.outbox), (p, mid), WiresOf(me, p, NodeOf(s, p), ms))
  }

  lemma TwoMoves(me: Identity, p: PeerId, n: P.Node, m: Move, rest: seq<Move>)
    requires |rest| <= 1
    ensures AfterMoves(me, p, n, rest) == if rest == [] then n else Moved(me, p, n, rest[0])
    ensures AfterMoves(me, p, n, [m] + rest)
         == if rest == [] then Moved(me, p, n, m) else Moved(me, p, Moved(me, p, n, m), rest[0])
  {
    assert AfterMoves(me, p, n, []) == n;
    assert AfterMoves(me, p, n, [m]) == Moved(me, p, n, m);
    if |rest| == 1 {
      assert rest[..0] == [] && ([m] + rest)[..1] == [m];
    }
  }

  lemma NoMoves(me: Identity, s: Store, p: PeerId, mid: MsgId, t: Store)
    requires t.sessions == s.sessions && t.handshakes == s.handshakes && Frames(t.outbox) == Frames(s.outbox)
    ensures Follows(me, s, p, mid, [], t)
  {
  }

  /** Draining queues texts only. */
  lemma {:induction false} DrainFrames(s: Store, st: StateV, ks: seq<RowKey>, t: Store, st': StateV)
    requires DrainList(s, st, ks) == Ok((t, st'))
    ensures Frames(t.outbox) == Frames(s.outbox)
  {
    if ks != [] {
      var (s1, st1) := DrainList(s, st, ks[..|ks| - 1]).value;
      DrainFrames(s, st, ks[..|ks| - 1], s1, st1);
    }
  }

  lemma DrainAndSaveFrames(s: Store, p: PeerId, st: StateV, t: Store)
    requires DrainAndSave(s, p, st) == Ok(t)
    ensures Frames(t.outbox) == Frames(s.outbox)
  {
    var (s1, st1) := DrainPending(s, p, st).value;
    if st.hasCKs {
      DrainFrames(s.(pending := Pending.Except(s.pending, p)), st, Pending.Take(s.pending, p), s1, st1);
    }
  }

  lemma SentFrames(box: map<RowKey, Frame>, k: RowKey, ws: seq<P.Wire>)
    ensures Frames(Sent(box, k, ws)) == Sent(Frames(box), k, ws)
  {
  }

  lemma StartsMove(me: Identity, s: Store, s1: Store, to: PeerId, d: Draw, t: Store)
    requires s1.handshakes == s.handshakes && s1.sessions == s.sessions && s1.outbox == s.outbox
    requires EnsureHandshake(me, s1, to, d) == Ok(t)
    ensures Follows(me, s, to, d.serviceMid, [Starts(d.eph, d.sid)], t)
  {
    HandshakeRefines(me, s1, to, d, t);
    hide EnsureHandshake, AfterMoves, Frames, Sent;
    TwoMoves(me, to, NodeOf(s, to), Starts(d.eph, d.sid), []);
    SentFrames(s.outbox, (to, d.serviceMid), P.EnsureHandshake(me, NodeOf(s, to), d.eph, d.sid).1);
    assert NodeOf(s1, to) == NodeOf(s, to);
    assert OnlyAbout(s, t, to);
    hide P.EnsureHandshake, OnlyAbout, NodeOf;
  }

  lemma TalksMove(me: Identity, s: Store, t: Store, p: PeerId, mid: MsgId)
    requires p in s.sessions && p in t.sessions && t.sessions[p].ad == s.sessions[p].ad
    requires t.handshakes == s.handshakes && OnlyAbout(s, t, p) && Frames(t.outbox) == Frames(s.outbox)
    ensures Follows(me, s, p, mid, Talking(t, p), t)
  {
    TwoMoves(me, p, NodeOf(s, p), Talks(t.sessions[p]), []);
  }

  lemma TextFrames(s: Store, st: StateV, k: RowKey, row: Row, body: Bytes, t: Store, st': StateV)
    requires EncryptEnqueue(s, st, k, row, body) == Ok((t, st'))
    ensures t == s.(outbox := t.outbox) && Frames(t.outbox) == Frames(s.outbox) && st'.ad == st.ad
  {
  }

  /** A session saved with its binding. */
  lemma SavedMoves(me: Identity, s: Store, s1: Store, p: PeerId, st: StateV, mid: MsgId)
    requires p in s.sessions && st.ad == s.sessions[p].ad && s1.sessions == s.sessions && s1.handshakes == s.handshakes
    requires Frames(s1.outbox) == Frames(s.outbox)
    ensures Follows(me, s, p, mid, Talking(SaveSession(s1, p, st), p), SaveSession(s1, p, st))
  {
    hide Frames, AfterMoves, Follows;
    TalksMove(me, s, SaveSession(s1, p, st), p, mid);
  }

  lemma SendNowMoves(me: Identity, s: Store, to: PeerId, text: Bytes, d: Draw, t: Store)
    requires SendText(me, s, true, to, text, d) == Ok(t) && to in s.sessions && s.sessions[to].hasCKs
    ensures Follows(me, s, to, d.serviceMid, Talking(t, to), t)
  {
    hide EncryptEnqueue, Frames, AfterMoves, Follows, Talking, SaveSession;
    var k := (to, d.mid);
    var seqNo := (if to in s.seqNos then s.seqNos[to] else 0) + 1;
    var row := Row(Some(text), Queued, false, seqNo, s.lamport + 1);
    var s1 := s.(seqNos := s.seqNos[to := seqNo], lamport := s.lamport + 1,
                 messages := if k in s.messages then s.messages else s.messages[k := row]);
    var (s2, st) := EncryptEnqueue(s1, s.sessions[to], k, row, text).value;
    TextFrames(s1, s.sessions[to], k, row, text, s2, st);
    SavedMoves(me, s, s2, to, st, d.serviceMid);
  }

  lemma SendTextMoves(me: Identity, s: Store, to: PeerId, text: Bytes, d: Draw, t: Store)
    requires SendText(me, s, true, to, text, d) == Ok(t)
    ensures Follows(me, s, to, d.serviceMid, SendMoves(s, t, to, d), t)
  {
    hide AfterMoves, Moved, EnsureHandshake, Follows, EncryptEnqueue;
    if to !in s.sessions || !s.sessions[to].hasCKs {
      var k := (to, d.mid);
      var seqNo := (if to in s.seqNos then s.seqNos[to] else 0) + 1;
      var row := Row(Some(text), Queued, false, seqNo, s.lamport + 1);
      var s1 := s.(seqNos := s.seqNos[to := seqNo], lamport := s.lamport + 1,
                   messages := if k in s.messages then s.messages else s.messages[k := row],
                   pending := Pending.Add(s.pending, k, d.now));
      assert EnsureHandshake(me, s1, to, d) == Ok(t);
      StartsMove(me, s, s1, to, d, t);
    } else {
      SendNowMoves(me, s, to, text, d, t);
    }
  }

  lemma SendSealedMoves(me: Identity, s: Store, to: PeerId, kind: nat, plain: Bytes, d: Draw, t: Store)
    requires SendSealed(me, s, true, to, kind, plain, d) == Ok(t)
    ensures Follows(me, s, to, d.serviceMid, SendMoves(s, t, to, d), t)
  {
    hide AfterMoves, Moved, EnsureHandshake, Follows;
    if to !in s.sessions || !s.sessions[to].hasCKs {
      StartsMove(me, s, s, to, d, t);
    } else {
      TalksMove(me, s, t, to, d.serviceMid);
    }
  }

  lemma OnChatMoves(me: Identity, s: Store, from: PeerId, mid: MsgId, stamp: nat, m: Option<Message>, d: Draw, t: Store)
    requires ChatInvariant.Inv(s) && OnChat(me, s, from, mid, stamp, m, d) == Ok(t)
    ensures Follows(me, s, from, d.serviceMid, ReadMoves(s, t, from, m, d), t)
  {
    hide AfterMoves, Moved, EnsureHandshake, DecryptV, DrainAndSave, Follows, Frames;
    if m.None? {
      NoMoves(me, s, from, d.serviceMid, t);
    } else if from in s.sessions && DecryptV(s.sessions[from], d.ratchetKey, m.value).Ok? {
      var (plain, st) := DecryptV(s.sessions[from], d.ratchetKey, m.value).value;
      DecryptKeeps(s.sessions[from], d.ratchetKey, m.value);
      var s1 := s.(lamport := Lamport.Observed(s.lamport, stamp),
                   received := if (from, mid) in s.received then s.received else s.received[(from, mid) := plain]);
      DrainRefines(s1, from, st, t);
      DrainAndSaveFrames(s1, from, st, t);
      TalksMove(me, s, t, from, d.serviceMid);
    } else {
      StartsMove(me, s, s, from, d, t);
    }
  }

  lemma OnSealedMoves(me: Identity, s: Store, from: PeerId, handled: bool, m: Option<Message>, d: Draw, t: Store)
    requires ChatInvariant.Inv(s) && OnSealed(me, s, from, handled, m, d) == Ok(t)
    ensures Follows(me, s, from, d.serviceMid, ReadMoves(s, t, from, m, d), t)
  {
    hide AfterMoves, Moved, EnsureHandshake, DecryptV, DrainAndSave, Follows, Frames;
    if m.None? {
      NoMoves(me, s, from, d.serviceMid, t);
    } else if from in s.sessions && DecryptV(s.sessions[from], d.ratchetKey, m.value).Ok? {
      var (_, st) := DecryptV(s.sessions[from], d.ratchetKey, m.value).value;
      DecryptKeeps(s.sessions[from], d.ratchetKey, m.value);
      DrainRefines(s, from, st, t);
      DrainAndSaveFrames(s, from, st, t);
      TalksMove(me, s, t, from, d.serviceMid);
    } else {
      StartsMove(me, s, s, from, d, t);
    }
  }

  lemma InitMoves(me: Identity, s: Store, from: PeerId, init: Init, d: Draw, t: Store)
    requires OnSessionInit(me, s, from, Some(init), d) == Ok(t)
    ensures Follows(me, s, from, d.serviceMid, [TakesInit(init, d.eph)], t)
  {
    InitRefines(me, s, from, init, d, t);
    TwoMoves(me, from, NodeOf(s, from), TakesInit(init, d.eph), []);
    SentFrames(s.outbox, (from, d.serviceMid), P.OnSessionInit(me, from, NodeOf(s, from), init, d.eph).1);
    hide OnSessionInit, P.OnSessionInit, AfterMoves, Frames;
  }

  lemma AckMoves(me: Identity, s: Store, from: PeerId, ack: InitAck, d: Draw, t: Store)
    requires OnSessionInitAck(me, s, from, Some(ack), d) == Ok(t)
    ensures Follows(me, s, from, d.serviceMid, [TakesAck(ack, d.ratchetKey)] + Talking(t, from), t)
  {
    AckRefines(me, s, from, ack, d, t);
    if from in s.handshakes && Finish(s.handshakes[from], d.ratchetKey, ack, me.id, from).Ok? {
      var begun := Finish(s.handshakes[from], d.ratchetKey, ack, me.id, from).value;
      DrainAndSaveFrames(s.(handshakes := s.handshakes - {from}), from, begun, t);
    }
    hide OnSessionInitAck, P.OnSessionInitAck, AfterMoves, Frames;
    TwoMoves(me, from, NodeOf(s, from), TakesAck(ack, d.ratchetKey), Talking(t, from));
  }

  /**
   Every event makes exactly its protocol steps with its peer: the peer's node moves by them, their
   envelopes and no others are queued, and nothing is done to any other peer.
   */
  lemma FollowsProtocol(me: Identity, s: Store, e: ChatInvariant.Event)
    requires ChatInvariant.Inv(s) && !e.GetsAck?
    ensures var mid := match DrawOf(e) case Some(d) => d.serviceMid case None => [];
      Follows(me, s, PeerOf(e), mid, MovesOf(me, s, e), ChatInvariant.Step(me, s, e))
  {
    var p, t := PeerOf(e), ChatInvariant.Step(me, s, e);
    hide Follows, SendText, SendSealed, OnChat, OnSealed, OnSessionInit, OnSessionInitAck, Frames, SendMoves, ReadMoves;
    if ChatInvariant.Attempt(me, s, e).Err? {
      NoMoves(me, s, p, match DrawOf(e) case Some(d) => d.serviceMid case None => [], t);
    } else {
      match e
      case SendsText(canSend, to, text, d) =>
        SendOk(me, s, canSend, to, text, d);
        SendTextMoves(me, s, to, text, d, t);
      case SendsSealed(canSend, to, kind, plain, d) =>
        SealedOk(me, s, canSend, to, kind, plain, d);
        SendSealedMoves(me, s, to, kind, plain, d, t);
      case GetsChat(from, mid, stamp, m, d) => OnChatMoves(me, s, from, mid, stamp, m, d, t);
      case GetsSealed(from, handled, m, d) => OnSealedMoves(me, s, from, handled, m, d, t);
      case GetsInit(from, init, d) =>
        if init.Some? {
          InitMoves(me, s, from, init.value, d, t);
        } else {
          Ignored(me, s, from, d);
          NoMoves(me, s, p, d.serviceMid, t);
        }
      case GetsInitAck(from, ack, d) =>
        if ack.Some? {
          AckMoves(me, s, from, ack.value, d, t);
        } else {
          Ignored(me, s, from, d);
          NoMoves(me, s, p, d.serviceMid, t);
        }
      case _ => NoMoves(me, s, p, [], t);
    }
  }

  lemma SendOk(me: Identity, s: Store, canSend: bool, to: PeerId, text: Bytes, d: Draw)
    requires SendText(me, s, canSend, to, text, d).Ok?
    ensures canSend
  {
  }

  lemma SealedOk(me: Identity, s: Store, canSend: bool, to: PeerId, kind: nat, plain: Bytes, d: Draw)
    requires SendSealed(me, s, canSend, to, kind, plain, d).Ok?
    ensures canSend
  {
  }

  lemma Ignored(me: Identity, s: Store, from: PeerId, d: Draw)
    ensures OnSessionInit(me, s, from, None, d) == Ok(s) && OnSessionInitAck(me, s, from, None, d) == Ok(s)
  {
  }

  /** An acknowledged envelope leaves the queue; sessions and handshakes stay. */
  lemma AckedFrames(s: Store, k: RowKey)
    ensures var t := Settle(s, k);
      t.sessions == s.sessions && t.handshakes == s.handshakes && Frames(t.outbox) == Frames(s.outbox) - {k}
  {
  }
}
