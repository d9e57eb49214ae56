/**
 Personal dialogues: texts wait for a session in the pending queue, then travel through the
 outbox. Each handler is one transaction: a function from the stored state to the next one,
 or an error that leaves the stored state as it was.
 */
module Chat {
  import opened Prelude
  import opened RatchetCrypto
  import opened Ratchet
  import opened RatchetHandshake
  import Lamport
  import Pending
  import SessionAgreement

  const MAX_TEXT_LEN: nat := 0x8000

  type RowKey = Pending.RowKey

  /** An outgoing message of the history. */
  datatype Row = Row(body: Option<Bytes>, status: Status, deleted: bool, seqNo: nat, lamport: nat)

  datatype Frame =
    | ChatFrame(seqNo: nat, lamport: nat, m: Message)
    | SealedFrame(kind: nat, m: Message)
    | InitFrame(init: Init)
    | AckFrame(ack: InitAck)

  datatype Store = Store(
    messages: map<RowKey, Row>, received: map<RowKey, Bytes>, pending: Pending.Queue, outbox: map<RowKey, Frame>,
    sessions: map<PeerId, StateV>, handshakes: map<PeerId, Handshake>, seqNos: map<PeerId, nat>, lamport: nat)

  datatype ChatError = PeerBlocked | EmptyText | TooLong | NoSession | StoreConflict | HandlerFailed

  type Identity = SessionAgreement.Identity

  /** Everything a handler draws at random, and the clock it reads. */
  datatype Draw = Draw(mid: MsgId, serviceMid: MsgId, eph: Priv, sid: Bytes, ratchetKey: Priv, now: int)

  // ----- table operations -----

  /** The outbox has a unique index on (peer, msg_id). */
  function Enqueue(s: Store, k: RowKey, f: Frame): Result<Store, ChatError> {
    if k in s.outbox then Err(StoreConflict) else Ok(s.(outbox := s.outbox[k := f]))
  }

  function StatusUp(s: Store, k: RowKey, status: Status): Store {
    if k in s.messages && Rank(s.messages[k].status) < Rank(status)
    then s.(messages := s.messages[k := s.messages[k].(status := status)])
    else s
  }

  // ----- the handlers -----

  function EnsureHandshake(me: Identity, s: Store, to: PeerId, d: Draw): Result<Store, ChatError> {
    if to in s.handshakes then Ok(s)
    else
      var h := Handshake(me.ik, d.eph, d.sid);
      Enqueue(s.(handshakes := s.handshakes[to := h]), (to, d.serviceMid), InitFrame(InitOf(h)))
  }

  function EncryptEnqueue(s: Store, st: StateV, k: RowKey, row: Row, body: Bytes): Result<(Store, StateV), ChatError> {
    match EncryptV(st, body)
    case Err(_) => Err(NoSession)
    case Ok((m, next)) =>
      match Enqueue(s, k, ChatFrame(row.seqNo, row.lamport, m))
      case Err(e) => Err(e)
      case Ok(s') => Ok((s', next))
  }

  predicate Sendable(s: Store, k: RowKey) {
    k in s.messages && !s.messages[k].deleted && s.messages[k].body.Some?
  }

  /** Encrypts and enqueues the waiting texts ks in order; deleted ones are dropped. */
  function DrainList(s: Store, st: StateV, ks: seq<RowKey>): Result<(Store, StateV), ChatError> {
    if ks == [] then Ok((s, st))
    else
      match DrainList(s, st, ks[..|ks| - 1])
      case Err(e) => Err(e)
      case Ok((s1, st1)) =>
        var k := ks[|ks| - 1];
        if !Sendable(s1, k) then Ok((s1, st1))
        else EncryptEnqueue(s1, st1, k, s1.messages[k], s1.messages[k].body.value)
  }

  function DrainPending(s: Store, to: PeerId, st: StateV): Result<(Store, StateV), ChatError> {
    if !st.hasCKs then Ok((s, st))
    else DrainList(s.(pending := Pending.Except(s.pending, to)), st, Pending.Take(s.pending, to))
  }

  function SaveSession(s: Store, p: PeerId, st: StateV): Store {
    s.(sessions := s.sessions[p := Reloaded(st)])
  }

  function DrainAndSave(s: Store, to: PeerId, st: StateV): Result<Store, ChatError> {
    match DrainPending(s, to, st)
    case Err(e) => Err(e)
    case Ok((s1, st1)) => Ok(SaveSession(s1, to, st1))
  }

  function SendText(me: Identity, s: Store, canSend: bool, to: PeerId, text: Bytes, d: Draw): Result<Store, ChatError> {
    if !canSend then Err(PeerBlocked)
    else if text == [] then Err(EmptyText)
    else if |text| > MAX_TEXT_LEN then Err(TooLong)
    else
      var k := (to, d.mid);
      var seqNo := (if to in s.seqNos then s.seqNos[to] else 0) + 1;
      var row := Row(Some(text), Queued, false, seqNo, s.lamport + 1);
      var s1 := s.(seqNos := s.seqNos[to := seqNo], lamport := s.lamport + 1,
                   messages := if k in s.messages then s.messages else s.messages[k := row]);
      if to !in s.sessions || !s.sessions[to].hasCKs then
        EnsureHandshake(me, s1.(pending := Pending.Add(s1.pending, k, d.now)), to, d)
      else
        match EncryptEnqueue(s1, s.sessions[to], k, row, text)
        case Err(e) => Err(e)
        case Ok((s2, st)) => Ok(SaveSession(s2, to, st))
  }

  /** A service payload; without a session only the handshake is started. */
  function SendSealed(me: Identity, s: Store, canSend: bool, to: PeerId, kind: nat, plain: Bytes, d: Draw)
    : Result<Store, ChatError>
  {
    if !canSend then Err(PeerBlocked)
    else if to !in s.sessions || !s.sessions[to].hasCKs then EnsureHandshake(me, s, to, d)
    else
      var (m, st) := EncryptV(s.sessions[to], plain).value;
      match Enqueue(s, (to, d.mid), SealedFrame(kind, m))
      case Err(e) => Err(e)
      case Ok(s1) => Ok(SaveSession(s1, to, st))
  }

  /** Deleting erases the text; the row and the queue entries stay. */
  function Delete(s: Store, k: RowKey): Store {
    if k in s.messages then s.(messages := s.messages[k := s.messages[k].(deleted := true, body := None)]) else s
  }

  /** An incoming text; an undecodable one is eaten, an unreadable one starts a handshake. */
  function OnChat(me: Identity, s: Store, from: PeerId, mid: MsgId, stamp: nat, payload: Option<Message>, d: Draw)
    : Result<Store, ChatError>
    requires forall p :: p in s.sessions ==> WellFormed(s.sessions[p])
  {
    if payload.None? then Ok(s)
    else if from !in s.sessions then EnsureHandshake(me, s, from, d)
    else
      match DecryptV(s.sessions[from], d.ratchetKey, payload.value)
      case Err(_) => EnsureHandshake(me, s, from, d)
      case Ok((plain, st)) =>
        var k := (from, mid);
        var s1 := s.(lamport := Lamport.Observed(s.lamport, stamp),
                     received := if k in s.received then s.received else s.received[k := plain]);
        DrainAndSave(s1, from, st)
  }

  /** An incoming service payload; when its own handler fails, everything is rolled back. */
  function OnSealed(me: Identity, s: Store, from: PeerId, handled: bool, payload: Option<Message>, d: Draw)
    : Result<Store, ChatError>
    requires forall p :: p in s.sessions ==> WellFormed(s.sessions[p])
  {
    if payload.None? then Ok(s)
    else if from !in s.sessions then EnsureHandshake(me, s, from, d)
    else
      match DecryptV(s.sessions[from], d.ratchetKey, payload.value)
      case Err(_) => EnsureHandshake(me, s, from, d)
      case Ok((_, st)) => if handled then DrainAndSave(s, from, st) else Err(HandlerFailed)
  }

  /** The node with the smaller id stays the initiator and ignores the peer's init. */
  function OnSessionInit(me: Identity, s: Store, from: PeerId, payload: Option<Init>, d: Draw)
    : Result<Store, ChatError>
  {
    if payload.None? || (from in s.handshakes && SessionAgreement.Less(me.id, from)) then Ok(s)
    else
      match AcceptHandshake(me.ik, d.eph, payload.value, from, me.id)
      case Err(_) => Ok(s)
      case Ok((st, ack)) =>
        match Enqueue(s.(handshakes := s.handshakes - {from}), (from, d.serviceMid), AckFrame(ack))
        case Err(e) => Err(e)
        case Ok(s1) => Ok(SaveSession(s1, from, st))
  }

  function OnSessionInitAck(me: Identity, s: Store, from: PeerId, payload: Option<InitAck>, d: Draw)
    : Result<Store, ChatError>
  {
    if payload.None? || from !in s.handshakes then Ok(s)
    else
      match Finish(s.handshakes[from], d.ratchetKey, payload.value, me.id, from)
      case Err(_) => Ok(s)
      case Ok(st) => DrainAndSave(s.(handshakes := s.handshakes - {from}), from, st)
  }

  /** The peer acknowledged an envelope: it leaves the queue, its text counts as delivered. */
  function Settle(s: Store, k: RowKey): Store {
    if k in s.outbox then StatusUp(s.(outbox := s.outbox - {k}), k, Delivered) else s
  }

  /** The envelope went out to the network. */
  function WentOut(s: Store, k: RowKey): Store {
    StatusUp(s, k, Sent)
  }
}
