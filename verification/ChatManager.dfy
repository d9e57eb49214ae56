/** The chat manager: every call works on a copy of the store and commits or discards it. */
module ChatManager {
  import opened Prelude
  import opened RatchetCrypto
  import opened Ratchet
  import opened RatchetState
  import opened RatchetHandshake
  import Chat
  import Lamport
  import Pending
  import SessionAgreement

  class Manager {
    const me: Chat.Identity
    var db: Chat.Store

    constructor (me: Chat.Identity, db: Chat.Store)
      ensures this.me == me && this.db == db
    {
      this.me := me;
      this.db := db;
    }

    /** The outcome of a call: the new store is committed, or the old one stays. */
    ghost predicate Committed(before: Chat.Store, spec: Result<Chat.Store, Chat.ChatError>,
                              r: Result<(), Chat.ChatError>)
      reads this
    {
      match spec
      case Err(e) => r == Err(e) && db == before
      case Ok(s) => r == Ok(()) && db == s
    }

    method EncryptEnqueue(tx: Chat.Store, st: State, k: Chat.RowKey, row: Chat.Row, body: Bytes)
      returns (r: Result<Chat.Store, Chat.ChatError>)
      modifies st
      ensures match Chat.EncryptEnqueue(tx, old(st.View()), k, row, body)
              case Err(e) => r == Err(e)
              case Ok((s, v)) => r == Ok(s) && st.View() == v
    {
      var m := st.Encrypt(body);
      if m.Err? {
        return Err(Chat.NoSession);
      }
      r := Chat.Enqueue(tx, k, Chat.ChatFrame(row.seqNo, row.lamport, m.value));
    }

    /** Encrypts the texts that waited for the session; st advances, saving it is the caller's. */
    method DrainPending(tx0: Chat.Store, to: PeerId, st: State) returns (r: Result<Chat.Store, Chat.ChatError>)
      modifies st
      ensures match Chat.DrainPending(tx0, to, old(st.View()))
              case Err(e) => r == Err(e)
              case Ok((s, v)) => r == Ok(s) && st.View() == v
    {
      if !st.hasCKs {
        return Ok(tx0);
      }
      var ks, rest := Pending.PendingChatTake(tx0.pending, to);
      var tx := tx0.(pending := rest);
      ghost var start, v0 := tx, st.View();
      for i := 0 to |ks|
        invariant Chat.DrainList(start, v0, ks[..i]) == Ok((tx, st.View()))
      {
        assert ks[..i + 1][..i] == ks[..i];
        var k := ks[i];
        if Chat.Sendable(tx, k) {
          var sent := EncryptEnqueue(tx, st, k, tx.messages[k], tx.messages[k].body.value);
          if sent.Err? {
            DrainFails(start, v0, ks, i + 1, sent.error);
            return Err(sent.error);
          }
          tx := sent.value;
        }
      }
      assert ks[..|ks|] == ks;
      r := Ok(tx);
    }

    method SendText(canSend: bool, to: PeerId, text: Bytes, d: Chat.Draw) returns (r: Result<(), Chat.ChatError>)
      modifies this`db
      ensures Committed(old(db), Chat.SendText(me, old(db), canSend, to, text, d), r)
    {
      if !canSend {
        return Err(Chat.PeerBlocked);
      }
      if text == [] {
        return Err(Chat.EmptyText);
      }
      if |text| > Chat.MAX_TEXT_LEN {
        return Err(Chat.TooLong);
      }
      var tx := db;
      var k := (to, d.mid);
      var seqNo := (if to in tx.seqNos then tx.seqNos[to] else 0) + 1;
      tx := tx.(seqNos := tx.seqNos[to := seqNo]);
      tx := tx.(lamport := tx.lamport + 1);
      var row := Chat.Row(Some(text), Queued, false, seqNo, tx.lamport);
      if k !in tx.messages {
        tx := tx.(messages := tx.messages[k := row]);
      }
      var done: Result<Chat.Store, Chat.ChatError>;
      if to !in tx.sessions || !tx.sessions[to].hasCKs {
        if k !in tx.pending {
          tx := tx.(pending := tx.pending[k := d.now]);
        }
        done := Chat.EnsureHandshake(me, tx, to, d);
      } else {
        var st := new State(tx.sessions[to]);
        done := EncryptEnqueue(tx, st, k, row, text);
        if done.Ok? {
          done := Ok(Chat.SaveSession(done.value, to, st.View()));
        }
      }
      if done.Err? {
        return Err(done.error);
      }
      db := done.value;
      r := Ok(());
    }

    /** A service payload of another module; without a session only the handshake is started. */
    method SendSealed(canSend: bool, to: PeerId, kind: nat, plain: Bytes, d: Chat.Draw)
      returns (r: Result<(), Chat.ChatError>)
      modifies this`db
      ensures Committed(old(db), Chat.SendSealed(me, old(db), canSend, to, kind, plain, d), r)
    {
      if !canSend {
        return Err(Chat.PeerBlocked);
      }
      var done: Result<Chat.Store, Chat.ChatError>;
      if to !in db.sessions || !db.sessions[to].hasCKs {
        done := Chat.EnsureHandshake(me, db, to, d);
      } else {
        var st := new State(db.sessions[to]);
        var m := st.Encrypt(plain);
        done := Chat.Enqueue(db, (to, d.mid), Chat.SealedFrame(kind, m.value));
        if done.Ok? {
          done := Ok(Chat.SaveSession(done.value, to, st.View()));
        }
      }
      if done.Err? {
        return Err(done.error);
      }
      db := done.value;
      r := Ok(());
    }

    /** handled: whether the module the payload is for takes it. */
    method OnSealed(from: PeerId, handled: bool, payload: Option<Message>, d: Chat.Draw)
      returns (r: Result<(), Chat.ChatError>)
      requires forall p :: p in db.sessions ==> WellFormed(db.sessions[p])
      modifies this`db
      ensures Committed(old(db), Chat.OnSealed(me, old(db), from, handled, payload, d), r)
    {
      if payload.None? {
        return Ok(());
      }
      var done: Result<Chat.Store, Chat.ChatError>;
      if from !in db.sessions {
        done := Chat.EnsureHandshake(me, db, from, d);
      } else {
        var st := new State(db.sessions[from]);
        var plain := st.Decrypt(d.ratchetKey, payload.value);
        if plain.Err? {
          done := Chat.EnsureHandshake(me, db, from, d);
        } else if !handled {
          return Err(Chat.HandlerFailed);
        } else {
          done := DrainPending(db, from, st);
          if done.Ok? {
            done := Ok(Chat.SaveSession(done.value, from, st.View()));
          }
        }
      }
      if done.Err? {
        return Err(done.error);
      }
      db := done.value;
      r := Ok(());
    }

    method OnChat(from: PeerId, mid: MsgId, stamp: nat, payload: Option<Message>, d: Chat.Draw)
      returns (r: Result<(), Chat.ChatError>)
      requires forall p :: p in db.sessions ==> WellFormed(db.sessions[p])
      modifies this`db
      ensures Committed(old(db), Chat.OnChat(me, old(db), from, mid, stamp, payload, d), r)
    {
      if payload.None? {
        return Ok(());
      }
      var tx := db;
      var done: Result<Chat.Store, Chat.ChatError>;
      if from !in tx.sessions {
        done := Chat.EnsureHandshake(me, tx, from, d);
      } else {
        var st := new State(tx.sessions[from]);
        var plain := st.Decrypt(d.ratchetKey, payload.value);
        if plain.Err? {
          done := Chat.EnsureHandshake(me, tx, from, d);
        } else {
          tx := tx.(lamport := Lamport.Observed(tx.lamport, stamp));
          if (from, mid) !in tx.received {
            tx := tx.(received := tx.received[(from, mid) := plain.value]);
          }
          done := DrainPending(tx, from, st);
          if done.Ok? {
            done := Ok(Chat.SaveSession(done.value, from, st.View()));
          }
        }
      }
      if done.Err? {
        return Err(done.error);
      }
      db := done.value;
      r := Ok(());
    }

    method OnSessionInit(from: PeerId, payload: Option<Init>, d: Chat.Draw) returns (r: Result<(), Chat.ChatError>)
      requires |from| == |me.id|
      modifies this`db
      ensures Committed(old(db), Chat.OnSessionInit(me, old(db), from, payload, d), r)
    {
      if payload.None? {
        return Ok(());
      }
      var smaller := SessionAgreement.Smaller(me.id, from);
      if from in db.handshakes && smaller {
        return Ok(());
      }
      var accepted := AcceptHandshake(me.ik, d.eph, payload.value, from, me.id);
      if accepted.Err? {
        return Ok(());
      }
      var tx := db;
      tx := tx.(handshakes := tx.handshakes - {from});
      var queued := Chat.Enqueue(tx, (from, d.serviceMid), Chat.AckFrame(accepted.value.1));
      if queued.Err? {
        return Err(queued.error);
      }
      db := Chat.SaveSession(queued.value, from, accepted.value.0);
      r := Ok(());
    }

    method OnSessionInitAck(from: PeerId, payload: Option<InitAck>, d: Chat.Draw)
      returns (r: Result<(), Chat.ChatError>)
      modifies this`db
      ensures Committed(old(db), Chat.OnSessionInitAck(me, old(db), from, payload, d), r)
    {
      if payload.None? || from !in db.handshakes {
        return Ok(());
      }
      var finished := Finish(db.handshakes[from], d.ratchetKey, payload.value, me.id, from);
      if finished.Err? {
        return Ok(());
      }
      var tx := db;
      tx := tx.(handshakes := tx.handshakes - {from});
      var st := new State(finished.value);
      var done := DrainPending(tx, from, st);
      if done.Err? {
        return Err(done.error);
      }
      db := Chat.SaveSession(done.value, from, st.View());
      r := Ok(());
    }

    method Delete(k: Chat.RowKey)
      modifies this`db
      ensures db == Chat.Delete(old(db), k)
    {
      if k in db.messages {
        var row := db.messages[k];
        db := db.(messages := db.messages[k := row.(deleted := true, body := None)]);
      }
    }
  }

  /** An error at one text is the error of the whole drain. */
  lemma {:induction false} DrainFails(s: Chat.Store, st: StateV, ks: seq<Chat.RowKey>, i: nat, e: Chat.ChatError)
    requires i <= |ks| && Chat.DrainList(s, st, ks[..i]) == Err(e)
    ensures Chat.DrainList(s, st, ks) == Err(e)
    decreases |ks| - i
  {
    if i < |ks| {
      assert ks[..i + 1][..i] == ks[..i];
      DrainFails(s, st, ks, i + 1, e);
    } else {
      assert ks[..i] == ks;
    }
  }
}
