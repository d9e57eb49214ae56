/** The interactive key agreement that creates a pair of ratchet states. */
module RatchetHandshake {
  import opened Prelude
  import opened RatchetCrypto
  import opened Ratchet
  import opened RatchetSession
  import opened RatchetRuns

  const SID_LEN: nat := 16

  /** The initiator's memory between Init and InitAck. */
  datatype Handshake = Handshake(ik: Priv, eph: Priv, sid: Bytes)

  datatype Init = Init(ik: Pub, eph: Pub, sid: Bytes)

  datatype InitAck = InitAck(ik: Pub, eph: Pub, sid: Bytes)

  function InitOf(h: Handshake): Init {
    Init(PubOf(h.ik), PubOf(h.eph), h.sid)
  }

  /** The initiator's state from the responder's answer; drawn is its first ratchet key. */
  function Finish(h: Handshake, drawn: Priv, ack: InitAck, self: PeerId, responder: PeerId): Result<StateV, Error> {
    if ack.sid != h.sid then Err(SidMismatch)
    else
      var dh1, dh2, dh3 := DH(h.ik, ack.eph), DH(h.eph, ack.ik), DH(h.eph, ack.eph);
      if dh1.None? || dh2.None? || dh3.None? then Err(Malformed)
      else
        var tr := Transcript(self, responder, PubOf(h.ik), ack.ik, PubOf(h.eph), ack.eph, h.sid);
        var sk := RootSK(dh1.value, dh2.value, dh3.value, tr);
        match DH(drawn, ack.eph)
        case None => Err(Malformed)
        case Some(out) =>
          Ok(StateV(NextRoot(sk, out), drawn, Some(ack.eph), FirstChain(sk, out), Unset,
                    true, false, 0, 0, 0, tr, []))
  }

  /** The responder's state and answer; drawn is its ephemeral key. */
  function AcceptHandshake(ik: Priv, drawn: Priv, init: Init, initiator: PeerId, self: PeerId)
    : Result<(StateV, InitAck), Error>
  {
    var dh1, dh2, dh3 := DH(drawn, init.ik), DH(ik, init.eph), DH(drawn, init.eph);
    if dh1.None? || dh2.None? || dh3.None? then Err(Malformed)
    else
      var tr := Transcript(initiator, self, init.ik, PubOf(ik), init.eph, PubOf(drawn), init.sid);
      var sk := RootSK(dh1.value, dh2.value, dh3.value, tr);
      Ok((StateV(sk, drawn, None, Unset, Unset, false, false, 0, 0, 0, tr, []),
          InitAck(PubOf(ik), PubOf(drawn), init.sid)))
  }

  function Marshal(h: Handshake): Bytes {
    h.eph.raw + h.sid
  }

  function Unmarshal(b: Bytes, ik: Priv): Result<Handshake, Error> {
    if |b| != 32 + SID_LEN then Err(Malformed) else Ok(Handshake(ik, Priv(b[..32]), b[32..]))
  }

  // ----- properties -----

  /** Run on the same init and ack, both sides get one binding and one secret. */
  lemma SameSecret(h: Handshake, ikR: Priv, ephR: Priv, drawn: Priv, a: PeerId, b: PeerId)
    ensures AcceptHandshake(ikR, ephR, InitOf(h), a, b).Ok?
    ensures var (r, ack) := AcceptHandshake(ikR, ephR, InitOf(h), a, b).value;
      && Finish(h, drawn, ack, a, b).Ok?
      && var i := Finish(h, drawn, ack, a, b).value;
         && i.ad == r.ad && i.rk == NextRoot(r.rk, Shared({ephR, drawn}))
         && i.cks == FirstChain(r.rk, Shared({ephR, drawn}))
  {
    DHCommutes(h.ik, ephR);
    DHCommutes(h.eph, ikR);
    DHCommutes(h.eph, ephR);
    DHCommutes(drawn, ephR);
    assert {ephR, drawn} == {drawn, ephR};
  }

  /** The responder's first DH step opens the very chain on which the initiator sends. */
  lemma FirstStep(h: Handshake, ikR: Priv, ephR: Priv, drawn: Priv, a: PeerId, b: PeerId, next: Priv)
    ensures var (r, ack) := AcceptHandshake(ikR, ephR, InitOf(h), a, b).value;
      var i := Finish(h, drawn, ack, a, b).value;
      var t := DhRatchetV(r, next, PubOf(i.dhs));
      t.Ok? && t.value.ckr == i.cks && t.value.dhr == Some(PubOf(i.dhs))
  {
    SameSecret(h, ikR, ephR, drawn, a, b);
  }

  /** Different roles, peers, keys or session ids give different bindings and secrets. */
  lemma BindingIsWhole(h: Handshake, ack: InitAck, drawn: Priv, a: PeerId, b: PeerId,
                       ikR: Priv, ephR: Priv, init: Init, a': PeerId, b': PeerId)
    requires Finish(h, drawn, ack, a, b).Ok? && AcceptHandshake(ikR, ephR, init, a', b').Ok?
    ensures var i := Finish(h, drawn, ack, a, b).value;
      var (r, ack') := AcceptHandshake(ikR, ephR, init, a', b').value;
      (i.ad == r.ad || i.rk.rk == r.rk) <==> (init == InitOf(h) && ack == ack' && a == a' && b == b')
  {
    if init == InitOf(h) && a == a' && b == b' {
      SameSecret(h, ikR, ephR, drawn, a, b);
    }
  }

  lemma NewbornSame(ik: Priv, drawn: Priv, init: Init, initiator: PeerId, self: PeerId)
    ensures var r := AcceptHandshake(ik, drawn, init, initiator, self); r.Ok? ==> Reloaded(r.value.0) == r.value.0
  {
  }

  /** The session a completed handshake starts: nothing sent, nothing read. */
  function Started(h: Handshake, ikR: Priv, ephR: Priv, drawn: Priv, a: PeerId, b: PeerId): Session {
    SameSecret(h, ikR, ephR, drawn, a, b);
    var (r, ack) := AcceptHandshake(ikR, ephR, InitOf(h), a, b).value;
    Session(History(r.rk, r.ad, [ephR, drawn], [[]], {}), [Finish(h, drawn, ack, a, b).value, r], [0, -1])
  }

  lemma StartedParty(h: Handshake, ikR: Priv, ephR: Priv, drawn: Priv, a: PeerId, b: PeerId)
    requires ephR != drawn
    ensures Inv(Started(h, ikR, ephR, drawn, a, b))
    ensures Complete(Started(h, ikR, ephR, drawn, a, b), 0) && Complete(Started(h, ikR, ephR, drawn, a, b), 1)
  {
    SameSecret(h, ikR, ephR, drawn, a, b);
    var s := Started(h, ikR, ephR, drawn, a, b);
    assert s.h.keys[0] == ephR && s.h.keys[1] == drawn;
    assert Root(s.h.sk, s.h.keys, 1) == NextRoot(Root(s.h.sk, s.h.keys, 0), Shared({s.h.keys[0], s.h.keys[1]}));
    assert PartyOk(s.h, 0, 0, s.states[0]);
    assert PartyOk(s.h, 1, -1, s.states[1]);
  }

  /**
   From a completed handshake on, over any run and outside an unopened chain: a message is accepted
   exactly when the peer sent it and it was not read before, with its plaintext, while at most
   MAX_SKIP per direction wait.
   */
  lemma SessionsWork(h: Handshake, ikR: Priv, ephR: Priv, drawn: Priv, a: PeerId, b: PeerId, es: seq<Event>)
    requires ephR != drawn && AllAllowed(Started(h, ikR, ephR, drawn, a, b), es)
    ensures AllSafe(Started(h, ikR, ephR, drawn, a, b), es)
    ensures AllInBound(Started(h, ikR, ephR, drawn, a, b), es) ==> AllExact(Started(h, ikR, ephR, drawn, a, b), es)
  {
    var s := Started(h, ikR, ephR, drawn, a, b);
    StartedParty(h, ikR, ephR, drawn, a, b);
    RunSafe(s, es);
    if AllInBound(s, es) {
      RunExact(s, es);
    }
  }

  /** A message sealed under the unset chain key: it depends on the binding and on no secret. */
  function Formed(s: Session, dh: Pub, n: nat, plain: Bytes): Message {
    Message(dh, 0, n, Sealed(MsgKey(Unset), Aad(s.h.ad, dh, 0, n), plain))
  }

  /**
   The case the rule leaves open: until the initiator has read a first message it accepts one that
   names the responder's handshake key and is sealed under the unset key, and the same one again.
   */
  lemma UnopenedAccepts(h: Handshake, ikR: Priv, ephR: Priv, drawn: Priv, a: PeerId, b: PeerId,
                        n: nat, plain: Bytes, first: Priv, again: Priv)
    requires ephR != drawn && first !in {ephR, drawn} && again !in {ephR, drawn}
    ensures var s := Started(h, ikR, ephR, drawn, a, b);
      var m := Formed(s, PubOf(ephR), n, plain);
      && Shaped(s) && Allowed(s, Net(0, m, first)) && !WasSent(s.h, m)
      && Answer(s, Net(0, m, first)).Ok? && Answer(s, Net(0, m, first)).value.0 == plain
      && var t := Step(s, Net(0, m, first));
         Shaped(t) && Answer(t, Net(0, m, again)).Ok?
  {
    var s := Started(h, ikR, ephR, drawn, a, b);
    var m := Formed(s, PubOf(ephR), n, plain);
    StartedParty(h, ikR, ephR, drawn, a, b);
    InvShaped(s);
    UnsetWasNotSent(s.h, m);
    UnopenedKeeps(s, 0, m, first);
    StepKeeps(s, Net(0, m, first));
    NeverAgain(s, [], 0, m, first, again);
  }

  /** Storing a handshake and reading it back loses nothing, and nothing else reads back to it. */
  lemma Persisted(h: Handshake, b: Bytes)
    requires |h.eph.raw| == 32 && |h.sid| == SID_LEN
    ensures Unmarshal(b, h.ik) == Ok(h) <==> b == Marshal(h)
  {
    if Unmarshal(b, h.ik) == Ok(h) {
      assert b == b[..32] + b[32..];
    }
  }
}
