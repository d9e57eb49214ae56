/**
 Decrypt in a two-party session. Safety: what it accepts was sent to this party and not read
 before, except in a chain that has no key yet. Liveness: with at most MAX_SKIP undelivered
 messages it accepts every such message.
 */
module RatchetReads {
  import opened Prelude
  import opened RatchetCrypto
  import opened Ratchet
  import opened RatchetSession
  import opened RatchetSteps

  /**
   What the network can put in front of Decrypt: a ciphertext taken from the session under any
   header, or one sealed under any key that is not derived from the session's secret.
   */
  ghost predicate Possible(h: History, m: Message) {
    m.ct.Sealed? ==>
      || (exists k: nat, n: nat :: At(h, k, n) && m.ct == h.chains[k][n].ct)
      || Origin(m.ct.mk) != h.sk
  }

  /** m is on its way to who: sent by the other party and not read yet. */
  ghost predicate Awaits(h: History, who: nat, m: Message) {
    m !in h.delivered && exists k: nat, n: nat :: At(h, k, n) && k % 2 != who && m == h.chains[k][n]
  }

  /** Whatever opens under a session key is, header and all, a message that was sent. */
  lemma OpenedWasSent(h: History, m: Message, mk: Key) returns (k: nat, n: nat)
    requires HistoryOk(h) && Possible(h, m)
    requires Origin(mk) == h.sk
    requires Open(mk, m.ct, Aad(h.ad, m.dh, m.pn, m.n)).Some?
    ensures At(h, k, n) && m == h.chains[k][n] && mk == KeyAt(h, k, n)
  {
    k, n :| At(h, k, n) && m.ct == h.chains[k][n].ct;
    HeaderIdentifies(h, k, n, m);
    assert MessageOk(h, k, n);
  }

  /** A chain is known by the root key it starts from. */
  lemma ChainIndex(h: History, k: nat, n: nat, s: nat, dh: Shared, i: nat)
    requires HistoryOk(h) && k + 1 < |h.keys| && s < |h.keys|
    requires KeyAt(h, k, n) == MsgKey(Advance(FirstChain(Root(h.sk, h.keys, s), dh), i))
    ensures k == s && n == i
  {
    AdvanceInjective(ChainStart(h, k), n, FirstChain(Root(h.sk, h.keys, s), dh), i);
    RootDepthIs(h.sk, h.keys, k);
    RootDepthIs(h.sk, h.keys, s);
  }

  /** What opens under a key of the chain that starts from root k0 was sent on chain k0. */
  lemma OpenedAt(h: History, m: Message, k0: nat, dh: Shared, n0: nat)
    requires HistoryOk(h) && Possible(h, m) && k0 < |h.keys|
    requires Open(MsgKey(Advance(FirstChain(Root(h.sk, h.keys, k0), dh), n0)), m.ct, Aad(h.ad, m.dh, m.pn, m.n)).Some?
    ensures At(h, k0, n0) && m == h.chains[k0][n0] && m.n == n0
  {
    var ck := FirstChain(Root(h.sk, h.keys, k0), dh);
    AdvanceOrigin(ck, n0);
    RootDepthIs(h.sk, h.keys, k0);
    var k, n := OpenedWasSent(h, m, MsgKey(Advance(ck, n0)));
    ChainIndex(h, k, n, k0, dh, n0);
    assert MessageOk(h, k, n);
  }

  // ----- the DH step -----

  lemma TurnStored(h: History, drawn: Priv, who: nat, s: int, nr: nat, es: seq<Skipped>)
    requires HistoryOk(h) && -1 <= s && s + 2 == |h.chains| && s % 2 == who
    requires StoredOk(h, who, s, nr, es)
    ensures StoredOk(Extended(h, drawn), who, s + 2, 0, es)
    ensures StoredAll(h, who, s, nr, es) && (s >= 1 ==> nr >= |h.chains[s - 1]|) ==>
              StoredAll(Extended(h, drawn), who, s + 2, 0, es)
  {
    var h1 := Extended(h, drawn);
    ExtendStored(h, drawn, who, s, nr, es);
    forall e | e in es
      ensures IsPendingEntry(h1, who, s + 2, 0, e)
    {
      assert IsPendingEntry(h1, who, s, nr, e);
      var k: nat, n: nat :| Pending(h1, who, s, nr, k, n) && e == Entry(h1, k, n);
      assert Pending(h1, who, s + 2, 0, k, n);
    }
    if StoredAll(h, who, s, nr, es) && (s >= 1 ==> nr >= |h.chains[s - 1]|) {
      forall k: nat, n: nat | Pending(h1, who, s + 2, 0, k, n)
        ensures Entry(h1, k, n) in es
      {
        assert k <= s - 1;
        assert Pending(h1, who, s, nr, k, n);
      }
    }
  }

  /** The chains opened by a DH step to the key of chain s + 1 are the specified ones. */
  lemma TurnKeys(h: History, drawn: Priv, s: int, v: StateV)
    requires HistoryOk(h) && -1 <= s && s + 2 == |h.chains| && Sending(h, s, v)
    ensures DhRatchetV(v, drawn, PubOf(h.keys[s + 2])).Ok?
    ensures var h1 := Extended(h, drawn);
      var w := DhRatchetV(v, drawn, PubOf(h.keys[s + 2])).value;
      && Sending(h1, s + 2, w) && Receiving(h1, s + 2, w) && w.nr == 0
      && w.skipped == v.skipped && w.ad == v.ad && (WellFormed(v) ==> WellFormed(w))
  {
    var h1 := Extended(h, drawn);
    RootPrefix(h.sk, h.keys, drawn, s + 1);
    assert {h.keys[s + 1], h.keys[s + 2]} == {h1.keys[s + 1], h1.keys[s + 2]};
    assert Root(h1.sk, h1.keys, s + 2) == NextRoot(Root(h.sk, h.keys, s + 1), Shared({h1.keys[s + 1], h1.keys[s + 2]}));
    assert {drawn, h.keys[s + 2]} == {h1.keys[s + 2], h1.keys[s + 3]};
  }

  lemma TurnPassed(h: History, drawn: Priv, who: nat, s: int, nr: nat)
    requires HistoryOk(h) && DeliveredPassed(h, who, s, nr) && s % 2 == who && drawn !in h.keys
    ensures DeliveredPassed(Extended(h, drawn), who, s + 2, 0)
  {
    ExtendHistory(h, drawn);
    PassedCarries(h, Extended(h, drawn), who, s, nr, s + 2, 0);
  }

  /** The old receiving chain closed at its announced length. */
  lemma Closed(h: History, who: nat, s: int, v: StateV) returns (closed: StateV)
    requires HistoryOk(h) && PartyOk(h, who, s, v) && s + 2 == |h.chains|
    requires SkipToV(v, PreviousLength(h, s + 1)).Ok?
    ensures closed == SkipToV(v, PreviousLength(h, s + 1)).value && PartyOk(h, who, s, closed)
    ensures s >= 1 ==> closed.nr == |h.chains[s - 1]|
  {
    closed := SkipToV(v, PreviousLength(h, s + 1)).value;
    if s >= 1 {
      SkipKeeps(h, who, s, v, |h.chains[s - 1]|);
      hide StoredOk, DeliveredPassed;
    }
  }

  /** Closing the old receiving chain and turning the ratchet to chain s + 1. */
  lemma Turn(h: History, drawn: Priv, who: nat, s: int, v: StateV)
    requires HistoryOk(h) && PartyOk(h, who, s, v) && s + 2 == |h.chains| && drawn !in h.keys
    requires SkipToV(v, PreviousLength(h, s + 1)).Ok?
    ensures var closed := SkipToV(v, PreviousLength(h, s + 1)).value;
      var r := DhRatchetV(closed, drawn, PubOf(h.keys[s + 2]));
      && r.Ok? && CanSkip(Extended(h, drawn), who, s + 2, r.value) && r.value.nr == 0
      && Sending(Extended(h, drawn), s + 2, r.value) && r.value.ad == h.ad
      && (StoredAll(h, who, s, closed.nr, closed.skipped) ==>
           StoredAll(Extended(h, drawn), who, s + 2, 0, r.value.skipped))
  {
    var h1 := Extended(h, drawn);
    assert |h1.keys| == |h1.chains| + 1 == |h.keys| + 1 && who < 2;
    ExtendHistory(h, drawn);
    var closed := Closed(h, who, s, v);
    assert Sending(h, s, closed) && closed.ad == h.ad;
    TurnPassed(h, drawn, who, s, closed.nr);
    hide SkipToV, StoredOk, StoredAll, DeliveredPassed, DhRatchetV, WellFormed, Undelivered;
    TurnKeys(h, drawn, s, closed);
    TurnStored(h, drawn, who, s, closed.nr, closed.skipped);
    hide Sending, Receiving, HistoryOk;
  }

  // ----- Decrypt: what acceptance means -----

  /** The list of stored keys is right for what is pending once (s - 1, n), next in line, is read. */
  lemma ConsumeStored(h: History, who: nat, s: int, n: nat, es: seq<Skipped>)
    requires HistoryOk(h) && 1 <= s && s % 2 == who && At(h, s - 1, n)
    requires StoredOk(h, who, s, n, es) && DeliveredPassed(h, who, s, n)
    ensures var h' := Marked(h, h.chains[s - 1][n]);
      && StoredOk(h', who, s, n + 1, es) && DeliveredPassed(h', who, s, n + 1)
      && (StoredAll(h, who, s, n, es) ==> StoredAll(h', who, s, n + 1, es))
  {
    var k := s - 1;
    OtherEntries(h, who, s, n, es, k, n);
    StoredWiden(h, who, s, n, n + 1, es);
    MarkStored(h, k, n, who, s, n + 1, es);
    PassedCarries(h, h, who, s, n, s, n + 1);
    MarkDelivered(h, k, n, who, s, n + 1);
    hide StoredOk, DeliveredPassed, HistoryOk;
    forall k': nat, n': nat | Pending(h, who, s, n + 1, k', n') && (k', n') != (k, n)
      ensures Pending(h, who, s, n, k', n')
    {
    }
  }

  /** Decrypt's effect on the state when the key came from the live chain of r. */
  function Opened(r: StateV): StateV {
    r.(ckr := NextChain(r.ckr), nr := (r.nr + 1) % U32)
  }

  /** m, message n of chain s - 1, is read from the live chain of r. */
  lemma Consume(h: History, who: nat, s: int, r: StateV, n: nat)
    requires CanSkip(h, who, s, r) && r.nr == n && r.ad == h.ad
    requires s < |h.chains| && Sending(h, s, r) && At(h, s - 1, n)
    ensures h.chains[s - 1][n] !in h.delivered
    ensures PartyOk(Marked(h, h.chains[s - 1][n]), who, s, Opened(r))
    ensures StoredAll(h, who, s, n, r.skipped) ==>
              StoredAll(Marked(h, h.chains[s - 1][n]), who, s, n + 1, r.skipped)
  {
    hide StoredOk, StoredAll;
    var h' := Marked(h, h.chains[s - 1][n]);
    assert !Passed(h, who, s, n, s - 1, n);
    ConsumeStored(h, who, s, n, r.skipped);
    var w := Opened(r);
    assert Sending(h', s, w) && Receiving(h', s, w);
  }

  // Through a stored key.

  lemma LocateStored(h: History, who: nat, s: int, v: StateV, m: Message) returns (k: nat, n: nat)
    requires HistoryOk(h) && Possible(h, m) && StoredOk(h, who, s, v.nr, v.skipped)
    requires FindSkipped(v.skipped, m.dh, m.n) < |v.skipped|
    requires Open(v.skipped[FindSkipped(v.skipped, m.dh, m.n)].mk, m.ct, Aad(h.ad, m.dh, m.pn, m.n)).Some?
    ensures Pending(h, who, s, v.nr, k, n) && m == h.chains[k][n]
    ensures v.skipped[FindSkipped(v.skipped, m.dh, m.n)] == Entry(h, k, n)
  {
    var e := v.skipped[FindSkipped(v.skipped, m.dh, m.n)];
    assert IsPendingEntry(h, who, s, v.nr, e);
    k, n :| Pending(h, who, s, v.nr, k, n) && e == Entry(h, k, n);
    OpenedAt(h, m, k, Shared({h.keys[k], h.keys[k + 1]}), n);
  }

  lemma KeepStored(h: History, who: nat, s: int, v: StateV, k: nat, n: nat, i: nat)
    requires HistoryOk(h) && PartyOk(h, who, s, v) && Pending(h, who, s, v.nr, k, n)
    requires i < |v.skipped| && v.skipped[i] == Entry(h, k, n)
    ensures var h' := Marked(h, h.chains[k][n]); var w := v.(skipped := RemoveAt(v.skipped, i));
      && PartyOk(h', who, s, w)
      && (StoredAll(h, who, s, v.nr, v.skipped) ==> StoredAll(h', who, s, w.nr, w.skipped))
  {
    var h' := Marked(h, h.chains[k][n]);
    RemoveAtMembers(v.skipped, i);
    var es := RemoveAt(v.skipped, i);
    assert StoredOk(h, who, s, v.nr, es);
    MarkStored(h, k, n, who, s, v.nr, es);
    MarkDelivered(h, k, n, who, s, v.nr);
    forall k1: nat, n1: nat | Pending(h, who, s, v.nr, k1, n1) && (k1, n1) != (k, n)
      ensures Entry(h, k1, n1) != Entry(h, k, n)
    {
      if Entry(h, k1, n1) == Entry(h, k, n) {
        EntryUnique(h, k, n, k1, n1);
      }
    }
    var w := v.(skipped := es);
    assert Sending(h', s, w) && Receiving(h', s, w);
  }

  // On the chain being read.

  lemma LocateCurrent(h: History, s: int, v: StateV, m: Message)
    requires HistoryOk(h) && Possible(h, m) && s < |h.chains| && WellFormed(v)
    requires Receiving(h, s, v) && v.dhr == Some(m.dh) && !Unopened(v, m)
    requires SkipToV(v, m.n).Ok?
    requires Open(MsgKey(SkipToV(v, m.n).value.ckr), m.ct, Aad(h.ad, m.dh, m.pn, m.n)).Some?
    ensures s >= 1 && v.nr <= m.n && At(h, s - 1, m.n) && m == h.chains[s - 1][m.n]
  {
    var r := SkipToV(v, m.n).value;
    AdvanceAdd(ChainStart(h, s - 1), v.nr, r.nr - v.nr);
    assert MsgKey(r.ckr) == KeyAt(h, s - 1, r.nr);
    OpenedAt(h, m, s - 1, Shared({h.keys[s - 1], h.keys[s]}), r.nr);
  }

  /** Message n of the chain being read, once the skip has reached it. */
  lemma ReadAt(h: History, who: nat, s: int, v: StateV, n: nat)
    requires CanSkip(h, who, s, v) && v.ad == h.ad && s < |h.chains| && Sending(h, s, v)
    requires v.nr <= n && At(h, s - 1, n) && SkipToV(v, n).Ok?
    ensures var m := h.chains[s - 1][n]; var r := SkipToV(v, n).value;
      && m !in h.delivered && r.dhs == v.dhs && r.nr == n
      && PartyOk(Marked(h, m), who, s, Opened(r))
      && (StoredAll(h, who, s, n, r.skipped) ==> StoredAll(Marked(h, m), who, s, n + 1, r.skipped))
  {
    hide StoredAll, StoredOk, DeliveredPassed;
    SkipKeeps(h, who, s, v, n);
    var r := SkipToV(v, n).value;
    assert Sending(h, s, r) && r.ad == v.ad && r.dhs == v.dhs;
    hide SkipToV, CanSkip, Sending, PartyOk;
    Consume(h, who, s, r, n);
  }

  lemma KeepCurrent(h: History, who: nat, s: int, v: StateV, n: nat)
    requires HistoryOk(h) && PartyOk(h, who, s, v) && s >= 1 && v.nr <= n && At(h, s - 1, n)
    requires SkipToV(v, n).Ok?
    ensures var m := h.chains[s - 1][n]; var r := SkipToV(v, n).value;
      && m !in h.delivered && r.dhs == v.dhs && r.nr == n
      && PartyOk(Marked(h, m), who, s, Opened(r))
      && (StoredAll(h, who, s, n, r.skipped) ==> StoredAll(Marked(h, m), who, s, n + 1, r.skipped))
  {
    ReadAt(h, who, s, v, n);
  }

  // By turning the ratchet.

  /** The state after closing the old receiving chain and turning to the peer's key p. */
  function Turned(v: StateV, drawn: Priv, p: Pub, pn: nat): Result<StateV, Error>
    requires WellFormed(v)
  {
    match SkipToV(v, pn)
    case Err(e) => Err(e)
    case Ok(closed) => DhRatchetV(closed, drawn, p)
  }

  /** Decrypt by a DH step, taken apart: the chain whose key opened m starts from v's root key. */
  lemma TurnedChain(v: StateV, drawn: Priv, m: Message)
    requires WellFormed(v) && v.dhr != Some(m.dh)
    requires FindSkipped(v.skipped, m.dh, m.n) == |v.skipped| && DecryptV(v, drawn, m).Ok?
    ensures DH(v.dhs, m.dh).Some?
    ensures Open(MsgKey(Advance(FirstChain(v.rk, DH(v.dhs, m.dh).value), m.n)), m.ct,
                 Aad(v.ad, m.dh, m.pn, m.n)).Some?
    ensures var t := Turned(v, drawn, m.dh, m.pn);
      && t.Ok? && WellFormed(t.value) && SkipToV(t.value, m.n).Ok?
      && DecryptV(v, drawn, m).value.1 == Opened(SkipToV(t.value, m.n).value)
  {
  }

  lemma KeepTurn(h: History, who: nat, s: int, v: StateV, drawn: Priv, n: nat, t: StateV)
    requires HistoryOk(h) && PartyOk(h, who, s, v) && s + 2 == |h.chains| && drawn !in h.keys
    requires At(h, s + 1, n)
    requires Turned(v, drawn, PubOf(h.keys[s + 2]), PreviousLength(h, s + 1)) == Ok(t)
    requires WellFormed(t) && SkipToV(t, n).Ok?
    ensures var m := h.chains[s + 1][n]; var h1 := Extended(h, drawn); var r := SkipToV(t, n).value;
      && m !in h.delivered && r.dhs == drawn && r.nr == n
      && PartyOk(Marked(h1, m), who, s + 2, Opened(r))
      && (StoredAll(h1, who, s + 2, n, r.skipped) ==>
           StoredAll(Marked(h1, m), who, s + 2, n + 1, r.skipped))
  {
    var h1 := Extended(h, drawn);
    Turn(h, drawn, who, s, v);
    assert t.dhs == drawn && At(h1, s + 1, n);
    hide DhRatchetV, HistoryOk, PartyOk, CanSkip, StoredAll, WellFormed, SkipToV;
    ReadAt(h1, who, s + 2, t, n);
  }

  // ----- one network event -----

  /** After party who read m and became w; a new key pair of its own opens a new chain. */
  function AfterRead(s: Session, who: nat, m: Message, w: StateV): Session
    requires who < |s.states| && who < |s.cur|
  {
    var old' := s.states[who].dhs;
    Session(HistoryAfter(s.h, old', m, w.dhs), s.states[who := w],
            s.cur[who := CurrentAfter(s.cur[who], old', w.dhs)])
  }

  function HistoryAfter(h: History, old': Priv, m: Message, new': Priv): History {
    Marked(if new' == old' then h else Extended(h, new'), m)
  }

  function CurrentAfter(s: int, old': Priv, new': Priv): int {
    if new' == old' then s else s + 2
  }

  /** One party's view: h, sending chain and state before and after an accepted message. */
  ghost predicate AcceptedBy(h: History, who: nat, s: int, v: StateV, drawn: Priv, m: Message, w: StateV) {
    && |h.keys| == |h.chains| + 1
    && Awaits(h, who, m)
    && (w.dhs == v.dhs || (w.dhs == drawn && s + 2 == |h.chains|))
    && PartyOk(HistoryAfter(h, v.dhs, m, w.dhs), who, CurrentAfter(s, v.dhs, w.dhs), w)
    && CurrentAfter(s, v.dhs, w.dhs) >= 0
  }

  lemma AcceptStored(h: History, who: nat, s: int, v: StateV, drawn: Priv, m: Message)
    requires HistoryOk(h) && PartyOk(h, who, s, v) && Possible(h, m)
    requires FindSkipped(v.skipped, m.dh, m.n) < |v.skipped| && DecryptV(v, drawn, m).Ok?
    ensures AcceptedBy(h, who, s, v, drawn, m, DecryptV(v, drawn, m).value.1)
  {
    var k, n := LocateStored(h, who, s, v, m);
    KeepStored(h, who, s, v, k, n, FindSkipped(v.skipped, m.dh, m.n));
    assert DecryptV(v, drawn, m).value.1 == v.(skipped := RemoveAt(v.skipped, FindSkipped(v.skipped, m.dh, m.n)));
  }

  lemma AcceptCurrent(h: History, who: nat, s: int, v: StateV, drawn: Priv, m: Message)
    requires HistoryOk(h) && PartyOk(h, who, s, v) && Possible(h, m) && v.dhr == Some(m.dh) && !Unopened(v, m)
    requires FindSkipped(v.skipped, m.dh, m.n) == |v.skipped| && DecryptV(v, drawn, m).Ok?
    ensures AcceptedBy(h, who, s, v, drawn, m, DecryptV(v, drawn, m).value.1)
  {
    hide StoredOk, DeliveredPassed, SkipToV, DecryptV, Sending, StoredAll;
    CurrentRead(v, drawn, m);
    LocateCurrent(h, s, v, m);
    KeepCurrent(h, who, s, v, m.n);
  }

  lemma CurrentRead(v: StateV, drawn: Priv, m: Message)
    requires WellFormed(v) && v.dhr == Some(m.dh)
    requires FindSkipped(v.skipped, m.dh, m.n) == |v.skipped| && DecryptV(v, drawn, m).Ok?
    ensures SkipToV(v, m.n).Ok?
    ensures Open(MsgKey(SkipToV(v, m.n).value.ckr), m.ct, Aad(v.ad, m.dh, m.pn, m.n)).Some?
    ensures DecryptV(v, drawn, m).value.1 == Opened(SkipToV(v, m.n).value)
  {
  }

  lemma AcceptTurn(h: History, who: nat, s: int, v: StateV, drawn: Priv, m: Message)
    requires HistoryOk(h) && PartyOk(h, who, s, v) && Possible(h, m) && v.dhr != Some(m.dh)
    requires |h.chains| <= s + 2 && drawn !in h.keys
    requires FindSkipped(v.skipped, m.dh, m.n) == |v.skipped| && DecryptV(v, drawn, m).Ok?
    ensures AcceptedBy(h, who, s, v, drawn, m, DecryptV(v, drawn, m).value.1)
  {
    hide DecryptV, SkipToV, Turned;
    TurnedChain(v, drawn, m);
    OpenedAt(h, m, s + 1, DH(v.dhs, m.dh).value, m.n);
    assert MessageOk(h, s + 1, m.n);
    var t := Turned(v, drawn, m.dh, m.pn).value;
    KeepTurn(h, who, s, v, drawn, m.n, t);
    ByTurn(h, who, s, v, drawn, m, Opened(SkipToV(t, m.n).value));
  }

  lemma ByTurn(h: History, who: nat, s: int, v: StateV, drawn: Priv, m: Message, w: StateV)
    requires |h.keys| == |h.chains| + 1 && -1 <= s && s + 2 == |h.chains| && s % 2 == who
    requires At(h, s + 1, m.n) && m == h.chains[s + 1][m.n] && m !in h.delivered
    requires v.dhs != drawn && w.dhs == drawn && PartyOk(Marked(Extended(h, drawn), m), who, s + 2, w)
    ensures AcceptedBy(h, who, s, v, drawn, m, w)
  {
    assert At(h, s + 1, m.n) && (s + 1) % 2 != who;
  }

  /** Outside an unopened chain, whatever Decrypt accepts was on its way here, and yields its plaintext. */
  lemma AcceptedIsAwaited(h: History, who: nat, s: int, v: StateV, drawn: Priv, m: Message)
    requires HistoryOk(h) && PartyOk(h, who, s, v) && |h.chains| <= s + 2
    requires Possible(h, m) && drawn !in h.keys && DecryptV(v, drawn, m).Ok? && !Unopened(v, m)
    ensures m.ct.Sealed? && DecryptV(v, drawn, m).value.0 == m.ct.plain
    ensures AcceptedBy(h, who, s, v, drawn, m, DecryptV(v, drawn, m).value.1)
  {
    if FindSkipped(v.skipped, m.dh, m.n) < |v.skipped| {
      AcceptStored(h, who, s, v, drawn, m);
    } else if v.dhr == Some(m.dh) {
      AcceptCurrent(h, who, s, v, drawn, m);
    } else {
      AcceptTurn(h, who, s, v, drawn, m);
    }
  }

  // ----- an unopened chain -----

  /** m is sealed, header and all, under the key of a chain that was never opened. */
  predicate UnderUnset(v: StateV, m: Message) {
    Open(MsgKey(Unset), m.ct, Aad(v.ad, m.dh, m.pn, m.n)).Some?
  }

  lemma StoredNeedsChain(h: History, who: nat, s: int, nr: nat, es: seq<Skipped>, e: Skipped)
    requires |h.keys| == |h.chains| + 1 && StoredOk(h, who, s, nr, es) && e in es
    ensures s >= 1
  {
    assert IsPendingEntry(h, who, s, nr, e);
  }

  lemma NothingStored(h: History, who: nat, s: int, v: StateV)
    requires |h.keys| == |h.chains| + 1 && s < 1 && StoredOk(h, who, s, v.nr, v.skipped)
    ensures v.skipped == []
  {
    if v.skipped != [] {
      StoredNeedsChain(h, who, s, v.nr, v.skipped, v.skipped[0]);
    }
  }

  /**
   Until the receiving chain is open, a message that names it is accepted exactly when it is sealed
   under the unset key. It was sent by nobody, and of the stored state only the number moves.
   */
  lemma AcceptedUnopened(h: History, who: nat, s: int, v: StateV, drawn: Priv, m: Message)
    requires HistoryOk(h) && PartyOk(h, who, s, v) && Unopened(v, m)
    ensures var d := DecryptV(v, drawn, m);
      && (d.Ok? <==> UnderUnset(v, m))
      && (d.Ok? ==> d.value.0 == m.ct.plain && Reloaded(d.value.1) == v.(nr := (v.nr + 1) % U32))
    ensures !WasSent(h, m) && s == 0
  {
    NothingStored(h, who, s, v);
    if WasSent(h, m) {
      var k: nat, n: nat :| At(h, k, n) && m == h.chains[k][n];
      assert MessageOk(h, k, n);
      SamePosition(h.keys, 0, k + 1);
    }
  }

  /** Of the messages Decrypt accepts, exactly those outside an unopened chain were sent by the peer and unread. */
  lemma AcceptedExactly(h: History, who: nat, s: int, v: StateV, drawn: Priv, m: Message)
    requires HistoryOk(h) && PartyOk(h, who, s, v) && |h.chains| <= s + 2
    requires Possible(h, m) && drawn !in h.keys && DecryptV(v, drawn, m).Ok?
    ensures Awaits(h, who, m) <==> !Unopened(v, m)
    ensures m.ct.Sealed? && DecryptV(v, drawn, m).value.0 == m.ct.plain
  {
    hide DecryptV;
    if Unopened(v, m) {
      AcceptedUnopened(h, who, s, v, drawn, m);
      AwaitedWasSent(h, who, m);
    } else {
      AcceptedIsAwaited(h, who, s, v, drawn, m);
    }
  }

  lemma AwaitedWasSent(h: History, who: nat, m: Message)
    ensures Awaits(h, who, m) ==> WasSent(h, m)
  {
  }

  // ----- liveness -----

  /** Decrypt accepts m and afterwards still every pending message has its key. */
  ghost predicate ReadInFull(h: History, who: nat, s: int, v: StateV, drawn: Priv, m: Message)
    requires |h.keys| == |h.chains| + 1 && WellFormed(v)
  {
    var d := DecryptV(v, drawn, m);
    && d.Ok?
    && StoredAll(HistoryAfter(h, v.dhs, m, d.value.1.dhs), who, CurrentAfter(s, v.dhs, d.value.1.dhs),
                 d.value.1.nr, d.value.1.skipped)
  }

  /** The key found under a pending message's header is its own. */
  lemma FoundPending(h: History, who: nat, s: int, v: StateV, k: nat, n: nat)
    requires HistoryOk(h) && StoredOk(h, who, s, v.nr, v.skipped) && StoredAll(h, who, s, v.nr, v.skipped)
    requires Pending(h, who, s, v.nr, k, n)
    ensures var m := h.chains[k][n]; var i := FindSkipped(v.skipped, m.dh, m.n);
      i < |v.skipped| && v.skipped[i] == Entry(h, k, n)
  {
    var m := h.chains[k][n];
    assert MessageOk(h, k, n);
    assert Entry(h, k, n) in v.skipped;
    var i := FindSkipped(v.skipped, m.dh, m.n);
    assert IsPendingEntry(h, who, s, v.nr, v.skipped[i]);
    var k': nat, n': nat :| Pending(h, who, s, v.nr, k', n') && v.skipped[i] == Entry(h, k', n');
    SamePosition(h.keys, k + 1, k' + 1);
  }

  lemma DecryptByStored(h: History, v: StateV, drawn: Priv, k: nat, n: nat, i: nat)
    requires HistoryOk(h) && WellFormed(v) && v.ad == h.ad && At(h, k, n)
    requires i == FindSkipped(v.skipped, h.chains[k][n].dh, h.chains[k][n].n) < |v.skipped|
    requires v.skipped[i] == Entry(h, k, n)
    ensures var m := h.chains[k][n];
      m.ct.Sealed? && DecryptV(v, drawn, m) == Ok((m.ct.plain, v.(skipped := RemoveAt(v.skipped, i))))
  {
    assert MessageOk(h, k, n);
  }

  lemma LiveStored(h: History, who: nat, s: int, v: StateV, drawn: Priv, k: nat, n: nat)
    requires HistoryOk(h) && PartyOk(h, who, s, v) && StoredAll(h, who, s, v.nr, v.skipped)
    requires Pending(h, who, s, v.nr, k, n)
    ensures ReadInFull(h, who, s, v, drawn, h.chains[k][n])
  {
    var m := h.chains[k][n];
    var i := FindSkipped(v.skipped, m.dh, m.n);
    FoundPending(h, who, s, v, k, n);
    DecryptByStored(h, v, drawn, k, n, i);
    KeepStored(h, who, s, v, k, n, i);
    hide HistoryOk, StoredAll, DecryptV, StoredOk, DeliveredPassed;
  }

  /** A message not gone past has no stored key. */
  lemma NotStored(h: History, who: nat, s: int, v: StateV, k: nat, n: nat)
    requires HistoryOk(h) && StoredOk(h, who, s, v.nr, v.skipped)
    requires At(h, k, n) && !Pending(h, who, s, v.nr, k, n)
    ensures FindSkipped(v.skipped, h.chains[k][n].dh, h.chains[k][n].n) == |v.skipped|
  {
    var m := h.chains[k][n];
    var i := FindSkipped(v.skipped, m.dh, m.n);
    if i < |v.skipped| {
      assert MessageOk(h, k, n);
      assert IsPendingEntry(h, who, s, v.nr, v.skipped[i]);
      var k': nat, n': nat :| Pending(h, who, s, v.nr, k', n') && v.skipped[i] == Entry(h, k', n');
      SamePosition(h.keys, k + 1, k' + 1);
    }
  }

  lemma DecryptByCurrent(v: StateV, drawn: Priv, m: Message)
    requires WellFormed(v) && v.dhr == Some(m.dh) && FindSkipped(v.skipped, m.dh, m.n) == |v.skipped|
    requires SkipToV(v, m.n).Ok?
    requires Open(MsgKey(SkipToV(v, m.n).value.ckr), m.ct, Aad(v.ad, m.dh, m.pn, m.n)).Some?
    ensures DecryptV(v, drawn, m) == Ok((m.ct.plain, Opened(SkipToV(v, m.n).value)))
  {
  }

  /** The message under its number opens with the key that the skip reaches. */
  lemma OpensCurrent(h: History, who: nat, s: int, v: StateV, n: nat)
    requires HistoryOk(h) && PartyOk(h, who, s, v) && s >= 1 && v.nr <= n && At(h, s - 1, n) && SkipToV(v, n).Ok?
    ensures var m, r := h.chains[s - 1][n], SkipToV(v, n).value;
      && m.n == n && v.dhr == Some(m.dh) && n + 1 < U32 && m.ct.Sealed? && r.dhs == v.dhs && r.nr == n
      && Open(MsgKey(r.ckr), m.ct, Aad(v.ad, m.dh, m.pn, m.n)).Some?
  {
    assert MessageOk(h, s - 1, n);
    SkipKeeps(h, who, s, v, n);
  }

  lemma LiveCurrent(h: History, who: nat, s: int, v: StateV, drawn: Priv, n: nat)
    requires HistoryOk(h) && PartyOk(h, who, s, v) && StoredAll(h, who, s, v.nr, v.skipped)
    requires |Undelivered(h, who)| <= MAX_SKIP
    requires s >= 1 && v.nr <= n && At(h, s - 1, n)
    ensures ReadInFull(h, who, s, v, drawn, h.chains[s - 1][n])
  {
    assert !Passed(h, who, s, v.nr, s - 1, n);
    NotStored(h, who, s, v, s - 1, n);
    SkipComplete(h, who, s, v, n);
    OpensCurrent(h, who, s, v, n);
    KeepCurrent(h, who, s, v, n);
    DecryptByCurrent(v, drawn, h.chains[s - 1][n]);
    hide DecryptV, SkipToV, Open, HistoryOk, StoredAll, FindSkipped;
  }

  /** Within the bound the skip succeeds, keeps every key and reaches the message's own. */
  lemma Reaches(h: History, who: nat, s: int, v: StateV, n: nat)
    requires CanSkip(h, who, s, v) && StoredAll(h, who, s, v.nr, v.skipped) && |Undelivered(h, who)| <= MAX_SKIP
    requires s < |h.chains| && v.nr <= n && At(h, s - 1, n)
    ensures SkipToV(v, n).Ok?
    ensures var r := SkipToV(v, n).value;
      r.nr == n && MsgKey(r.ckr) == KeyAt(h, s - 1, n) && n + 1 < U32 && StoredAll(h, who, s, n, r.skipped)
  {
    hide SkipToV, StoredAll, Undelivered, StoredOk, DeliveredPassed;
    SkipComplete(h, who, s, v, n);
    SkipKeeps(h, who, s, v, n);
  }

  lemma LiveTurned(h: History, who: nat, s: int, v: StateV, drawn: Priv, n: nat)
    requires HistoryOk(h) && PartyOk(h, who, s, v)
    requires |Undelivered(h, who)| <= MAX_SKIP && drawn !in h.keys
    requires s + 2 == |h.chains| && At(h, s + 1, n)
    requires SkipToV(v, PreviousLength(h, s + 1)).Ok?
    requires var closed := SkipToV(v, PreviousLength(h, s + 1)).value; StoredAll(h, who, s, closed.nr, closed.skipped)
    ensures var t := Turned(v, drawn, PubOf(h.keys[s + 2]), PreviousLength(h, s + 1));
      var h1 := Extended(h, drawn);
      && t.Ok? && WellFormed(t.value) && SkipToV(t.value, n).Ok?
      && var r := SkipToV(t.value, n).value;
         r.nr == n && r.dhs == drawn && MsgKey(r.ckr) == KeyAt(h, s + 1, n)
         && n + 1 < U32
         && StoredAll(Marked(h1, h.chains[s + 1][n]), who, s + 2, n + 1, r.skipped)
  {
    var h1 := Extended(h, drawn);
    ExtendHistory(h, drawn);
    ExtendKeys(h, drawn, s + 1);
    Turn(h, drawn, who, s, v);
    var t := Turned(v, drawn, PubOf(h.keys[s + 2]), PreviousLength(h, s + 1)).value;
    assert WellFormed(t) && At(h1, s + 1, n);
    hide DhRatchetV, CanSkip, StoredAll, WellFormed, SkipToV, Undelivered, PartyOk;
    Reaches(h1, who, s + 2, t, n);
    assert Turned(v, drawn, PubOf(h.keys[s + 2]), PreviousLength(h, s + 1)) == Ok(t);
    hide HistoryOk, Turned;
    KeepTurn(h, who, s, v, drawn, n, t);
  }

  lemma DecryptByTurn(v: StateV, drawn: Priv, m: Message)
    requires WellFormed(v) && v.dhr != Some(m.dh)
    requires FindSkipped(v.skipped, m.dh, m.n) == |v.skipped|
    requires Turned(v, drawn, m.dh, m.pn).Ok? && WellFormed(Turned(v, drawn, m.dh, m.pn).value)
    requires SkipToV(Turned(v, drawn, m.dh, m.pn).value, m.n).Ok?
    requires var r := SkipToV(Turned(v, drawn, m.dh, m.pn).value, m.n).value;
      Open(MsgKey(r.ckr), m.ct, Aad(v.ad, m.dh, m.pn, m.n)).Some?
    ensures DecryptV(v, drawn, m) ==
              Ok((m.ct.plain, Opened(SkipToV(Turned(v, drawn, m.dh, m.pn).value, m.n).value)))
  {
  }

  lemma ClosingComplete(h: History, who: nat, s: int, v: StateV)
    requires HistoryOk(h) && PartyOk(h, who, s, v) && StoredAll(h, who, s, v.nr, v.skipped)
    requires |Undelivered(h, who)| <= MAX_SKIP
    ensures SkipToV(v, PreviousLength(h, s + 1)).Ok?
    ensures var closed := SkipToV(v, PreviousLength(h, s + 1)).value;
      StoredAll(h, who, s, closed.nr, closed.skipped)
  {
    if s >= 1 {
      SkipComplete(h, who, s, v, |h.chains[s - 1]|);
      SkipKeeps(h, who, s, v, |h.chains[s - 1]|);
    }
  }

  lemma LiveTurn(h: History, who: nat, s: int, v: StateV, drawn: Priv, n: nat)
    requires HistoryOk(h) && PartyOk(h, who, s, v) && StoredAll(h, who, s, v.nr, v.skipped)
    requires |Undelivered(h, who)| <= MAX_SKIP && drawn !in h.keys
    requires s + 2 == |h.chains| && At(h, s + 1, n)
    ensures ReadInFull(h, who, s, v, drawn, h.chains[s + 1][n])
  {
    hide DecryptV, SkipToV, Turned, StoredAll, ReadInFull;
    var m := h.chains[s + 1][n];
    assert MessageOk(h, s + 1, n);
    NotStored(h, who, s, v, s + 1, n);
    ClosingComplete(h, who, s, v);
    LiveTurned(h, who, s, v, drawn, n);
    OtherKey(h, s, v, m);
    DecryptByTurn(v, drawn, m);
    var r := SkipToV(Turned(v, drawn, m.dh, m.pn).value, n).value;
    FullByTurn(h, who, s, v, drawn, m, Opened(r));
  }

  lemma FullByTurn(h: History, who: nat, s: int, v: StateV, drawn: Priv, m: Message, w: StateV)
    requires |h.keys| == |h.chains| + 1 && WellFormed(v) && v.dhs != drawn && w.dhs == drawn
    requires DecryptV(v, drawn, m).Ok? && DecryptV(v, drawn, m).value.1 == w
    requires StoredAll(Marked(Extended(h, drawn), m), who, s + 2, w.nr, w.skipped)
    ensures ReadInFull(h, who, s, v, drawn, m)
  {
  }

  lemma OtherKey(h: History, s: int, v: StateV, m: Message)
    requires HistoryOk(h) && -1 <= s && s + 2 < |h.keys| && Receiving(h, s, v)
    requires m.dh == PubOf(h.keys[s + 2])
    ensures v.dhr != Some(m.dh)
  {
    if v.dhr == Some(m.dh) {
      SamePosition(h.keys, s, s + 2);
    }
  }

  /** Within the bound, an awaited message is accepted and no stored key is lost. */
  lemma AwaitedIsAccepted(h: History, who: nat, s: int, v: StateV, drawn: Priv, m: Message)
    requires HistoryOk(h) && PartyOk(h, who, s, v) && StoredAll(h, who, s, v.nr, v.skipped)
    requires |Undelivered(h, who)| <= MAX_SKIP && drawn !in h.keys && |h.chains| <= s + 2
    requires Awaits(h, who, m)
    ensures ReadInFull(h, who, s, v, drawn, m)
  {
    var k: nat, n: nat :| At(h, k, n) && k % 2 != who && m == h.chains[k][n];
    hide ReadInFull, StoredAll;
    if Passed(h, who, s, v.nr, k, n) {
      LiveStored(h, who, s, v, drawn, k, n);
    } else if k == s - 1 {
      LiveCurrent(h, who, s, v, drawn, n);
    } else {
      assert k == s + 1;
      LiveTurn(h, who, s, v, drawn, n);
    }
  }
}
