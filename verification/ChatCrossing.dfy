/**
 A text that counts as Delivered and was never read: the responder of a session writes before
 anything of the initiator has reached it, and its own handshake overtakes the initiator's texts.
 */
module ChatCrossing {
  import opened Prelude
  import opened RatchetCrypto
  import opened Ratchet
  import opened RatchetHandshake
  import opened Chat
  import ChatInvariant
  import opened ChatDelivery
  import ChatOrder
  import Pending
  import P = SessionAgreement

  predicate NewIds(n: Node, d: Draw) {
    d.mid != d.serviceMid && d.mid !in n.drawn && d.serviceMid !in n.drawn
  }

  lemma NewIdsFresh(peer: PeerId, n: Node, d: Draw)
    requires NodeInv(peer, n) && NewIds(n, d)
    ensures ChatInvariant.FreshDraw(n.s, peer, d)
  {
    assert OwnOk(peer, n, d.mid) && OwnOk(peer, n, d.serviceMid);
    assert ChatInvariant.KeyOk(n.s, (peer, d.mid)) && ChatInvariant.KeyOk(n.s, (peer, d.serviceMid));
  }

  /** Without a sending chain n writes: the text waits and n begins a handshake. */
  lemma Writes(me: Identity, peer: PeerId, n: Node, o: Node, text: Bytes, d: Draw)
    requires NodeInv(peer, n) && NewIds(n, d) && ChatOrder.MustWait(n.s, peer) && peer !in n.s.handshakes
    requires text != [] && |text| <= MAX_TEXT_LEN
    ensures var x, h := Local(ChatInvariant.SendsText(true, peer, text, d)), Handshake(me.ik, d.eph, d.sid);
      var n' := After(me, peer, n, x);
      && Possible(peer, n, o, x) && n'.s.handshakes == n.s.handshakes[peer := h] && n'.s.sessions == n.s.sessions
      && (peer, d.serviceMid) in n'.s.outbox && n'.s.outbox[(peer, d.serviceMid)] == InitFrame(InitOf(h))
      && n' == n.(s := n'.s, drawn := n.drawn + {d.mid, d.serviceMid}, wrote := n.wrote[d.mid := text])
      && (peer, d.mid) in n'.s.pending && Sendable(n'.s, (peer, d.mid))
  {
    NewIdsFresh(peer, n, d);
    hide ChatInvariant.KeyOk, InitOf;
  }

  /** n has begun no handshake and gets the peer's init. */
  lemma TakesInit(me: Identity, peer: PeerId, n: Node, o: Node, mid: MsgId, h: Handshake, d: Draw)
    requires NodeInv(peer, n) && NewIds(n, d) && peer !in n.s.handshakes && mid !in n.seen
    requires (mid, InitFrame(InitOf(h))) in o.out
    ensures AcceptHandshake(me.ik, d.eph, InitOf(h), peer, me.id).Ok?
    ensures var x, (st, ack) := Gets(mid, InitFrame(InitOf(h)), true, d),
                                AcceptHandshake(me.ik, d.eph, InitOf(h), peer, me.id).value;
      var n' := After(me, peer, n, x);
      && Possible(peer, n, o, x) && n'.s.handshakes == n.s.handshakes && n'.s.sessions == n.s.sessions[peer := st]
      && n'.s.outbox == n.s.outbox[(peer, d.serviceMid) := AckFrame(ack)]
      && n' == n.(s := n'.s, seen := n.seen + {mid}, acks := n'.acks, done := n.done + {mid},
                  drawn := n.drawn + {d.mid, d.serviceMid})
  {
    NewIdsFresh(peer, n, d);
    SameSecret(h, me.ik, d.eph, d.ratchetKey, peer, me.id);
    NewbornSame(me.ik, d.eph, InitOf(h), peer, me.id);
    hide AcceptHandshake, Reloaded, ChatInvariant.KeyOk, InitOf;
    assert n.s.handshakes - {peer} == n.s.handshakes;
  }

  /** What is drained is sealed under the session's binding. */
  lemma {:induction false} DrainBinding(s: Store, st: StateV, ks: seq<RowKey>, t: Store, st': StateV)
    requires DrainList(s, st, ks) == Ok((t, st'))
    ensures st'.ad == st.ad && forall k :: k in t.outbox && k !in s.outbox ==>
              t.outbox[k].ChatFrame? && t.outbox[k].m.ct.Sealed? && t.outbox[k].m.ct.aad.ad == st.ad
  {
    if ks != [] {
      var (s1, st1) := DrainList(s, st, ks[..|ks| - 1]).value;
      DrainBinding(s, st, ks[..|ks| - 1], s1, st1);
    }
  }

  lemma DrainSends(s: Store, p: PeerId, st: StateV)
    requires ChatInvariant.Inv(s) && WellFormed(st) && st.hasCKs
    ensures var r := DrainAndSave(s, p, st);
      && r.Ok? && r.value.handshakes == s.handshakes && p in r.value.sessions && r.value.sessions[p].ad == st.ad
      && forall mid :: (p, mid) in s.pending && Sendable(s, (p, mid)) ==>
           && (p, mid) in r.value.outbox && r.value.outbox[(p, mid)].ChatFrame?
           && r.value.outbox[(p, mid)].m.ct.Sealed? && r.value.outbox[(p, mid)].m.ct.aad.ad == st.ad
  {
    ChatInvariant.DrainKeeps(s, p, st);
    Pending.TakeMeaning(s.pending, p);
    var ks, s0 := Pending.Take(s.pending, p), s.(pending := Pending.Except(s.pending, p));
    forall k | k in ks
      ensures k !in s0.outbox
    {
      assert ChatInvariant.KeyOk(s, k);
    }
    ChatInvariant.DrainEffect(s0, st, ks);
    var (t, st') := DrainList(s0, st, ks).value;
    DrainBinding(s0, st, ks, t, st');
    hide DrainList, NoDup, WellFormed;
    forall mid | (p, mid) in s.pending && Sendable(s, (p, mid))
      ensures (p, mid) in t.outbox && (p, mid) !in s.outbox
    {
      assert ChatInvariant.Drained(s0, t, ks, (p, mid)) && ChatInvariant.KeyOk(s, (p, mid));
    }
  }

  /** n gets the answer to its handshake: it has the session, and the waiting texts go out under it. */
  lemma TakesAck(me: Identity, peer: PeerId, n: Node, o: Node, mid: MsgId, h: Handshake, ack: InitAck, d: Draw)
    requires NodeInv(peer, n) && NewIds(n, d) && peer in n.s.handshakes && n.s.handshakes[peer] == h && mid !in n.seen
    requires (mid, AckFrame(ack)) in o.out && Finish(h, d.ratchetKey, ack, me.id, peer).Ok?
    ensures var x := Gets(mid, AckFrame(ack), true, d);
      var n' := After(me, peer, n, x);
      && Possible(peer, n, o, x) && n'.s.handshakes == n.s.handshakes - {peer}
      && peer in n'.s.sessions && n'.s.sessions[peer].ad.initiator == me.id
      && n' == n.(s := n'.s, seen := n.seen + {mid}, acks := n'.acks, done := n.done + {mid},
                  drawn := n.drawn + {d.mid, d.serviceMid})
      && forall m :: (peer, m) in n.s.pending && Sendable(n.s, (peer, m)) ==>
           && (peer, m) in n'.s.outbox && n'.s.outbox[(peer, m)].ChatFrame?
           && n'.s.outbox[(peer, m)].m.ct.Sealed? && n'.s.outbox[(peer, m)].m.ct.aad.ad.initiator == me.id
  {
    NewIdsFresh(peer, n, d);
    AckDrains(me, n.s, peer, h, ack, d);
    hide OnSessionInitAck, NodeInv, Sendable, Finish;
  }

  lemma AckDrains(me: Identity, s: Store, from: PeerId, h: Handshake, ack: InitAck, d: Draw)
    requires ChatInvariant.Inv(s) && from in s.handshakes && s.handshakes[from] == h
    requires Finish(h, d.ratchetKey, ack, me.id, from).Ok?
    ensures var r := OnSessionInitAck(me, s, from, Some(ack), d);
      && r.Ok? && r.value.handshakes == s.handshakes - {from}
      && from in r.value.sessions && r.value.sessions[from].ad.initiator == me.id
      && forall mid :: (from, mid) in s.pending && Sendable(s, (from, mid)) ==>
           && (from, mid) in r.value.outbox && r.value.outbox[(from, mid)].ChatFrame?
           && r.value.outbox[(from, mid)].m.ct.Sealed?
           && r.value.outbox[(from, mid)].m.ct.aad.ad.initiator == me.id
  {
    var s1, st := s.(handshakes := s.handshakes - {from}), Finish(h, d.ratchetKey, ack, me.id, from).value;
    FinishedSends(h, d.ratchetKey, ack, me.id, from);
    ChatOrder.SameQueues(s, s1);
    DrainSends(s1, from, st);
    hide ChatInvariant.KeyOk, Finish, DrainAndSave;
    assert forall mid :: Sendable(s, (from, mid)) == Sendable(s1, (from, mid));
    hide Sendable;
  }

  lemma FinishedSends(h: Handshake, drawn: Priv, ack: InitAck, self: PeerId, peer: PeerId)
    ensures var r := Finish(h, drawn, ack, self, peer);
      r.Ok? ==> WellFormed(r.value) && r.value.hasCKs && r.value.ad.initiator == self
  {
  }

  // ----- runs -----

  lemma {:induction false} LeadsOn(p: P.Pair, v: World, xs: seq<Act>, w: World, x: Act)
    requires Loadable(v) && LeadsTo(p, v, xs, w)
    ensures Loadable(w)
    ensures May(p, w, x) && Loadable(Next(p, w, x)) ==> LeadsTo(p, v, xs + [x], Next(p, w, x))
    decreases |xs|
  {
    hide May, Next, Loadable;
    if xs == [] {
      assert [x][1..] == [] && xs + [x] == [x];
      if May(p, w, x) && Loadable(Next(p, w, x)) {
        assert LeadsTo(p, Next(p, w, x), [], Next(p, w, x));
      }
    } else {
      LeadsOn(p, Next(p, v, xs[0]), xs[1..], w, x);
      assert (xs + [x])[1..] == xs[1..] + [x];
    }
  }

  /** w is reached from two empty stores. */
  ghost predicate Reached(p: P.Pair, xs: seq<Act>, w: World) {
    p.a.id != p.b.id && LeadsTo(p, START, xs, w)
  }

  lemma ReachedKeeps(p: P.Pair, xs: seq<Act>, w: World, atA: bool)
    requires Reached(p, xs, w)
    ensures Loadable(w) && NodeInv(IdAt(p, !atA).id, NodeAt(w, atA)) && NodeInv(IdAt(p, atA).id, NodeAt(w, !atA))
    ensures forall mid :: mid in NodeAt(w, !atA).seen ==> mid in NodeAt(w, atA).drawn
  {
    Reachable(p, xs, w);
    hide NodeInv;
    var (n, o) := (NodeAt(w, atA), NodeAt(w, !atA));
    forall mid | mid in o.seen
      ensures mid in n.drawn
    {
      assert AcrossOk(IdAt(p, atA).id, IdAt(p, !atA).id, n, o, mid);
    }
  }

  /** One more act of a run. */
  lemma Goes(p: P.Pair, xs: seq<Act>, w: World, x: Act)
    requires Reached(p, xs, w) && May(p, w, x)
    ensures Loadable(w) && Reached(p, xs + [x], Next(p, w, x))
    ensures NodeAt(Next(p, w, x), x.atA) == After(IdAt(p, x.atA), IdAt(p, !x.atA).id, NodeAt(w, x.atA), x.x)
    ensures NodeAt(Next(p, w, x), !x.atA) == NodeAt(w, !x.atA)
  {
    Reachable(p, xs, w);
    ActKeeps(p, w, x);
    LeadsOn(p, START, xs, w, x);
  }

  /** What n keeps, and what has become of its window. */
  predicate Kept(n: Node, n': Node, got: set<MsgId>, d: Draw) {
    && n.out <= n'.out && n'.seen == n.seen + got && n'.done == n.done + got
    && n'.drawn == n.drawn + {d.mid, d.serviceMid} && n'.forgot == n.forgot
    && forall k :: k in n.s.outbox ==> k in n'.s.outbox
  }

  /** n writes, and its init is put on the network. */
  lemma Said(p: P.Pair, xs: seq<Act>, w: World, atA: bool, text: Bytes, d: Draw) returns (ys: seq<Act>, w': World)
    requires Reached(p, xs, w) && text != [] && |text| <= MAX_TEXT_LEN && NewIds(NodeAt(w, atA), d)
    requires ChatOrder.MustWait(NodeAt(w, atA).s, IdAt(p, !atA).id)
    requires IdAt(p, !atA).id !in NodeAt(w, atA).s.handshakes
    ensures |ys| == 2 && Reached(p, xs + ys, w') && NodeAt(w', !atA) == NodeAt(w, !atA)
    ensures var peer, h := IdAt(p, !atA).id, Handshake(IdAt(p, atA).ik, d.eph, d.sid);
      var n, n' := NodeAt(w, atA), NodeAt(w', atA);
      && Kept(n, n', {}, d) && n'.s.handshakes == n.s.handshakes[peer := h] && n'.s.sessions == n.s.sessions
      && (d.serviceMid, InitFrame(InitOf(h))) in n'.out
      && (peer, d.mid) in n'.s.pending && Sendable(n'.s, (peer, d.mid))
  {
    ReachedKeeps(p, xs, w, atA);
    var x := Act(atA, Local(ChatInvariant.SendsText(true, IdAt(p, !atA).id, text, d)));
    var y := Act(atA, Transmits(d.serviceMid));
    Writes(IdAt(p, atA), IdAt(p, !atA).id, NodeAt(w, atA), NodeAt(w, !atA), text, d);
    hide NodeInv, Reached, ChatOrder.MustWait;
    Goes(p, xs, w, x);
    var w1 := Next(p, w, x);
    Goes(p, xs + [x], w1, y);
    ys, w' := [x, y], Next(p, w1, y);
    assert xs + ys == xs + [x] + [y];
  }

  /** n gets the init, and its answer is put on the network. */
  lemma Answered(p: P.Pair, xs: seq<Act>, w: World, atA: bool, h: Handshake, mid: MsgId, d: Draw)
    returns (ys: seq<Act>, w': World)
    requires Reached(p, xs, w) && NewIds(NodeAt(w, atA), d) && mid !in NodeAt(w, atA).seen
    requires IdAt(p, !atA).id !in NodeAt(w, atA).s.handshakes
    requires (mid, InitFrame(InitOf(h))) in NodeAt(w, !atA).out
    ensures |ys| == 2 && Reached(p, xs + ys, w') && NodeAt(w', !atA) == NodeAt(w, !atA)
    ensures AcceptHandshake(IdAt(p, atA).ik, d.eph, InitOf(h), IdAt(p, !atA).id, IdAt(p, atA).id).Ok?
    ensures var peer, n, n' := IdAt(p, !atA).id, NodeAt(w, atA), NodeAt(w', atA);
      var (st, ack) := AcceptHandshake(IdAt(p, atA).ik, d.eph, InitOf(h), peer, IdAt(p, atA).id).value;
      && Kept(n, n', {mid}, d) && n'.s.handshakes == n.s.handshakes && n'.s.sessions == n.s.sessions[peer := st]
      && (d.serviceMid, AckFrame(ack)) in n'.out
  {
    ReachedKeeps(p, xs, w, atA);
    var x := Act(atA, Gets(mid, InitFrame(InitOf(h)), true, d));
    var y := Act(atA, Transmits(d.serviceMid));
    TakesInit(IdAt(p, atA), IdAt(p, !atA).id, NodeAt(w, atA), NodeAt(w, !atA), mid, h, d);
    hide NodeInv, Reached, AcceptHandshake, InitOf;
    Goes(p, xs, w, x);
    var w1 := Next(p, w, x);
    Goes(p, xs + [x], w1, y);
    ys, w' := [x, y], Next(p, w1, y);
    assert xs + ys == xs + [x] + [y];
  }

  /** n gets the answer to its handshake h. */
  lemma Settled(p: P.Pair, xs: seq<Act>, w: World, atA: bool, h: Handshake, ack: InitAck, mid: MsgId, d: Draw)
    returns (x: Act, w': World)
    requires Reached(p, xs, w) && NewIds(NodeAt(w, atA), d) && mid !in NodeAt(w, atA).seen
    requires var peer := IdAt(p, !atA).id;
      && peer in NodeAt(w, atA).s.handshakes && NodeAt(w, atA).s.handshakes[peer] == h
      && (mid, AckFrame(ack)) in NodeAt(w, !atA).out && Finish(h, d.ratchetKey, ack, IdAt(p, atA).id, peer).Ok?
    ensures Reached(p, xs + [x], w') && NodeAt(w', !atA) == NodeAt(w, !atA)
    ensures var peer, n, n' := IdAt(p, !atA).id, NodeAt(w, atA), NodeAt(w', atA);
      && n'.out == n.out && n'.seen == n.seen + {mid} && n'.done == n.done + {mid} && n'.forgot == n.forgot
      && n'.drawn == n.drawn + {d.mid, d.serviceMid} && n'.s.handshakes == n.s.handshakes - {peer}
      && peer in n'.s.sessions && n'.s.sessions[peer].ad.initiator == IdAt(p, atA).id
      && forall m :: (peer, m) in n.s.pending && Sendable(n.s, (peer, m)) ==>
           && (peer, m) in n'.s.outbox && n'.s.outbox[(peer, m)].ChatFrame?
           && n'.s.outbox[(peer, m)].m.ct.Sealed?
           && n'.s.outbox[(peer, m)].m.ct.aad.ad.initiator == IdAt(p, atA).id
  {
    ReachedKeeps(p, xs, w, atA);
    x := Act(atA, Gets(mid, AckFrame(ack), true, d));
    TakesAck(IdAt(p, atA), IdAt(p, !atA).id, NodeAt(w, atA), NodeAt(w, !atA), mid, h, ack, d);
    hide NodeInv, Reached, Finish;
    Goes(p, xs, w, x);
    w' := Next(p, w, x);
  }

  // ----- the crossing -----

  /**
   A text of a is under way in a session that a began; b has no sending chain yet, and neither is in
   the middle of another handshake.
   */
  predicate UnderWay(p: P.Pair, w: World, mid: MsgId, f: Frame) {
    && (mid, f) in w.a.out && f.ChatFrame? && f.m.ct.Sealed? && f.m.ct.aad.ad.initiator == p.a.id
    && (p.b.id, mid) in w.a.s.outbox && mid !in w.b.done
    && p.b.id !in w.a.s.handshakes && ChatOrder.MustWait(w.b.s, p.a.id) && p.a.id !in w.b.s.handshakes
  }

  predicate Apart(d: Draw, e: Draw) {
    {d.mid, d.serviceMid} !! {e.mid, e.serviceMid}
  }

  /** b writes, and its handshake goes through ahead of a's text. */
  lemma Crosses(p: P.Pair, xs: seq<Act>, w: World, mid: MsgId, f: Frame, text: Bytes, d1: Draw, d2: Draw, d3: Draw)
    returns (ys: seq<Act>, w': World)
    requires Reached(p, xs, w) && UnderWay(p, w, mid, f) && text != [] && |text| <= MAX_TEXT_LEN
    requires NewIds(w.a, d2) && NewIds(w.b, d1) && NewIds(w.b, d3) && Apart(d1, d3)
    ensures |ys| == 5 && Reached(p, xs + ys, w')
    ensures (mid, f) in w'.a.out && (p.b.id, mid) in w'.a.s.outbox && mid !in w'.b.done
    ensures p.a.id in w'.b.s.sessions && w'.b.s.sessions[p.a.id].ad.initiator == p.b.id
    ensures w'.b.drawn == w.b.drawn + {d1.mid, d1.serviceMid, d3.mid, d3.serviceMid} && w'.b.forgot == w.b.forgot
  {
    hide Reached, AcceptHandshake, Finish, InitOf;
    var h := Handshake(p.b.ik, d1.eph, d1.sid);
    ReachedKeeps(p, xs, w, true);
    ReachedKeeps(p, xs, w, false);
    assert FrameOk(w.a, mid, f);
    hide NodeInv;
    var ys1, w1 := Said(p, xs, w, false, text, d1);
    var ys2, w2 := Answered(p, xs + ys1, w1, true, h, d1.serviceMid, d2);
    var ack := AcceptHandshake(p.a.ik, d2.eph, InitOf(h), p.b.id, p.a.id).value.1;
    SameSecret(h, p.a.ik, d2.eph, d3.ratchetKey, p.b.id, p.a.id);
    var x, w3 := Settled(p, xs + ys1 + ys2, w2, false, h, ack, d2.serviceMid, d3);
    ys, w' := ys1 + ys2 + [x], w3;
    assert xs + ys == xs + ys1 + ys2 + [x];
  }

  /** The sender's row says Delivered, and the receiver does not have the text. */
  predicate Lost(p: P.Pair, w: World, mid: MsgId) {
    && (p.b.id, mid) in w.a.s.messages && w.a.s.messages[(p.b.id, mid)].status == Delivered
    && (p.a.id, mid) !in w.b.s.received
  }

  lemma OtherBinding(s: StateV, drawn: Priv, m: Message)
    requires WellFormed(s) && m.ct.Sealed? && m.ct.aad.ad != s.ad
    ensures DecryptV(s, drawn, m).Err?
  {
  }

  lemma Unread(me: P.Identity, peer: PeerId, n: Node, o: Node, mid: MsgId, f: Frame, d: Draw)
    requires NodeInv(peer, n) && NewIds(n, d) && (mid, f) in o.out && f.ChatFrame? && f.m.ct.Sealed?
    requires peer in n.s.sessions && n.s.sessions[peer].ad != f.m.ct.aad.ad
    ensures Possible(peer, n, o, Gets(mid, f, true, d)) && !Readable(n.s, peer, f, d)
    ensures After(me, peer, n, Gets(mid, f, true, d)).forgot == n.forgot
  {
    NewIdsFresh(peer, n, d);
    OtherBinding(n.s.sessions[peer], d.ratchetKey, f.m);
    hide DecryptV, ChatInvariant.FreshDraw, ChatInvariant.Attempt;
  }

  /** The text arrives under a binding that b's session no longer has. */
  lemma Arrives(p: P.Pair, xs: seq<Act>, w: World, mid: MsgId, f: Frame, d: Draw) returns (ys: seq<Act>, w': World)
    requires Reached(p, xs, w) && NewIds(w.b, d) && mid !in w.b.done
    requires (mid, f) in w.a.out && f.ChatFrame? && f.m.ct.Sealed? && (p.b.id, mid) in w.a.s.outbox
    requires p.a.id in w.b.s.sessions && w.b.s.sessions[p.a.id].ad != f.m.ct.aad.ad
    ensures |ys| == 2 && Reached(p, xs + ys, w') && Lost(p, w', mid) && w'.b.forgot == w.b.forgot
  {
    var x, y := Act(false, Gets(mid, f, true, d)), Act(true, GetsItsAck(mid));
    ReachedKeeps(p, xs, w, true);
    Unread(p.b, p.a.id, w.b, w.a, mid, f, d);
    hide NodeInv, Readable, Possible, After, WellFormed;
    DeliveredIffReadable(p, xs, w, true, x.x);
    Goes(p, xs, w, x);
    var w1 := Next(p, w, x);
    Goes(p, xs + [x], w1, y);
    ys, w' := [x, y], Next(p, w1, y);
    assert xs + ys == xs + [x] + [y];
  }

  /**
   From every reachable state in which a text of a is under way to b, who has no sending chain yet:
   if b writes now, its handshake can go through first, and then the text is lost and Delivered.
   */
  lemma WritingLoses(p: P.Pair, xs: seq<Act>, w: World, mid: MsgId, f: Frame, text: Bytes, d: seq<Draw>)
    returns (ys: seq<Act>, w': World)
    requires Reached(p, xs, w) && UnderWay(p, w, mid, f) && text != [] && |text| <= MAX_TEXT_LEN && |d| == 4
    requires NewIds(w.a, d[1]) && NewIds(w.b, d[0]) && NewIds(w.b, d[2]) && NewIds(w.b, d[3])
    requires Apart(d[0], d[2]) && Apart(d[0], d[3]) && Apart(d[2], d[3])
    ensures |ys| == 7 && Reached(p, xs + ys, w') && Lost(p, w', mid) && w'.b.forgot == w.b.forgot
  {
    assert p.a.id != p.b.id;
    hide Reached, Lost;
    var zs, v := Crosses(p, xs, w, mid, f, text, d[0], d[1], d[2]);
    var last;
    last, w' := Arrives(p, xs + zs, v, mid, f, d[3]);
    ys := zs + last;
    assert xs + ys == xs + zs + last;
  }

  /** a writes first, and gets its session. */
  lemma FirstText(p: P.Pair, text: Bytes, d: seq<Draw>) returns (xs: seq<Act>, w: World, f: Frame)
    requires p.a.id != p.b.id && text != [] && |text| <= MAX_TEXT_LEN && |d| == 3
    requires d[0].mid != d[0].serviceMid && d[1].mid != d[1].serviceMid && d[2].mid != d[2].serviceMid
    requires Apart(d[0], d[2])
    ensures |xs| == 6 && Reached(p, xs, w) && UnderWay(p, w, d[0].mid, f)
    ensures w.a.drawn == {d[0].mid, d[0].serviceMid, d[2].mid, d[2].serviceMid}
    ensures w.b.drawn == {d[1].mid, d[1].serviceMid} && w.b.forgot == {}
  {
    hide Reached, AcceptHandshake, Finish, InitOf, NodeInv;
    var h := Handshake(p.a.ik, d[0].eph, d[0].sid);
    Begins(p);
    var ys1, w1 := Said(p, [], START, true, text, d[0]);
    var ys2, w2 := Answered(p, [] + ys1, w1, false, h, d[0].serviceMid, d[1]);
    var ack := AcceptHandshake(p.b.ik, d[1].eph, InitOf(h), p.a.id, p.b.id).value.1;
    SameSecret(h, p.b.ik, d[1].eph, d[2].ratchetKey, p.a.id, p.b.id);
    NoChain(p.b.ik, d[1].eph, InitOf(h), p.a.id, p.b.id);
    var x, w3 := Settled(p, [] + ys1 + ys2, w2, true, h, ack, d[1].serviceMid, d[2]);
    f := w3.a.s.outbox[(p.b.id, d[0].mid)];
    var y := Act(true, Transmits(d[0].mid));
    Goes(p, [] + ys1 + ys2 + [x], w3, y);
    xs, w := [] + ys1 + ys2 + [x] + [y], Next(p, w3, y);
  }

  lemma Begins(p: P.Pair)
    requires p.a.id != p.b.id
    ensures Reached(p, [], START)
  {
  }

  lemma NoChain(ik: Priv, drawn: Priv, init: Init, initiator: PeerId, self: PeerId)
    ensures var r := AcceptHandshake(ik, drawn, init, initiator, self); r.Ok? ==> !r.value.0.hasCKs
  {
  }

  /** Thirteen acts from two empty stores: a's text counts as Delivered, and b does not have it. */
  lemma DeliveredUnread(p: P.Pair, texts: seq<Bytes>, d: seq<Draw>) returns (xs: seq<Act>, w: World)
    requires p.a.id != p.b.id && |texts| == 2 && |d| == 7
    requires forall t :: t in texts ==> t != [] && |t| <= MAX_TEXT_LEN
    requires forall i :: 0 <= i < 7 ==> d[i].mid != d[i].serviceMid
    requires forall i, j :: 0 <= i < j < 7 ==> Apart(d[i], d[j])
    ensures |xs| == 13 && Reached(p, xs, w) && Lost(p, w, d[0].mid) && w.b.forgot == {}
  {
    hide Reached, UnderWay, Lost;
    var ys, v, f := FirstText(p, texts[0], d[..3]);
    var zs;
    zs, w := WritingLoses(p, ys, v, d[0].mid, f, texts[1], d[3..]);
    xs := ys + zs;
  }
}
