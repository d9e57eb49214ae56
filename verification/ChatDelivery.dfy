/**
 Two nodes with their whole chat stores under the reliability layer: every envelope is resent until
 it is acknowledged, handled once per life of its dedup entry, and acknowledged even if its text
 could not be read.
 */
module ChatDelivery {
  import opened Prelude
  import opened RatchetCrypto
  import opened Ratchet
  import opened RatchetHandshake
  import opened Chat
  import opened ChatInvariant
  import opened ChatAgreement
  import ChatOrder
  import ChatTables
  import Lamport
  import Pending
  import O = Outbox
  import P = SessionAgreement

  /**
   One node, as far as the other is concerned: its store and dedup window; the frames and acks it
   ever put on the network; the message ids it drew; the texts it wrote to the other; of the other's
   envelopes those it committed, those whose text it read or could not read then, and those
   whose dedup entry was evicted.
   */
  datatype Node = Node(s: Store, seen: set<MsgId>, out: set<(MsgId, Frame)>, acks: set<MsgId>,
                       drawn: set<MsgId>, wrote: map<MsgId, Bytes>, done: set<MsgId>,
                       read: set<MsgId>, blind: set<MsgId>, forgot: set<MsgId>)

  datatype World = World(a: Node, b: Node)

  /** What happens at a node; what it gets was sent by the other, any number of times. */
  datatype Deed =
    | Local(e: Event)
    | Transmits(mid: MsgId)
    | Gets(mid: MsgId, f: Frame, handled: bool, d: Draw)
    | GetsItsAck(mid: MsgId)
    | Forgets(mid: MsgId)

  datatype Act = Act(atA: bool, x: Deed)

  function Arrival(from: PeerId, mid: MsgId, f: Frame, handled: bool, d: Draw): Event {
    match f
    case ChatFrame(_, stamp, m) => GetsChat(from, mid, stamp, Some(m), d)
    case SealedFrame(_, m) => GetsSealed(from, handled, Some(m), d)
    case InitFrame(init) => GetsInit(from, Some(init), d)
    case AckFrame(ack) => GetsInitAck(from, Some(ack), d)
  }

  /** There is a session with the peer, and it decrypts the text. */
  predicate Readable(s: Store, from: PeerId, f: Frame, d: Draw)
    requires forall p :: p in s.sessions ==> WellFormed(s.sessions[p])
  {
    f.ChatFrame? && from in s.sessions && DecryptV(s.sessions[from], d.ratchetKey, f.m).Ok?
  }

  function Ids(e: Event): set<MsgId> {
    match DrawOf(e)
    case None => {}
    case Some(d) => {d.mid, d.serviceMid}
  }

  function Done(n: Node, mid: MsgId, f: Frame, readable: bool): Node {
    n.(seen := n.seen + {mid}, acks := n.acks + {mid}, done := n.done + {mid},
       read := if f.ChatFrame? && readable then n.read + {mid} else n.read,
       blind := if f.ChatFrame? && !readable then n.blind + {mid} else n.blind)
  }

  /** The node after the deed; peer is the other node. */
  function After(me: Identity, peer: PeerId, n: Node, x: Deed): Node
    requires forall p :: p in n.s.sessions ==> WellFormed(n.s.sessions[p])
  {
    match x
    case Local(e) =>
      n.(s := Step(me, n.s, e), drawn := n.drawn + Ids(e),
         wrote := if e.SendsText? && e.to == peer && Attempt(me, n.s, e).Ok? then n.wrote[e.d.mid := e.text]
                  else n.wrote)
    case Transmits(mid) =>
      if (peer, mid) in n.s.outbox then n.(out := n.out + {(mid, n.s.outbox[(peer, mid)])}) else n
    case Gets(mid, f, handled, d) =>
      if mid in n.seen then n.(acks := n.acks + {mid})
      else
        var e := Arrival(peer, mid, f, handled, d);
        if Attempt(me, n.s, e).Err? then n.(drawn := n.drawn + Ids(e))
        else Done(n, mid, f, Readable(n.s, peer, f, d)).(s := Step(me, n.s, e), drawn := n.drawn + Ids(e))
    case GetsItsAck(mid) => n.(s := Settle(n.s, (peer, mid)))
    case Forgets(mid) => n.(seen := n.seen - {mid}, forgot := if mid in n.seen then n.forgot + {mid} else n.forgot)
  }

  /** What comes from the peer comes through the network. */
  predicate Own(e: Event, peer: PeerId) {
    PeerOf(e) == peer ==> e.SendsText? || e.SendsSealed? || e.Deletes? || e.Flushes?
  }

  /** Message ids are drawn anew. */
  predicate Fresh(n: Node, e: Event) {
    FreshEvent(n.s, e) && Ids(e) !! n.drawn
  }

  predicate Possible(peer: PeerId, n: Node, other: Node, x: Deed) {
    match x
    case Local(e) => Fresh(n, e) && Own(e, peer)
    case Gets(mid, f, handled, d) => (mid, f) in other.out && Fresh(n, Arrival(peer, mid, f, handled, d))
    case GetsItsAck(mid) => mid in other.acks
    case _ => true
  }

  /** What the engine of the tables commits, acknowledges and remembers, the node does. */
  lemma GetsIsReliable(me: Identity, peer: PeerId, n: Node, x: Deed, t: O.Tables, effect: O.Effect, now: int)
    requires (forall p :: p in n.s.sessions ==> WellFormed(n.s.sessions[p])) && x.Gets?
    requires O.RowKey(peer, x.mid) in t.dedup <==> x.mid in n.seen
    requires effect.Fails? <==> Attempt(me, n.s, Arrival(peer, x.mid, x.f, x.handled, x.d)).Err?
    ensures var (t', acked, done) := O.HandleReliable(t, O.RowKey(peer, x.mid), effect, now);
      var n' := After(me, peer, n, x);
      && (O.RowKey(peer, x.mid) in t'.dedup <==> x.mid in n'.seen)
      && n'.acks == (if acked then n.acks + {x.mid} else n.acks)
      && n'.done == (if done then n.done + {x.mid} else n.done)
      && n'.s == if done then Step(me, n.s, Arrival(peer, x.mid, x.f, x.handled, x.d)) else n.s
  {
    hide Attempt, Readable, Arrival;
  }

  // ----- what an event does to rows, envelopes and what was received -----

  /** A row keeps its text until it is erased, and only its own ack delivers it. */
  predicate RowEffect(s: Store, e: Event, t: Store, k: RowKey) {
    && (k in s.messages ==>
          && k in t.messages && (t.messages[k].deleted || t.messages[k].body == s.messages[k].body)
          && (t.messages[k].status == Delivered ==> s.messages[k].status == Delivered || e == GetsAck(k)))
    && (k in t.messages && k !in s.messages ==>
          e.SendsText? && k == (e.to, e.d.mid) && t.messages[k].body == Some(e.text) && t.messages[k].status == Queued)
  }

  /** A new envelope is a text's, or has an id just drawn. */
  predicate BoxEffect(s: Store, e: Event, t: Store, k: RowKey) {
    k in t.outbox && !(k in s.outbox && t.outbox[k] == s.outbox[k]) ==>
      || (k in t.messages && !t.messages[k].deleted)
      || (k.0 == PeerOf(e) && k.1 in Ids(e))
  }

  /** A text is received exactly when it could be read, and the first time only. */
  function ReceivedAfter(s: Store, e: Event): map<RowKey, Bytes>
    requires forall p :: p in s.sessions ==> WellFormed(s.sessions[p])
  {
    if e.GetsChat? && e.chat.Some? && e.from in s.sessions
       && DecryptV(s.sessions[e.from], e.d.ratchetKey, e.chat.value).Ok? && (e.from, e.mid) !in s.received
    then s.received[(e.from, e.mid) := DecryptV(s.sessions[e.from], e.d.ratchetKey, e.chat.value).value.0]
    else s.received
  }

  ghost predicate Effect(s: Store, e: Event, t: Store)
    requires forall p :: p in s.sessions ==> WellFormed(s.sessions[p])
  {
    (forall k :: RowEffect(s, e, t, k)) && (forall k :: BoxEffect(s, e, t, k)) && t.received == ReceivedAfter(s, e)
  }

  lemma DrainBox(s: Store, p: PeerId, st: StateV, t: Store)
    requires Inv(s) && WellFormed(st) && DrainAndSave(s, p, st) == Ok(t)
    ensures t.messages == s.messages && t.received == s.received
    ensures forall k :: k in t.outbox ==>
              (k in s.outbox && t.outbox[k] == s.outbox[k]) || (k in s.messages && !s.messages[k].deleted)
  {
    if st.hasCKs {
      Pending.TakeMeaning(s.pending, p);
      var ks := Pending.Take(s.pending, p);
      var s0 := s.(pending := Pending.Except(s.pending, p));
      forall k | k in ks
        ensures k !in s0.outbox
      {
        assert KeyOk(s, k);
      }
      DrainEffect(s0, st, ks);
      hide Reloaded, DrainList, NoDup, WellFormed;
      forall k | k in t.outbox
        ensures (k in s.outbox && t.outbox[k] == s.outbox[k]) || (k in s.messages && !s.messages[k].deleted)
      {
        assert Drained(s0, DrainList(s0, st, ks).value.0, ks, k);
      }
    }
  }

  lemma BeginEffect(me: Identity, s: Store, s1: Store, d: Draw, e: Event, t: Store)
    requires Inv(s) && EnsureHandshake(me, s1, PeerOf(e), d) == Ok(t) && d.serviceMid in Ids(e)
    requires s1.outbox == s.outbox && s1.received == ReceivedAfter(s, e)
    requires forall k :: RowEffect(s, e, s1, k)
    ensures Effect(s, e, t)
  {
    hide InitOf, ReceivedAfter;
    forall k
      ensures RowEffect(s, e, t, k) && BoxEffect(s, e, t, k)
    {
      assert RowEffect(s, e, s1, k);
    }
  }

  lemma DrainedEffect(s: Store, s1: Store, e: Event, p: PeerId, st: StateV, t: Store)
    requires Inv(s) && Inv(s1) && WellFormed(st) && DrainAndSave(s1, p, st) == Ok(t)
    requires s1.outbox == s.outbox && s1.messages == s.messages && s1.received == ReceivedAfter(s, e)
    ensures Effect(s, e, t)
  {
    DrainBox(s1, p, st, t);
    hide DrainAndSave, KeyOk, ReceivedAfter, WellFormed;
    forall k
      ensures RowEffect(s, e, t, k) && BoxEffect(s, e, t, k)
    {
    }
  }

  /** The new text's row, before the text is queued or waits. */
  function Written(s: Store, e: Event): Store
    requires e.SendsText?
  {
    var row := ChatOrder.NewRow(s, e.to, e.text);
    s.(seqNos := s.seqNos[e.to := row.seqNo], lamport := row.lamport,
       messages := s.messages[(e.to, e.d.mid) := row])
  }

  lemma NewText(s: Store, e: Event)
    requires e.SendsText? && (e.to, e.d.mid) !in s.messages
    ensures forall x :: RowEffect(s, e, Written(s, e), x)
  {
  }

  lemma SendTextEffect(me: Identity, s: Store, e: Event, t: Store)
    requires Inv(s) && e.SendsText? && FreshEvent(s, e) && Attempt(me, s, e) == Ok(t)
    ensures Effect(s, e, t) && (e.to, e.d.mid) in t.messages
  {
    hide KeyOk, EnsureHandshake, Reloaded, RowEffect, BoxEffect;
    NewText(s, e);
    var k, row, s1 := (e.to, e.d.mid), ChatOrder.NewRow(s, e.to, e.text), Written(s, e);
    if ChatOrder.MustWait(s, e.to) {
      var s2 := s1.(pending := Pending.Add(s1.pending, k, e.d.now));
      assert t == EnsureHandshake(me, s2, e.to, e.d).value;
      assert forall x :: RowEffect(s, e, s2, x) by {
        SameRows(s, e, s1, s2);
      }
      hide Attempt, Inv, Effect;
      BeginEffect(me, s, s2, e.d, e, t);
      BeginRows(me, s2, e.to, e.d, t);
    } else {
      var f := ChatFrame(row.seqNo, row.lamport, EncryptV(s.sessions[e.to], e.text).value.0);
      SentNow(s, s1, e, t, k, f);
    }
  }

  lemma SameRows(s: Store, e: Event, s1: Store, s2: Store)
    requires s1.messages == s2.messages && forall x :: RowEffect(s, e, s1, x)
    ensures forall x :: RowEffect(s, e, s2, x)
  {
    forall x
      ensures RowEffect(s, e, s2, x)
    {
      assert RowEffect(s, e, s1, x);
    }
  }

  lemma BeginRows(me: Identity, s: Store, to: PeerId, d: Draw, t: Store)
    requires EnsureHandshake(me, s, to, d) == Ok(t)
    ensures t.messages == s.messages
  {
  }

  lemma SentNow(s: Store, s1: Store, e: Event, t: Store, k: RowKey, f: Frame)
    requires (forall p :: p in s.sessions ==> WellFormed(s.sessions[p])) && forall x :: RowEffect(s, e, s1, x)
    requires e.SendsText? && k == (e.to, e.d.mid) && t.messages == s1.messages && t.received == s.received
    requires t.outbox == s.outbox[k := f]
    ensures Effect(s, e, t)
  {
    hide WellFormed;
    forall x
      ensures RowEffect(s, e, t, x) && BoxEffect(s, e, t, x)
    {
      assert RowEffect(s, e, s1, x);
    }
  }

  lemma SealedEffect(me: Identity, s: Store, e: Event, t: Store)
    requires Inv(s) && e.SendsSealed? && Attempt(me, s, e) == Ok(t)
    ensures Effect(s, e, t)
  {
    hide KeyOk, EnsureHandshake, Reloaded;
    if e.to !in s.sessions || !s.sessions[e.to].hasCKs {
      BeginEffect(me, s, s, e.d, e, t);
    }
  }

  lemma GetsEffect(me: Identity, s: Store, e: Event, t: Store)
    requires Inv(s) && (e.GetsChat? || e.GetsSealed?) && Attempt(me, s, e) == Ok(t)
    ensures Effect(s, e, t)
  {
    hide KeyOk, EnsureHandshake, DrainAndSave, DecryptV;
    if e.chat.Some? {
      if e.from !in s.sessions || DecryptV(s.sessions[e.from], e.d.ratchetKey, e.chat.value).Err? {
        BeginEffect(me, s, s, e.d, e, t);
      } else {
        var st := DecryptV(s.sessions[e.from], e.d.ratchetKey, e.chat.value).value.1;
        DecryptKeeps(s.sessions[e.from], e.d.ratchetKey, e.chat.value);
        var s1 := if e.GetsSealed? then s
                  else s.(lamport := Lamport.Observed(s.lamport, e.stamp), received := ReceivedAfter(s, e));
        ChatOrder.SameQueues(s, s1);
        DrainedEffect(s, s1, e, e.from, st, t);
      }
    }
  }

  lemma InitEffect(me: Identity, s: Store, e: Event, t: Store)
    requires Inv(s) && e.GetsInit? && Attempt(me, s, e) == Ok(t)
    ensures Effect(s, e, t)
  {
    hide KeyOk, AcceptHandshake, Reloaded, P.Less;
    assert t.messages == s.messages && t.received == s.received;
    assert forall k :: k in t.outbox && k !in s.outbox ==> k == (e.from, e.d.serviceMid);
    assert forall k :: k in s.outbox ==> k in t.outbox && t.outbox[k] == s.outbox[k];
    hide OnSessionInit;
  }

  lemma InitAckEffect(me: Identity, s: Store, e: Event, t: Store)
    requires Inv(s) && e.GetsInitAck? && Attempt(me, s, e) == Ok(t)
    ensures Effect(s, e, t)
  {
    hide KeyOk, DrainAndSave, Finish;
    if e.ack.Some? && e.from in s.handshakes
       && Finish(s.handshakes[e.from], e.d.ratchetKey, e.ack.value, me.id, e.from).Ok? {
      var s1, st := s.(handshakes := s.handshakes - {e.from}),
                    Finish(s.handshakes[e.from], e.d.ratchetKey, e.ack.value, me.id, e.from).value;
      ChatOrder.SameQueues(s, s1);
      ChatTables.BegunFormed(s.handshakes[e.from], e.d.ratchetKey, e.ack.value, me.id, e.from);
      DrainedEffect(s, s1, e, e.from, st, t);
    }
  }

  /** One row rewritten and envelopes dropped. */
  lemma RowRewritten(s: Store, e: Event, t: Store, k: RowKey)
    requires (forall p :: p in s.sessions ==> WellFormed(s.sessions[p])) && !e.SendsText? && !e.GetsChat?
    requires t.received == s.received && forall x :: x in t.outbox ==> x in s.outbox && t.outbox[x] == s.outbox[x]
    requires t.messages.Keys == s.messages.Keys
    requires forall x :: x in s.messages && x != k ==> t.messages[x] == s.messages[x]
    requires RowEffect(s, e, t, k)
    ensures Effect(s, e, t)
  {
    hide WellFormed;
    forall x
      ensures RowEffect(s, e, t, x) && BoxEffect(s, e, t, x)
    {
    }
  }

  lemma Raised(s: Store, k: RowKey, status: Status)
    ensures var t := StatusUp(s, k, status);
      && t == s.(messages := t.messages) && t.messages.Keys == s.messages.Keys
      && (forall x :: x in s.messages && x != k ==> t.messages[x] == s.messages[x])
      && (k in s.messages ==>
            t.messages[k].body == s.messages[k].body && t.messages[k].status in {s.messages[k].status, status})
  {
  }

  lemma OtherEffect(me: Identity, s: Store, e: Event, t: Store)
    requires Inv(s) && (e.Deletes? || e.GetsAck? || e.Flushes?) && Attempt(me, s, e) == Ok(t)
    ensures Effect(s, e, t)
  {
    hide KeyOk, Effect, StatusUp;
    var k := e.k;
    if e.GetsAck? {
      Raised(s.(outbox := s.outbox - {k}), k, Delivered);
    } else if e.Flushes? {
      Raised(s, k, Sent);
    }
    assert t.messages.Keys == s.messages.Keys;
    assert RowEffect(s, e, t, k);
    hide Delete, Settle, WentOut, RowEffect, Attempt, Inv;
    RowRewritten(s, e, t, k);
  }

  /** Every event of a node. */
  lemma EventEffect(me: Identity, s: Store, e: Event)
    requires Inv(s) && FreshEvent(s, e)
    ensures Effect(s, e, Step(me, s, e)) || Attempt(me, s, e).Err?
    ensures e.SendsText? && Attempt(me, s, e).Ok? ==> (e.to, e.d.mid) in Step(me, s, e).messages
  {
    hide Effect, SendText, SendSealed, OnChat, OnSealed, OnSessionInit, OnSessionInitAck;
    if Attempt(me, s, e).Ok? {
      var t := Attempt(me, s, e).value;
      match e
      case SendsText(_, _, _, _) => SendTextEffect(me, s, e, t);
      case SendsSealed(_, _, _, _, _) => SealedEffect(me, s, e, t);
      case GetsChat(_, _, _, _, _) => GetsEffect(me, s, e, t);
      case GetsSealed(_, _, _, _) => GetsEffect(me, s, e, t);
      case GetsInit(_, _, _) => InitEffect(me, s, e, t);
      case GetsInitAck(_, _, _) => InitAckEffect(me, s, e, t);
      case _ => OtherEffect(me, s, e, t);
    }
  }

  // ----- the invariant -----

  /** An envelope with the id of a text is the text's, and carries what was written. */
  predicate FrameOk(n: Node, mid: MsgId, f: Frame) {
    && mid in n.drawn && (f.ChatFrame? <==> mid in n.wrote)
    && (f.ChatFrame? ==> f.m.ct.Sealed? && f.m.ct.plain == n.wrote[mid])
  }

  /** One message id at the node that drew it. */
  predicate OwnOk(peer: PeerId, n: Node, mid: MsgId) {
    var k := (peer, mid);
    && (k in n.s.messages <==> mid in n.wrote) && (mid in n.wrote ==> mid in n.drawn)
    && (k in n.s.messages ==> n.s.messages[k].deleted || n.s.messages[k].body == Some(n.wrote[mid]))
    && (k in n.s.outbox ==> FrameOk(n, mid, n.s.outbox[k]))
  }

  /** One message id of n at the node o that its envelope is for. */
  predicate AcrossOk(sender: PeerId, receiver: PeerId, n: Node, o: Node, mid: MsgId) {
    var row, got := (receiver, mid), (sender, mid);
    // acks and deliveries mean a commit, and only what was sent is committed
    && (row in n.s.messages && n.s.messages[row].status == Delivered ==> mid in o.done)
    && (mid in o.acks || mid in o.seen ==> mid in o.done) && (mid in o.done ==> mid in n.drawn)
    // a committed text was read or could not be read, and it is there exactly when it was read
    && (mid in o.done && mid in n.wrote <==> mid in o.read || mid in o.blind)
    && (got in o.s.received <==> mid in o.read) && (got in o.s.received ==> o.s.received[got] == n.wrote[mid])
    // another commit of the same envelope takes an eviction
    && (mid in o.done ==> mid in o.seen || mid in o.forgot)
    && (mid in o.read && mid in o.blind ==> mid in o.forgot)
  }

  ghost predicate NodeInv(peer: PeerId, n: Node) {
    && ChatInvariant.Inv(n.s) && (forall mid :: OwnOk(peer, n, mid))
    && forall f: (MsgId, Frame) :: f in n.out ==> FrameOk(n, f.0, f.1)
  }

  ghost predicate LinkInv(p: P.Pair, w: World) {
    && p.a.id != p.b.id && NodeInv(p.b.id, w.a) && NodeInv(p.a.id, w.b)
    && (forall mid :: AcrossOk(p.a.id, p.b.id, w.a, w.b, mid))
    && (forall mid :: AcrossOk(p.b.id, p.a.id, w.b, w.a, mid))
  }

  // ----- one event of the store at a node -----

  /** The node's own side after an event; wrote' and drawn' as the event leaves them. */
  lemma EventOwn(me: Identity, peer: PeerId, n: Node, e: Event, n': Node)
    requires NodeInv(peer, n) && Fresh(n, e) && Attempt(me, n.s, e).Ok?
    requires n' == n.(s := Step(me, n.s, e), drawn := n.drawn + Ids(e), wrote := n'.wrote)
    requires n'.wrote == if e.SendsText? && e.to == peer then n.wrote[e.d.mid := e.text] else n.wrote
    ensures NodeInv(peer, n')
  {
    hide Step, Attempt, KeyOk, FreshEvent;
    EventEffect(me, n.s, e);
    StepKeeps(me, n.s, e);
    var t := n'.s;
    forall f: (MsgId, Frame) | f in n.out
      ensures FrameOk(n', f.0, f.1)
    {
      assert FrameOk(n, f.0, f.1);
    }
    forall mid
      ensures OwnOk(peer, n', mid)
    {
      OwnAfter(peer, n, e, n', mid);
    }
  }

  lemma OwnAfter(peer: PeerId, n: Node, e: Event, n': Node, mid: MsgId)
    requires NodeInv(peer, n) && FreshEvent(n.s, e) && Ids(e) !! n.drawn && ChatInvariant.Inv(n'.s)
    requires Effect(n.s, e, n'.s) && (e.SendsText? ==> (e.to, e.d.mid) in n'.s.messages)
    requires n'.drawn == n.drawn + Ids(e)
    requires n'.wrote == if e.SendsText? && e.to == peer then n.wrote[e.d.mid := e.text] else n.wrote
    ensures OwnOk(peer, n', mid)
  {
    var k := (peer, mid);
    hide Effect;
    assert OwnOk(peer, n, mid);
    assert KeyOk(n'.s, k) && KeyOk(n.s, k);
    assert RowEffect(n.s, e, n'.s, k) && BoxEffect(n.s, e, n'.s, k) by {
      EffectAt(n.s, e, n'.s, k);
    }
  }

  lemma EffectAt(s: Store, e: Event, t: Store, k: RowKey)
    requires (forall p :: p in s.sessions ==> WellFormed(s.sessions[p])) && Effect(s, e, t)
    ensures RowEffect(s, e, t, k) && BoxEffect(s, e, t, k)
  {
  }

  // ----- a deed at a node -----

  lemma DecryptPlain(s: StateV, drawn: Priv, m: Message)
    requires WellFormed(s)
    ensures var r := DecryptV(s, drawn, m); r.Ok? ==> m.ct.Sealed? && r.value.0 == m.ct.plain
  {
  }

  lemma DeedOwn(me: Identity, peer: PeerId, n: Node, o: Node, x: Deed)
    requires NodeInv(peer, n) && Possible(peer, n, o, x)
    ensures NodeInv(peer, After(me, peer, n, x))
  {
    var n' := After(me, peer, n, x);
    hide Step, Attempt, KeyOk, FreshEvent, Arrival, Settle, Readable;
    match x
    case Local(e) =>
      if Attempt(me, n.s, e).Ok? {
        EventOwn(me, peer, n, e, n');
      } else {
        Failed(me, n.s, e);
        MoreDrawn(peer, n, n');
      }
    case Transmits(mid) =>
      assert OwnOk(peer, n, mid);
      MoreDrawn(peer, n, n');
    case Gets(mid, f, handled, d) =>
      if mid !in n.seen {
        var e := Arrival(peer, mid, f, handled, d);
        ArrivalShape(peer, mid, f, handled, d);
        if Attempt(me, n.s, e).Ok? {
          EventOwn(me, peer, n, e, n.(s := Step(me, n.s, e), drawn := n.drawn + Ids(e)));
          MoreDrawn(peer, n.(s := Step(me, n.s, e), drawn := n.drawn + Ids(e)), n');
        } else {
          MoreDrawn(peer, n, n');
        }
      } else {
        MoreDrawn(peer, n, n');
      }
    case GetsItsAck(mid) =>
      SettleIsEvent(me, n.s, (peer, mid));
      EventOwn(me, peer, n, GetsAck((peer, mid)), n');
    case Forgets(_) => MoreDrawn(peer, n, n');
  }

  lemma Failed(me: Identity, s: Store, e: Event)
    requires forall p :: p in s.sessions ==> WellFormed(s.sessions[p])
    ensures Attempt(me, s, e).Err? ==> Step(me, s, e) == s
  {
  }

  lemma SettleIsEvent(me: Identity, s: Store, k: RowKey)
    requires ChatInvariant.Inv(s)
    ensures Attempt(me, s, GetsAck(k)) == Ok(Settle(s, k)) && Step(me, s, GetsAck(k)) == Settle(s, k)
    ensures FreshEvent(s, GetsAck(k))
  {
  }

  lemma ArrivalShape(from: PeerId, mid: MsgId, f: Frame, handled: bool, d: Draw)
    ensures var e := Arrival(from, mid, f, handled, d);
      PeerOf(e) == from && !e.SendsText? && !e.GetsAck? && Ids(e) == {d.mid, d.serviceMid}
  {
  }

  /** Ids drawn for nothing, envelopes put on the network, and the book-keeping of what came in. */
  lemma MoreDrawn(peer: PeerId, n: Node, n': Node)
    requires NodeInv(peer, n) && n'.s == n.s && n'.wrote == n.wrote && n.drawn <= n'.drawn
    requires forall f: (MsgId, Frame) :: f in n'.out ==> f in n.out || FrameOk(n, f.0, f.1)
    ensures NodeInv(peer, n')
  {
    hide KeyOk;
    forall mid
      ensures OwnOk(peer, n', mid)
    {
      assert OwnOk(peer, n, mid);
    }
    forall f: (MsgId, Frame) | f in n'.out
      ensures FrameOk(n', f.0, f.1)
    {
      assert FrameOk(n, f.0, f.1);
    }
  }

  /** What the other node did with n's envelopes still fits n after n's deed. */
  lemma DeedSends(me: Identity, peer: PeerId, n: Node, o: Node, x: Deed, mid: MsgId)
    requires NodeInv(peer, n) && Possible(peer, n, o, x) && AcrossOk(me.id, peer, n, o, mid)
    ensures AcrossOk(me.id, peer, After(me, peer, n, x), o, mid)
  {
    var n', row := After(me, peer, n, x), (peer, mid);
    hide Step, Attempt, KeyOk, Arrival, Settle, Readable, FreshEvent;
    assert OwnOk(peer, n, mid);
    match x
    case Local(e) =>
      Failed(me, n.s, e);
      if Attempt(me, n.s, e).Ok? {
        EventEffect(me, n.s, e);
        EffectAt(n.s, e, n'.s, row);
      }
    case Transmits(_) =>
    case Gets(got, f, handled, d) =>
      var e := Arrival(peer, got, f, handled, d);
      ArrivalShape(peer, got, f, handled, d);
      if got !in n.seen && Attempt(me, n.s, e).Ok? {
        EventEffect(me, n.s, e);
        EffectAt(n.s, e, n'.s, row);
      }
    case GetsItsAck(acked) =>
      SettleIsEvent(me, n.s, (peer, acked));
      EventEffect(me, n.s, GetsAck((peer, acked)));
      EffectAt(n.s, GetsAck((peer, acked)), n'.s, row);
    case Forgets(_) =>
  }

  /** And what n did with the other's. */
  lemma DeedGets(me: Identity, peer: PeerId, n: Node, o: Node, x: Deed, mid: MsgId)
    requires NodeInv(peer, n) && NodeInv(me.id, o) && Possible(peer, n, o, x) && AcrossOk(peer, me.id, o, n, mid)
    ensures AcrossOk(peer, me.id, o, After(me, peer, n, x), mid)
  {
    var n' := After(me, peer, n, x);
    hide Step, Attempt, KeyOk, Settle, FreshEvent, DecryptV, Effect;
    match x
    case Local(e) =>
      Failed(me, n.s, e);
      if Attempt(me, n.s, e).Ok? {
        EventEffect(me, n.s, e);
        SameReceived(n.s, e, n'.s);
      }
    case Transmits(_) =>
    case Gets(_, _, _, _) => ArrivalGets(me, peer, n, o, x, mid);
    case GetsItsAck(acked) =>
      SettleIsEvent(me, n.s, (peer, acked));
      EventEffect(me, n.s, GetsAck((peer, acked)));
      SameReceived(n.s, GetsAck((peer, acked)), n'.s);
    case Forgets(_) =>
  }

  lemma ArrivalGets(me: Identity, peer: PeerId, n: Node, o: Node, x: Deed, mid: MsgId)
    requires NodeInv(peer, n) && NodeInv(me.id, o) && Possible(peer, n, o, x) && AcrossOk(peer, me.id, o, n, mid)
    requires x.Gets?
    ensures AcrossOk(peer, me.id, o, After(me, peer, n, x), mid)
  {
    hide Step, Attempt, DecryptV, Effect;
    var e := Arrival(peer, x.mid, x.f, x.handled, x.d);
    assert FrameOk(o, x.mid, x.f);
    if x.mid !in n.seen && Attempt(me, n.s, e).Ok? {
      EventEffect(me, n.s, e);
      SameReceived(n.s, e, Step(me, n.s, e));
      ArrivalReads(n.s, peer, x.mid, x.f, x.handled, x.d);
      hide NodeInv, ReceivedAfter, Arrival, Readable, FreshEvent;
    }
  }

  /** What arrives is received exactly when it is readable and new. */
  lemma ArrivalReads(s: Store, from: PeerId, mid: MsgId, f: Frame, handled: bool, d: Draw)
    requires forall p :: p in s.sessions ==> WellFormed(s.sessions[p])
    ensures var e := Arrival(from, mid, f, handled, d);
      && (Readable(s, from, f, d) ==> f.m.ct.Sealed?)
      && ReceivedAfter(s, e) == if Readable(s, from, f, d) && (from, mid) !in s.received
                                then s.received[(from, mid) := f.m.ct.plain] else s.received
  {
    if Readable(s, from, f, d) {
      DecryptPlain(s.sessions[from], d.ratchetKey, f.m);
    }
    hide DecryptV;
  }

  lemma SameReceived(s: Store, e: Event, t: Store)
    requires (forall p :: p in s.sessions ==> WellFormed(s.sessions[p])) && Effect(s, e, t)
    ensures t.received == ReceivedAfter(s, e)
  {
  }

  // ----- runs -----

  ghost predicate Loadable(w: World) {
    && (forall q :: q in w.a.s.sessions ==> WellFormed(w.a.s.sessions[q]))
    && (forall q :: q in w.b.s.sessions ==> WellFormed(w.b.s.sessions[q]))
  }

  predicate May(p: P.Pair, w: World, x: Act) {
    if x.atA then Possible(p.b.id, w.a, w.b, x.x) else Possible(p.a.id, w.b, w.a, x.x)
  }

  ghost function Next(p: P.Pair, w: World, x: Act): World
    requires Loadable(w)
  {
    if x.atA then w.(a := After(p.a, p.b.id, w.a, x.x)) else w.(b := After(p.b, p.a.id, w.b, x.x))
  }

  const FIRST: Node := Node(EMPTY, {}, {}, {}, {}, map[], {}, {}, {}, {})
  const START: World := World(FIRST, FIRST)

  /** From w the acts lead to w'. */
  ghost predicate LeadsTo(p: P.Pair, w: World, xs: seq<Act>, w': World)
    requires Loadable(w)
    decreases |xs|
  {
    if xs == [] then w == w'
    else May(p, w, xs[0]) && Loadable(Next(p, w, xs[0])) && LeadsTo(p, Next(p, w, xs[0]), xs[1..], w')
  }

  lemma ActKeeps(p: P.Pair, w: World, x: Act)
    requires LinkInv(p, w) && Loadable(w) && May(p, w, x)
    ensures LinkInv(p, Next(p, w, x)) && Loadable(Next(p, w, x))
  {
    hide After, Possible, AcrossOk, KeyOk, OwnOk, FrameOk;
    var w' := Next(p, w, x);
    if x.atA {
      DeedOwn(p.a, p.b.id, w.a, w.b, x.x);
      forall mid
        ensures AcrossOk(p.a.id, p.b.id, w'.a, w'.b, mid) && AcrossOk(p.b.id, p.a.id, w'.b, w'.a, mid)
      {
        DeedSends(p.a, p.b.id, w.a, w.b, x.x, mid);
        DeedGets(p.a, p.b.id, w.a, w.b, x.x, mid);
      }
    } else {
      DeedOwn(p.b, p.a.id, w.b, w.a, x.x);
      forall mid
        ensures AcrossOk(p.a.id, p.b.id, w'.a, w'.b, mid) && AcrossOk(p.b.id, p.a.id, w'.b, w'.a, mid)
      {
        DeedSends(p.b, p.a.id, w.b, w.a, x.x, mid);
        DeedGets(p.b, p.a.id, w.b, w.a, x.x, mid);
      }
    }
  }

  lemma {:induction false} RunKeeps(p: P.Pair, w: World, xs: seq<Act>, w': World)
    requires LinkInv(p, w) && Loadable(w) && LeadsTo(p, w, xs, w')
    ensures LinkInv(p, w') && Loadable(w')
    decreases |xs|
  {
    hide LinkInv, May, Next;
    if xs != [] {
      ActKeeps(p, w, xs[0]);
      RunKeeps(p, Next(p, w, xs[0]), xs[1..], w');
    }
  }

  lemma Reachable(p: P.Pair, xs: seq<Act>, w: World)
    requires p.a.id != p.b.id && LeadsTo(p, START, xs, w)
    ensures LinkInv(p, w) && Loadable(w)
  {
    assert forall k :: KeyOk(EMPTY, k);
    assert LinkInv(p, START);
    RunKeeps(p, START, xs, w);
  }

  // ----- what it means -----

  /** The text mid that n wrote to o, in any reachable state. */
  ghost predicate TextSafe(n: Node, o: Node, row: RowKey, got: RowKey) {
    var mid := row.1;
    && (got in o.s.received <==> mid in o.read)
    && (got in o.s.received ==> row in n.s.messages)
    && (row in n.s.messages ==>
          && mid in n.wrote && (got in o.s.received ==> o.s.received[got] == n.wrote[mid])
          && (n.s.messages[row].deleted || n.s.messages[row].body == Some(n.wrote[mid]))
          && (n.s.messages[row].status == Delivered ==>
                && (mid in o.read || mid in o.blind)
                && (mid !in o.forgot ==> (got in o.s.received <==> mid !in o.blind)))
          && (n.s.messages[row].status != Delivered && !n.s.messages[row].deleted ==>
                (row in n.s.pending) != (row in n.s.outbox)))
  }

  /**
   Over every run: a received text is what was written, a text that is not yet Delivered still waits
   or is queued, and a Delivered one was committed by the receiver: it is in the receiver's history
   exactly when it could be read at a commit.
   */
  lemma TextsDelivered(p: P.Pair, xs: seq<Act>, w: World, mid: MsgId)
    requires p.a.id != p.b.id && LeadsTo(p, START, xs, w)
    ensures TextSafe(w.a, w.b, (p.b.id, mid), (p.a.id, mid)) && TextSafe(w.b, w.a, (p.a.id, mid), (p.b.id, mid))
  {
    Reachable(p, xs, w);
    assert AcrossOk(p.a.id, p.b.id, w.a, w.b, mid) && AcrossOk(p.b.id, p.a.id, w.b, w.a, mid);
    assert OwnOk(p.b.id, w.a, mid) && OwnOk(p.a.id, w.b, mid);
    assert KeyOk(w.a.s, (p.b.id, mid)) && KeyOk(w.b.s, (p.a.id, mid));
  }

  function NodeAt(w: World, atA: bool): Node {
    if atA then w.a else w.b
  }

  function IdAt(p: P.Pair, atA: bool): P.Identity {
    if atA then p.a else p.b
  }

  /** A text's envelope arrives for the first time, at o from n. */
  lemma FirstArrival(me: Identity, peer: PeerId, o: Node, n: Node, x: Deed)
    requires NodeInv(peer, o) && NodeInv(me.id, n) && x.Gets? && AcrossOk(peer, me.id, n, o, x.mid)
    requires x.f.ChatFrame? && x.mid !in o.done && Possible(peer, o, n, x)
    ensures var o' := After(me, peer, o, x);
      && x.mid in o'.done && x.mid in o'.acks
      && ((peer, x.mid) in o'.s.received <==> Readable(o.s, peer, x.f, x.d))
      && (x.mid in o'.blind <==> !Readable(o.s, peer, x.f, x.d))
  {
    hide Step, KeyOk, FreshEvent, Effect, DecryptV;
    var e := Arrival(peer, x.mid, x.f, x.handled, x.d);
    ArrivalCommits(me, o.s, e);
    EventEffect(me, o.s, e);
    SameReceived(o.s, e, Step(me, o.s, e));
    ArrivalReads(o.s, peer, x.mid, x.f, x.handled, x.d);
    hide ReceivedAfter, Readable, Attempt, NodeInv;
  }

  lemma ArrivalCommits(me: Identity, s: Store, e: Event)
    requires ChatInvariant.Inv(s) && e.GetsChat? && FreshEvent(s, e)
    ensures Attempt(me, s, e).Ok?
  {
    OnChatKeeps(me, s, e.from, e.mid, e.stamp, e.chat, e.d);
  }

  lemma AckSettles(peer: PeerId, me: Identity, n: Node, mid: MsgId)
    requires NodeInv(peer, n) && (peer, mid) in n.s.outbox && mid in n.wrote
    ensures var s := After(me, peer, n, GetsItsAck(mid)).s;
      (peer, mid) in s.messages && s.messages[(peer, mid)].status == Delivered
  {
    assert OwnOk(peer, n, mid);
    SettleKeeps(n.s, (peer, mid));
    hide KeyOk;
    assert Settle(n.s, (peer, mid)).messages.Keys == n.s.messages.Keys;
    hide Settle;
  }

  /**
   A text whose envelope arrives and whose ack comes back counts as Delivered, whatever happened to
   it: it is in the receiver's history exactly when at the commit there was a session that decrypts it.
   */
  lemma DeliveredIffReadable(p: P.Pair, xs: seq<Act>, w: World, fromA: bool, x: Deed)
    requires p.a.id != p.b.id && LeadsTo(p, START, xs, w)
    requires x.Gets? && x.f.ChatFrame? && May(p, w, Act(!fromA, x)) && x.mid !in NodeAt(w, !fromA).done
    requires (IdAt(p, !fromA).id, x.mid) in NodeAt(w, fromA).s.outbox
    ensures Loadable(w) && Loadable(Next(p, w, Act(!fromA, x)))
    ensures var w1 := Next(p, w, Act(!fromA, x));
      var w2, row := Next(p, w1, Act(fromA, GetsItsAck(x.mid))), (IdAt(p, !fromA).id, x.mid);
      && May(p, w1, Act(fromA, GetsItsAck(x.mid)))
      && row in NodeAt(w2, fromA).s.messages && NodeAt(w2, fromA).s.messages[row].status == Delivered
      && ((IdAt(p, fromA).id, x.mid) in NodeAt(w2, !fromA).s.received
          <==> Readable(NodeAt(w, !fromA).s, IdAt(p, fromA).id, x.f, x.d))
  {
    Reachable(p, xs, w);
    var (n, o) := (NodeAt(w, fromA), NodeAt(w, !fromA));
    var (sender, receiver) := (IdAt(p, fromA), IdAt(p, !fromA));
    ActKeeps(p, w, Act(!fromA, x));
    assert AcrossOk(sender.id, receiver.id, n, o, x.mid);
    assert FrameOk(n, x.mid, x.f);
    hide AcrossOk, Readable, NodeInv, After, FrameOk;
    FirstArrival(receiver, sender.id, o, n, x);
    AckSettles(receiver.id, sender, n, x.mid);
  }
}
