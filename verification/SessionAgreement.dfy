/**
 Two nodes establish sessions with each other: handshakes may start on either side at any
 time, collide, replace older sessions and meet leftovers of handshakes that lost.
 */
module SessionAgreement {
  import opened Prelude
  import opened RatchetCrypto
  import opened Ratchet
  import opened RatchetHandshake

  /** What a node stores about its peer: an unfinished handshake of its own, and a session. */
  datatype Node = Node(hs: Option<Handshake>, session: Option<StateV>)

  datatype Wire = WInit(init: Init) | WAck(ack: InitAck)

  /** One side's fixed identity. */
  datatype Identity = Identity(id: PeerId, ik: Priv)

  /** Byte-wise order of node ids; the smaller one stays the initiator. */
  predicate Less(a: PeerId, b: PeerId) {
    exists i: nat :: i < |a| && i < |b| && a[..i] == b[..i] && a[i] < b[i]
  }

  /** Ids have one length. */
  method Smaller(a: PeerId, b: PeerId) returns (r: bool)
    requires |a| == |b|
    ensures r == Less(a, b)
  {
    for i := 0 to |a|
      invariant a[..i] == b[..i]
    {
      if a[i] != b[i] {
        FirstDifference(a, b, i);
        return a[i] < b[i];
      }
      assert a[..i + 1] == a[..i] + [a[i]] && b[..i + 1] == b[..i] + [b[i]];
    }
    FirstDifference(a, b, |a|);
    return false;
  }

  /** Less looks at the first position at which the ids differ. */
  lemma FirstDifference(a: PeerId, b: PeerId, i: nat)
    requires |a| == |b| && i <= |a| && a[..i] == b[..i] && (i < |a| ==> a[i] != b[i])
    ensures Less(a, b) <==> i < |a| && a[i] < b[i]
  {
    SamePrefix(a, b, i);
    if Less(a, b) {
      var j: nat :| j < |a| && a[..j] == b[..j] && a[j] < b[j];
      SamePrefix(a, b, j);
    }
  }

  lemma SamePrefix(a: PeerId, b: PeerId, i: nat)
    requires i <= |a| && i <= |b| && a[..i] == b[..i]
    ensures forall k :: 0 <= k < i ==> a[k] == b[k]
  {
    forall k | 0 <= k < i
      ensures a[k] == b[k]
    {
      assert a[..i][k] == b[..i][k];
    }
  }

  function EnsureHandshake(me: Identity, n: Node, eph: Priv, sid: Bytes): (Node, seq<Wire>) {
    if n.hs.Some? then (n, [])
    else
      var h := Handshake(me.ik, eph, sid);
      (n.(hs := Some(h)), [WInit(InitOf(h))])
  }

  function OnSessionInit(me: Identity, from: PeerId, n: Node, init: Init, drawn: Priv): (Node, seq<Wire>) {
    if n.hs.Some? && Less(me.id, from) then (n, [])
    else
      match AcceptHandshake(me.ik, drawn, init, from, me.id)
      case Err(_) => (n, [])
      case Ok((st, ack)) => (Node(None, Some(st)), [WAck(ack)])
  }

  function OnSessionInitAck(me: Identity, from: PeerId, n: Node, ack: InitAck, drawn: Priv): Node {
    if n.hs.None? then n
    else
      match Finish(n.hs.value, drawn, ack, me.id, from)
      case Err(_) => n
      case Ok(st) => Node(None, Some(st))
  }

  /** Both nodes and what is on its way; position 0 is the node with the smaller id. */
  datatype Net = Net(small: Node, large: Node, toSmall: seq<Wire>, toLarge: seq<Wire>)

  datatype Pair = Pair(a: Identity, b: Identity)

  datatype Event =
    | StartSmall(eph: Priv, sid: Bytes)
    | StartLarge(eph: Priv, sid: Bytes)
    | AtSmall(i: nat, drawn: Priv)
    | AtLarge(i: nat, drawn: Priv)
    | SmallTalks(st: StateV)
    | LargeTalks(st: StateV)

  /** Messages advance a session's state without touching its binding. */
  function Talk(n: Node, st: StateV): Node {
    if n.session.Some? && n.session.value.ad == st.ad then n.(session := Some(st)) else n
  }

  function Receive(me: Identity, from: PeerId, n: Node, w: Wire, drawn: Priv): (Node, seq<Wire>) {
    match w
    case WInit(init) => OnSessionInit(me, from, n, init, drawn)
    case WAck(ack) => (OnSessionInitAck(me, from, n, ack, drawn), [])
  }

  /** AtSmall(i, ..) and AtLarge(i, ..) deliver message i of the queue; in FIFO order i is 0. */
  function Step(p: Pair, s: Net, e: Event): Net {
    match e
    case StartSmall(eph, sid) =>
      var (n, out) := EnsureHandshake(p.a, s.small, eph, sid);
      s.(small := n, toLarge := s.toLarge + out)
    case StartLarge(eph, sid) =>
      var (n, out) := EnsureHandshake(p.b, s.large, eph, sid);
      s.(large := n, toSmall := s.toSmall + out)
    case AtSmall(i, drawn) =>
      if i >= |s.toSmall| then s
      else
        var (n, out) := Receive(p.a, p.b.id, s.small, s.toSmall[i], drawn);
        s.(small := n, toSmall := RemoveAt(s.toSmall, i), toLarge := s.toLarge + out)
    case AtLarge(i, drawn) =>
      if i >= |s.toLarge| then s
      else
        var (n, out) := Receive(p.b, p.a.id, s.large, s.toLarge[i], drawn);
        s.(large := n, toLarge := RemoveAt(s.toLarge, i), toSmall := s.toSmall + out)
    case SmallTalks(st) => s.(small := Talk(s.small, st))
    case LargeTalks(st) => s.(large := Talk(s.large, st))
  }

  function Run(p: Pair, s: Net, es: seq<Event>): Net
    decreases |es|
  {
    if es == [] then s else Run(p, Step(p, s, es[0]), es[1..])
  }

  predicate Fifo(e: Event) {
    (e.AtSmall? || e.AtLarge?) ==> e.i == 0
  }

  predicate Starts(e: Event) {
    e.StartSmall? || e.StartLarge?
  }

  const START := Net(Node(None, None), Node(None, None), [], [])

  predicate Quiet(s: Net) {
    s.toSmall == [] && s.toLarge == []
  }

  /** Both hold the same session or neither holds one. */
  predicate Agree(s: Net) {
    match (s.small.session, s.large.session)
    case (None, None) => true
    case (Some(x), Some(y)) => x.ad == y.ad
    case _ => false
  }

  // ----- the invariant under FIFO delivery -----

  /** The binding of a session begun by h of x with y, answered by ack. */
  function Binding(x: PeerId, y: PeerId, h: Handshake, ack: InitAck): Transcript {
    Transcript(x, y, PubOf(h.ik), ack.ik, PubOf(h.eph), ack.eph, h.sid)
  }

  /** ack, still under way, answers h, and the answering node already holds that session. */
  predicate Answers(x: PeerId, y: PeerId, h: Option<Handshake>, ack: InitAck, answering: Node) {
    && h.Some? && ack.sid == h.value.sid && ack.ik.PubOf? && ack.eph.PubOf?
    && answering.session.Some? && answering.session.value.ad == Binding(x, y, h.value, ack)
  }

  /** Towards the larger node: at most one ack, then at most one init, the smaller node's own. */
  predicate ToLargeOk(p: Pair, s: Net) {
    var q := s.toLarge;
    && |q| <= 2
    && (forall i :: 0 <= i < |q| && q[i].WAck? ==> i == 0)
    && (forall i :: 0 <= i < |q| && q[i].WInit? ==>
          i == |q| - 1 && s.small.hs.Some? && q[i].init == InitOf(s.small.hs.value))
    && (q != [] && q[0].WAck? ==>
          s.toSmall == [] && Answers(p.b.id, p.a.id, s.large.hs, q[0].ack, s.small))
  }

  predicate HasInit(q: seq<Wire>) {
    q != [] && q[|q| - 1].WInit?
  }

  /** Position of the only ack towards the smaller node, if there is one. */
  predicate AckAt(q: seq<Wire>, i: nat) {
    i < |q| && q[i].WAck?
  }

  /** Position i towards the smaller node holds the only ack, at most one init behind it. */
  predicate AckOk(p: Pair, s: Net, i: nat) {
    var q := s.toSmall;
    AckAt(q, i) ==>
      && |q| <= i + 2 && (|q| == i + 2 ==> q[i + 1].WInit?)
      && s.toLarge == [] && Answers(p.a.id, p.b.id, s.small.hs, q[i].ack, s.large)
  }

  /** Towards the smaller node: at most one leftover init before the ack, and at most one live one at the end. */
  predicate ToSmallOk(p: Pair, s: Net) {
    var q := s.toSmall;
    && AckOk(p, s, 0) && AckOk(p, s, 1) && !AckAt(q, 2)
    && (!AckToSmall(s) ==> |q| <= 1)
    && (HasInit(q) ==> s.large.hs.Some? && q[|q| - 1] == WInit(InitOf(s.large.hs.value)))
  }

  predicate AckToSmall(s: Net) {
    AckAt(s.toSmall, 0) || AckAt(s.toSmall, 1)
  }

  predicate Inv(p: Pair, s: Net) {
    && Less(p.a.id, p.b.id)
    && !Less(p.b.id, p.a.id)
    && ToLargeOk(p, s) && ToSmallOk(p, s)
    && (s.small.hs.Some? ==> s.small.hs.value.ik == p.a.ik && HasInit(s.toLarge) != AckToSmall(s))
    && (s.small.hs.None? ==> !HasInit(s.toLarge) && !AckToSmall(s))
    && (s.large.hs.Some? ==>
          && s.large.hs.value.ik == p.b.ik
          && (HasInit(s.toSmall) || HasInit(s.toLarge) || AckAt(s.toLarge, 0)))
    && (!AckToSmall(s) && !AckAt(s.toLarge, 0) ==> Agree(s))
  }

  lemma StartKeeps(p: Pair, s: Net, e: Event)
    requires Inv(p, s) && Starts(e)
    ensures Inv(p, Step(p, s, e))
  {
    hide Less, InitOf;
  }

  lemma TalkKeeps(p: Pair, s: Net, e: Event)
    requires Inv(p, s) && (e.SmallTalks? || e.LargeTalks?)
    ensures Inv(p, Step(p, s, e))
  {
  }

  /** The smaller node takes the answer to its handshake: nothing but one init can remain under way. */
  lemma AckAtSmall(p: Pair, s: Net, drawn: Priv)
    requires Inv(p, s) && s.toSmall != [] && s.toSmall[0].WAck?
    ensures Inv(p, Step(p, s, AtSmall(0, drawn))) && Agree(Step(p, s, AtSmall(0, drawn)))
  {
    assert AckAt(s.toSmall, 0);
    var t := Step(p, s, AtSmall(0, drawn));
    assert t.toSmall == s.toSmall[1..];
  }

  /** An init is ignored while the smaller node's own handshake runs. */
  lemma InitIgnored(p: Pair, s: Net, drawn: Priv)
    requires Inv(p, s) && s.toSmall != [] && s.toSmall[0].WInit? && s.small.hs.Some?
    ensures Inv(p, Step(p, s, AtSmall(0, drawn)))
  {
    var t := Step(p, s, AtSmall(0, drawn));
    assert t == s.(toSmall := s.toSmall[1..]);
  }

  /** Otherwise it is accepted; it is the larger node's running handshake, and nothing else is under way. */
  lemma InitAccepted(p: Pair, s: Net, drawn: Priv)
    requires Inv(p, s) && s.toSmall != [] && s.toSmall[0].WInit? && s.small.hs.None?
    ensures Inv(p, Step(p, s, AtSmall(0, drawn)))
  {
    assert |s.toSmall| == 1 && s.toLarge == [];
    var t := Step(p, s, AtSmall(0, drawn));
    assert t.toSmall == [] && |t.toLarge| == 1 && t.toLarge[0].WAck?;
  }

  lemma AckAtLarge(p: Pair, s: Net, drawn: Priv)
    requires Inv(p, s) && s.toLarge != [] && s.toLarge[0].WAck?
    ensures Inv(p, Step(p, s, AtLarge(0, drawn)))
  {
    var t := Step(p, s, AtLarge(0, drawn));
    assert t.toLarge == s.toLarge[1..];
  }

  /** The larger node always yields to an init: its own handshake dies, its init stays under way. */
  lemma InitAtLarge(p: Pair, s: Net, drawn: Priv)
    requires Inv(p, s) && s.toLarge != [] && s.toLarge[0].WInit?
    ensures Inv(p, Step(p, s, AtLarge(0, drawn)))
  {
    var t := Step(p, s, AtLarge(0, drawn));
    assert t.toLarge == s.toLarge[1..];
  }

  lemma StepKeeps(p: Pair, s: Net, e: Event)
    requires Inv(p, s) && Fifo(e)
    ensures Inv(p, Step(p, s, e))
  {
    hide Inv;
    match e
    case StartSmall(_, _) => StartKeeps(p, s, e);
    case StartLarge(_, _) => StartKeeps(p, s, e);
    case SmallTalks(_) => TalkKeeps(p, s, e);
    case LargeTalks(_) => TalkKeeps(p, s, e);
    case AtSmall(_, drawn) =>
      if s.toSmall != [] {
        if s.toSmall[0].WAck? {
          AckAtSmall(p, s, drawn);
        } else if s.small.hs.Some? {
          InitIgnored(p, s, drawn);
        } else {
          InitAccepted(p, s, drawn);
        }
      }
    case AtLarge(_, drawn) =>
      if s.toLarge != [] {
        if s.toLarge[0].WAck? {
          AckAtLarge(p, s, drawn);
        } else {
          InitAtLarge(p, s, drawn);
        }
      }
  }

  lemma {:induction false} RunKeeps(p: Pair, s: Net, es: seq<Event>)
    requires Inv(p, s) && forall e :: e in es ==> Fifo(e)
    ensures Inv(p, Run(p, s, es))
    decreases |es|
  {
    if es != [] {
      StepKeeps(p, s, es[0]);
      RunKeeps(p, Step(p, s, es[0]), es[1..]);
    }
  }

  lemma LessAsymmetric(a: PeerId, b: PeerId)
    requires Less(a, b)
    ensures !Less(b, a)
  {
    var i: nat :| i < |a| && i < |b| && a[..i] == b[..i] && a[i] < b[i];
    forall j: nat | j < |a| && j < |b| && b[..j] == a[..j]
      ensures b[j] >= a[j]
    {
      assert j < i ==> a[..i][j] == b[..i][j];
    }
  }

  /**
   With init and ack delivered in order: whenever none is under way, both nodes hold the same
   session or neither holds one, and no handshake is left hanging.
   */
  lemma Agreement(p: Pair, es: seq<Event>)
    requires Less(p.a.id, p.b.id) && forall e :: e in es ==> Fifo(e)
    ensures var s := Run(p, START, es);
      Quiet(s) ==> Agree(s) && s.small.hs.None? && s.large.hs.None?
  {
    LessAsymmetric(p.a.id, p.b.id);
    RunKeeps(p, START, es);
  }

  /** The transcript belongs to a session begun by the smaller node's handshake h. */
  predicate BegunBy(p: Pair, h: Handshake, t: Transcript) {
    t.initiator == p.a.id && t.responder == p.b.id && t.ephI == PubOf(h.eph) && t.sid == h.sid
  }

  /** h, the smaller node's handshake, is on its way to becoming the session, or has become it. */
  predicate Winning(p: Pair, s: Net, h: Handshake) {
    && Inv(p, s)
    && if s.small.hs == Some(h) then
         HasInit(s.toLarge) || (s.toSmall != [] && s.toSmall[|s.toSmall| - 1].WAck?)
       else
         && Quiet(s) && s.small.session.Some? && BegunBy(p, h, s.small.session.value.ad)
  }

  lemma WinningStep(p: Pair, s: Net, e: Event, h: Handshake)
    requires Winning(p, s, h) && Fifo(e) && !Starts(e)
    ensures Winning(p, Step(p, s, e), h)
  {
    StepKeeps(p, s, e);
    match e
    case SmallTalks(_) =>
    case LargeTalks(_) =>
    case AtSmall(_, drawn) => WinningAtSmall(p, s, drawn, h);
    case AtLarge(_, drawn) => WinningAtLarge(p, s, drawn, h);
  }

  lemma WinningAtSmall(p: Pair, s: Net, drawn: Priv, h: Handshake)
    requires Winning(p, s, h) && Inv(p, Step(p, s, AtSmall(0, drawn)))
    ensures Winning(p, Step(p, s, AtSmall(0, drawn)), h)
  {
    var t := Step(p, s, AtSmall(0, drawn));
    if s.toSmall != [] {
      assert t.toSmall == s.toSmall[1..];
      assert AckAt(s.toSmall, 0) || AckAt(s.toSmall, 1) || HasInit(s.toLarge);
    }
  }

  lemma WinningAtLarge(p: Pair, s: Net, drawn: Priv, h: Handshake)
    requires Winning(p, s, h) && Inv(p, Step(p, s, AtLarge(0, drawn)))
    ensures Winning(p, Step(p, s, AtLarge(0, drawn)), h)
  {
    var t := Step(p, s, AtLarge(0, drawn));
    if s.toLarge != [] {
      assert t.toLarge == s.toLarge[1..];
    }
  }

  lemma {:induction false} WinningRun(p: Pair, s: Net, es: seq<Event>, h: Handshake)
    requires Winning(p, s, h) && forall e :: e in es ==> Fifo(e) && !Starts(e)
    ensures Winning(p, Run(p, s, es), h)
    decreases |es|
  {
    if es != [] {
      WinningStep(p, s, es[0], h);
      WinningRun(p, Step(p, s, es[0]), es[1..], h);
    }
  }

  /**
   Collisions are won by the smaller NodeID: once its init is under way, and nothing new is
   started, the quiet state has its session on both sides, whatever the larger node had begun.
   */
  lemma SmallerWins(p: Pair, before: seq<Event>, after: seq<Event>)
    requires Less(p.a.id, p.b.id)
    requires (forall e :: e in before ==> Fifo(e)) && (forall e :: e in after ==> Fifo(e) && !Starts(e))
    requires HasInit(Run(p, START, before).toLarge) && Quiet(Run(p, Run(p, START, before), after))
    ensures Run(p, START, before).small.hs.Some?
    ensures var s := Run(p, Run(p, START, before), after);
      && s.small.session.Some? && s.large.session.Some?
      && s.small.session.value.ad == s.large.session.value.ad
      && BegunBy(p, Run(p, START, before).small.hs.value, s.small.session.value.ad)
  {
    LessAsymmetric(p.a.id, p.b.id);
    RunKeeps(p, START, before);
    var s := Run(p, START, before);
    WinningRun(p, s, after, s.small.hs.value);
  }

  /** Both begin; the larger node answers the smaller one's init, its own still under way. */
  lemma BothBegin(p: Pair, k: seq<Priv>, sid1: Bytes, sid2: Bytes)
    requires Less(p.a.id, p.b.id) && |k| == 6
    ensures var s := Step(p, Step(p, Step(p, START, StartLarge(k[0], sid2)), StartSmall(k[1], sid1)), AtLarge(0, k[2]));
      && s.toLarge == [] && |s.toSmall| == 2 && s.toSmall[0] == WInit(InitOf(Handshake(p.b.ik, k[0], sid2)))
      && s.toSmall[1].WAck? && s.small.hs == Some(Handshake(p.a.ik, k[1], sid1)) && s.small.session.None?
      && Answers(p.a.id, p.b.id, s.small.hs, s.toSmall[1].ack, s.large) && s.large.hs.None?
  {
    LessAsymmetric(p.a.id, p.b.id);
    var s1 := Step(p, START, StartLarge(k[0], sid2));
    var s2 := Step(p, s1, StartSmall(k[1], sid1));
    assert s2.toLarge == [WInit(InitOf(Handshake(p.a.ik, k[1], sid1)))];
    hide Less;
  }

  /** The ack is delivered first, then the init that had lost. */
  lemma AckThenInit(p: Pair, s: Net, h2: Handshake, k: seq<Priv>)
    requires |k| == 6 && h2.ik == p.b.ik && s.toLarge == [] && |s.toSmall| == 2 && s.toSmall[0] == WInit(InitOf(h2))
    requires s.toSmall[1].WAck? && Answers(p.a.id, p.b.id, s.small.hs, s.toSmall[1].ack, s.large)
    requires s.small.hs.value.ik == p.a.ik
    requires s.large.hs.None? && p.a.id != p.b.id
    ensures var t := Step(p, Step(p, Step(p, s, AtSmall(1, k[3])), AtSmall(0, k[4])), AtLarge(0, k[5]));
      Quiet(t) && !Agree(t)
  {
    var s4 := Step(p, s, AtSmall(1, k[3]));
    assert s4.toSmall == [WInit(InitOf(h2))] && s4.toLarge == [] && s4.small.hs.None? && s4.large == s.large;
    InitTaken(p, s4, h2, k);
    hide Step, Answers;
  }

  lemma InitTaken(p: Pair, s: Net, h2: Handshake, k: seq<Priv>)
    requires |k| == 6 && h2.ik == p.b.ik && s.toSmall == [WInit(InitOf(h2))] && s.toLarge == [] && s.small.hs.None?
    requires s.large.hs.None? && s.large.session.Some? && s.large.session.value.ad.initiator == p.a.id != p.b.id
    ensures var t := Step(p, Step(p, s, AtSmall(0, k[4])), AtLarge(0, k[5]));
      Quiet(t) && !Agree(t)
  {
    var s5 := Step(p, s, AtSmall(0, k[4]));
    assert s5.toSmall == [] && |s5.toLarge| == 1 && s5.toLarge[0].WAck? && s5.large == s.large;
    assert s5.small.session.value.ad.initiator == p.b.id;
    hide AcceptHandshake, Less, InitOf;
    assert Step(p, s5, AtLarge(0, k[5])) == s5.(toLarge := RemoveAt(s5.toLarge, 0), toSmall := s5.toSmall + []);
  }

  /**
   Without ordered delivery agreement fails: an init that lost a collision, delivered after the
   winner's ack, is accepted by the smaller node alone.
   */
  lemma ReorderingBreaks(p: Pair, k: seq<Priv>, sid1: Bytes, sid2: Bytes)
    requires Less(p.a.id, p.b.id) && |k| == 6
    ensures var es := [StartLarge(k[0], sid2), StartSmall(k[1], sid1), AtLarge(0, k[2]),
                       AtSmall(1, k[3]), AtSmall(0, k[4]), AtLarge(0, k[5])];
      Quiet(Run(p, START, es)) && !Agree(Run(p, START, es))
  {
    LessAsymmetric(p.a.id, p.b.id);
    var s1 := Step(p, START, StartLarge(k[0], sid2));
    var s2 := Step(p, s1, StartSmall(k[1], sid1));
    var s3 := Step(p, s2, AtLarge(0, k[2]));
    hide Step, Run, Answers;
    BothBegin(p, k, sid1, sid2);
    AckThenInit(p, s3, Handshake(p.b.ik, k[0], sid2), k);
    var s4 := Step(p, s3, AtSmall(1, k[3]));
    var s5 := Step(p, s4, AtSmall(0, k[4]));
    var e5 := AtLarge(0, k[5]);
    RunNone(p, Step(p, s5, e5));
    RunCons(p, s5, e5, []);
    RunCons(p, s4, AtSmall(0, k[4]), [e5]);
    RunCons(p, s3, AtSmall(1, k[3]), [AtSmall(0, k[4]), e5]);
    RunCons(p, s2, AtLarge(0, k[2]), [AtSmall(1, k[3]), AtSmall(0, k[4]), e5]);
    RunCons(p, s1, StartSmall(k[1], sid1), [AtLarge(0, k[2]), AtSmall(1, k[3]), AtSmall(0, k[4]), e5]);
    RunCons(p, START, StartLarge(k[0], sid2),
            [StartSmall(k[1], sid1), AtLarge(0, k[2]), AtSmall(1, k[3]), AtSmall(0, k[4]), e5]);
  }

  lemma RunNone(p: Pair, s: Net)
    ensures Run(p, s, []) == s
  {
  }

  lemma RunCons(p: Pair, s: Net, e: Event, es: seq<Event>)
    ensures Run(p, s, [e] + es) == Run(p, Step(p, s, e), es)
  {
    assert ([e] + es)[1..] == es;
  }
}
