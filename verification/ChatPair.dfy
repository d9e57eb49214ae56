/**
 Two nodes with their whole stores: every event of either node, and the inits and acks that each
 queues for the other. Projected to the session protocol this is a run of it, so the stores agree.
 */
module ChatPair {
  import opened Prelude
  import opened RatchetCrypto
  import opened Ratchet
  import opened RatchetHandshake
  import opened Chat
  import opened ChatInvariant
  import opened ChatAgreement
  import P = SessionAgreement
  import SessionOrder

  /** Both stores and the inits and acks on their way. */
  datatype World = World(a: Store, b: Store, toA: seq<P.Wire>, toB: seq<P.Wire>)

  /** An event at one node, or the arrival of message i of its queue. */
  datatype Act =
    | AtA(e: Event)
    | AtB(e: Event)
    | ToA(i: nat, d: Draw)
    | ToB(i: nat, d: Draw)

  function WireOf(f: Frame): seq<P.Wire> {
    match f
    case InitFrame(init) => [P.WInit(init)]
    case AckFrame(ack) => [P.WAck(ack)]
    case _ => []
  }

  /** The init or ack for peer p that the event has put into the outbox. */
  function Queued(t: Store, p: PeerId, e: Event): seq<P.Wire> {
    match DrawOf(e)
    case None => []
    case Some(d) =>
      if PeerOf(e) == p && (p, d.serviceMid) in t.outbox then WireOf(t.outbox[(p, d.serviceMid)]) else []
  }

  function Arrival(w: P.Wire, from: PeerId, d: Draw): Event {
    match w
    case WInit(init) => GetsInit(from, Some(init), d)
    case WAck(ack) => GetsInitAck(from, Some(ack), d)
  }

  /** Not an init or ack of the other node, which come from the queue. */
  predicate Local(e: Event, other: PeerId) {
    PeerOf(e) == other ==> !(e.GetsInit? && e.init.Some?) && !(e.GetsInitAck? && e.ack.Some?)
  }

  ghost predicate May(p: P.Pair, w: World, x: Act) {
    match x
    case AtA(e) => FreshEvent(w.a, e) && Local(e, p.b.id)
    case AtB(e) => FreshEvent(w.b, e) && Local(e, p.a.id)
    case ToA(i, d) => i < |w.toA| && FreshDraw(w.a, p.b.id, d)
    case ToB(i, d) => i < |w.toB| && FreshDraw(w.b, p.a.id, d)
  }

  ghost predicate Sound(w: World) {
    Inv(w.a) && Inv(w.b)
  }

  ghost function Next(p: P.Pair, w: World, x: Act): World
    requires Sound(w) && May(p, w, x)
  {
    match x
    case AtA(e) =>
      var t := Step(p.a, w.a, e);
      w.(a := t, toB := w.toB + Queued(t, p.b.id, e))
    case AtB(e) =>
      var t := Step(p.b, w.b, e);
      w.(b := t, toA := w.toA + Queued(t, p.a.id, e))
    case ToA(i, d) =>
      var e := Arrival(w.toA[i], p.b.id, d);
      var t := Step(p.a, w.a, e);
      w.(a := t, toA := RemoveAt(w.toA, i), toB := w.toB + Queued(t, p.b.id, e))
    case ToB(i, d) =>
      var e := Arrival(w.toB[i], p.a.id, d);
      var t := Step(p.b, w.b, e);
      w.(b := t, toB := RemoveAt(w.toB, i), toA := w.toA + Queued(t, p.a.id, e))
  }

  // ----- the session protocol inside -----

  function Project(p: P.Pair, w: World): P.Net {
    P.Net(NodeOf(w.a, p.b.id), NodeOf(w.b, p.a.id), w.toA, w.toB)
  }

  /** A move as an event of the protocol, at the smaller or the larger node. */
  function AsEvent(small: bool, m: Move, i: nat): P.Event {
    match m
    case Starts(eph, sid) => if small then P.StartSmall(eph, sid) else P.StartLarge(eph, sid)
    case Talks(st) => if small then P.SmallTalks(st) else P.LargeTalks(st)
    case TakesInit(_, drawn) => if small then P.AtSmall(i, drawn) else P.AtLarge(i, drawn)
    case TakesAck(_, drawn) => if small then P.AtSmall(i, drawn) else P.AtLarge(i, drawn)
  }

  function AsEvents(small: bool, ms: seq<Move>, i: nat): seq<P.Event> {
    if ms == [] then [] else AsEvents(small, ms[..|ms| - 1], i) + [AsEvent(small, ms[|ms| - 1], i)]
  }

  /** The protocol events of one event. */
  ghost function EventsOf(p: P.Pair, w: World, x: Act): seq<P.Event>
    requires Sound(w) && May(p, w, x)
  {
    match x
    case AtA(e) => if PeerOf(e) == p.b.id then AsEvents(true, MovesOf(p.a, w.a, e), 0) else []
    case AtB(e) => if PeerOf(e) == p.a.id then AsEvents(false, MovesOf(p.b, w.b, e), 0) else []
    case ToA(i, d) => AsEvents(true, MovesOf(p.a, w.a, Arrival(w.toA[i], p.b.id, d)), i)
    case ToB(i, d) => AsEvents(false, MovesOf(p.b, w.b, Arrival(w.toB[i], p.a.id, d)), i)
  }

  // ----- one node -----

  /** What is new under a free key is exactly what was sent. */
  lemma NewFrames(box: map<RowKey, Frame>, box': map<RowKey, Frame>, k: RowKey, ws: seq<P.Wire>)
    requires Frames(box') == ChatAgreement.Sent(Frames(box), k, ws) && k !in box && |ws| <= 1
    ensures (if k in box' then WireOf(box'[k]) else []) == ws
  {
    assert k in Frames(box') <==> ws != [];
  }

  /** A node's event moves the peer's node by its moves and queues exactly their messages. */
  lemma Side(me: Identity, s: Store, e: Event)
    requires Inv(s) && FreshEvent(s, e)
    ensures var p, t := PeerOf(e), Step(me, s, e);
      && NodeOf(t, p) == AfterMoves(me, p, NodeOf(s, p), MovesOf(me, s, e))
      && Queued(t, p, e) == WiresOf(me, p, NodeOf(s, p), MovesOf(me, s, e))
  {
    hide MovesOf, WiresOf, AfterMoves, Step, Frames, ChatAgreement.Sent, WireOf, KeyOk;
    var p, t, ms := PeerOf(e), Step(me, s, e), MovesOf(me, s, e);
    if DrawOf(e).None? {
      NoDrawNoMoves(me, s, e);
    } else {
      FollowsProtocol(me, s, e);
      FewWires(me, p, NodeOf(s, p), ms);
      NewFrames(s.outbox, t.outbox, (p, DrawOf(e).value.serviceMid), WiresOf(me, p, NodeOf(s, p), ms));
    }
  }

  lemma NoDrawNoMoves(me: Identity, s: Store, e: Event)
    requires Inv(s) && DrawOf(e).None?
    ensures MovesOf(me, s, e) == [] && NodeOf(Step(me, s, e), PeerOf(e)) == NodeOf(s, PeerOf(e))
    ensures forall p, n :: WiresOf(me, p, n, []) == [] && AfterMoves(me, p, n, []) == n
  {
    if e.GetsAck? {
      AckedFrames(s, e.k);
    }
  }

  lemma FewWires(me: Identity, p: PeerId, n: P.Node, ms: seq<Move>)
    ensures |WiresOf(me, p, n, ms)| <= 1
  {
  }

  /** Events with others change nothing between the two. */
  lemma Elsewhere(me: Identity, s: Store, e: Event, other: PeerId)
    requires Inv(s) && FreshEvent(s, e) && PeerOf(e) != other
    ensures NodeOf(Step(me, s, e), other) == NodeOf(s, other) && Queued(Step(me, s, e), other, e) == []
  {
    if e.GetsAck? {
      AckedFrames(s, e.k);
    } else {
      FollowsProtocol(me, s, e);
      hide MovesOf, WiresOf, AfterMoves, Step, Frames;
    }
  }

  /** Only an arrival takes a message, and only first; a second move is talk. */
  lemma MovesShape(me: Identity, s: Store, e: Event)
    requires Inv(s)
    ensures var ms := MovesOf(me, s, e);
      && |ms| <= 2 && (|ms| == 2 ==> ms[1].Talks?)
      && (|ms| > 0 && ms[0].TakesInit? ==> e.GetsInit? && e.init == Some(ms[0].init))
      && (|ms| > 0 && ms[0].TakesAck? ==> e.GetsInitAck? && e.ack == Some(ms[0].ack))
  {
    hide Step, Attempt, DecryptV;
  }

  lemma ArrivalMoves(me: Identity, s: Store, w: P.Wire, from: PeerId, d: Draw)
    requires Inv(s) && FreshDraw(s, from, d)
    ensures var ms := MovesOf(me, s, Arrival(w, from, d));
      |ms| > 0 && if w.WInit? then ms[0] == TakesInit(w.init, d.eph) else ms[0] == TakesAck(w.ack, d.ratchetKey)
  {
    match w
    case WInit(init) => OnSessionInitKeeps(me, s, from, Some(init), d);
    case WAck(ack) => OnSessionInitAckKeeps(me, s, from, Some(ack), d);
    hide OnSessionInit, OnSessionInitAck, Inv;
  }

  // ----- the simulation -----

  /** One move at the smaller node. */
  lemma SmallMove(p: P.Pair, n: P.Net, m: Move, i: nat)
    requires (m.TakesInit? ==> i < |n.toSmall| && n.toSmall[i] == P.WInit(m.init))
    requires (m.TakesAck? ==> i < |n.toSmall| && n.toSmall[i] == P.WAck(m.ack))
    ensures P.Step(p, n, AsEvent(true, m, i))
         == P.Net(Moved(p.a, p.b.id, n.small, m), n.large,
                  if m.TakesInit? || m.TakesAck? then RemoveAt(n.toSmall, i) else n.toSmall,
                  n.toLarge + WiresOf(p.a, p.b.id, n.small, [m]))
  {
    assert n.toLarge + [] == n.toLarge;
  }

  lemma LargeMove(p: P.Pair, n: P.Net, m: Move, i: nat)
    requires (m.TakesInit? ==> i < |n.toLarge| && n.toLarge[i] == P.WInit(m.init))
    requires (m.TakesAck? ==> i < |n.toLarge| && n.toLarge[i] == P.WAck(m.ack))
    ensures P.Step(p, n, AsEvent(false, m, i))
         == P.Net(n.small, Moved(p.b, p.a.id, n.large, m),
                  n.toSmall + WiresOf(p.b, p.a.id, n.large, [m]),
                  if m.TakesInit? || m.TakesAck? then RemoveAt(n.toLarge, i) else n.toLarge)
  {
    assert n.toSmall + [] == n.toSmall;
  }

  lemma RunOne(p: P.Pair, n: P.Net, e: P.Event)
    ensures P.Run(p, n, [e]) == P.Step(p, n, e) && P.Run(p, n, []) == n
  {
    assert [e][1..] == [];
    assert P.Run(p, P.Step(p, n, e), []) == P.Step(p, n, e);
  }

  lemma {:induction false} RunAppend(p: P.Pair, n: P.Net, xs: seq<P.Event>, ys: seq<P.Event>)
    ensures P.Run(p, n, xs + ys) == P.Run(p, P.Run(p, n, xs), ys)
    decreases |xs|
  {
    if xs == [] {
      assert xs + ys == ys;
    } else {
      assert (xs + ys)[1..] == xs[1..] + ys;
      RunAppend(p, P.Step(p, n, xs[0]), xs[1..], ys);
    }
  }

  lemma Unrolled(small: bool, ms: seq<Move>, i: nat)
    requires |ms| <= 2
    ensures AsEvents(small, ms, i)
         == if |ms| == 0 then [] else if |ms| == 1 then [AsEvent(small, ms[0], i)]
            else [AsEvent(small, ms[0], i)] + [AsEvent(small, ms[1], i)]
  {
    if |ms| == 1 {
      assert ms[..0] == [] && AsEvents(small, [], i) == [];
    }
    if |ms| == 2 {
      assert ms[..1] == [ms[0]] && [ms[0]][..0] == [] && AsEvents(small, [], i) == [];
      assert AsEvents(small, [ms[0]], i) == [AsEvent(small, ms[0], i)];
    }
  }

  /** What at most two moves leave. */
  lemma TwoAfter(me: Identity, peer: PeerId, n: P.Node, ms: seq<Move>)
    requires |ms| <= 2 && (|ms| == 2 ==> ms[1].Talks?)
    ensures AfterMoves(me, peer, n, ms)
         == if |ms| == 0 then n else if |ms| == 1 then Moved(me, peer, n, ms[0])
            else Moved(me, peer, Moved(me, peer, n, ms[0]), ms[1])
    ensures WiresOf(me, peer, n, ms) == if |ms| == 0 then [] else WiresOf(me, peer, n, [ms[0]])
  {
    if |ms| > 0 {
      assert ms == [ms[0]] + ms[1..];
      TwoMoves(me, peer, n, ms[0], ms[1..]);
    }
  }

  predicate Takes(m: Move) {
    m.TakesInit? || m.TakesAck?
  }

  /** The moves of one event at the smaller node. */
  lemma SmallMoves(p: P.Pair, n: P.Net, ms: seq<Move>, i: nat)
    requires |ms| <= 2 && (|ms| == 2 ==> ms[1].Talks?)
    requires |ms| > 0 && ms[0].TakesInit? ==> i < |n.toSmall| && n.toSmall[i] == P.WInit(ms[0].init)
    requires |ms| > 0 && ms[0].TakesAck? ==> i < |n.toSmall| && n.toSmall[i] == P.WAck(ms[0].ack)
    ensures P.Run(p, n, AsEvents(true, ms, i))
         == P.Net(AfterMoves(p.a, p.b.id, n.small, ms), n.large,
                  if |ms| > 0 && Takes(ms[0]) then RemoveAt(n.toSmall, i) else n.toSmall,
                  n.toLarge + WiresOf(p.a, p.b.id, n.small, ms))
  {
    Unrolled(true, ms, i);
    TwoAfter(p.a, p.b.id, n.small, ms);
    assert n.toLarge + [] == n.toLarge;
    if |ms| > 0 {
      var e0 := AsEvent(true, ms[0], i);
      var n1 := P.Step(p, n, e0);
      SmallMove(p, n, ms[0], i);
      RunOne(p, n, e0);
      if |ms| == 2 {
        var e1 := AsEvent(true, ms[1], i);
        SmallMove(p, n1, ms[1], i);
        RunAppend(p, n, [e0], [e1]);
        RunOne(p, n1, e1);
        assert n1.toLarge + [] == n1.toLarge;
      }
    } else {
      RunOne(p, n, P.StartSmall(p.a.ik, []));
    }
  }

  lemma LargeMoves(p: P.Pair, n: P.Net, ms: seq<Move>, i: nat)
    requires |ms| <= 2 && (|ms| == 2 ==> ms[1].Talks?)
    requires |ms| > 0 && ms[0].TakesInit? ==> i < |n.toLarge| && n.toLarge[i] == P.WInit(ms[0].init)
    requires |ms| > 0 && ms[0].TakesAck? ==> i < |n.toLarge| && n.toLarge[i] == P.WAck(ms[0].ack)
    ensures P.Run(p, n, AsEvents(false, ms, i))
         == P.Net(n.small, AfterMoves(p.b, p.a.id, n.large, ms),
                  n.toSmall + WiresOf(p.b, p.a.id, n.large, ms),
                  if |ms| > 0 && Takes(ms[0]) then RemoveAt(n.toLarge, i) else n.toLarge)
  {
    Unrolled(false, ms, i);
    TwoAfter(p.b, p.a.id, n.large, ms);
    assert n.toSmall + [] == n.toSmall;
    if |ms| > 0 {
      var e0 := AsEvent(false, ms[0], i);
      var n1 := P.Step(p, n, e0);
      LargeMove(p, n, ms[0], i);
      RunOne(p, n, e0);
      if |ms| == 2 {
        var e1 := AsEvent(false, ms[1], i);
        LargeMove(p, n1, ms[1], i);
        RunAppend(p, n, [e0], [e1]);
        RunOne(p, n1, e1);
        assert n1.toSmall + [] == n1.toSmall;
      }
    } else {
      RunOne(p, n, P.StartLarge(p.b.ik, []));
    }
  }

  lemma NextSound(p: P.Pair, w: World, x: Act)
    requires Sound(w) && May(p, w, x)
    ensures Sound(Next(p, w, x))
  {
    hide Step, Queued, Inv;
    match x
    case AtA(e) => StepKeeps(p.a, w.a, e);
    case AtB(e) => StepKeeps(p.b, w.b, e);
    case ToA(i, d) => StepKeeps(p.a, w.a, Arrival(w.toA[i], p.b.id, d));
    case ToB(i, d) => StepKeeps(p.b, w.b, Arrival(w.toB[i], p.a.id, d));
  }

  /** What one event at the smaller node does to the protocol's state. */
  lemma SimulatesA(p: P.Pair, w: World, e: Event)
    requires Sound(w) && May(p, w, AtA(e))
    ensures P.Run(p, Project(p, w), EventsOf(p, w, AtA(e))) == Project(p, Next(p, w, AtA(e)))
  {
    var n, ms := Project(p, w), MovesOf(p.a, w.a, e);
    hide MovesOf, AfterMoves, WiresOf, Step, Queued, AsEvents, NodeOf, FreshEvent, KeyOk;
    if PeerOf(e) == p.b.id {
      Side(p.a, w.a, e);
      MovesShape(p.a, w.a, e);
      SmallMoves(p, n, ms, 0);
    } else {
      Elsewhere(p.a, w.a, e, p.b.id);
      RunOne(p, n, P.StartSmall(p.a.ik, []));
      assert w.toB + [] == w.toB;
    }
  }

  lemma SimulatesB(p: P.Pair, w: World, e: Event)
    requires Sound(w) && May(p, w, AtB(e))
    ensures P.Run(p, Project(p, w), EventsOf(p, w, AtB(e))) == Project(p, Next(p, w, AtB(e)))
  {
    var n, ms := Project(p, w), MovesOf(p.b, w.b, e);
    hide MovesOf, AfterMoves, WiresOf, Step, Queued, AsEvents, NodeOf, FreshEvent, KeyOk;
    if PeerOf(e) == p.a.id {
      Side(p.b, w.b, e);
      MovesShape(p.b, w.b, e);
      LargeMoves(p, n, ms, 0);
    } else {
      Elsewhere(p.b, w.b, e, p.a.id);
      RunOne(p, n, P.StartLarge(p.b.ik, []));
      assert w.toA + [] == w.toA;
    }
  }

  lemma SimulatesArrivals(p: P.Pair, w: World, i: nat, d: Draw)
    requires Sound(w)
    ensures May(p, w, ToA(i, d)) ==>
              P.Run(p, Project(p, w), EventsOf(p, w, ToA(i, d))) == Project(p, Next(p, w, ToA(i, d)))
    ensures May(p, w, ToB(i, d)) ==>
              P.Run(p, Project(p, w), EventsOf(p, w, ToB(i, d))) == Project(p, Next(p, w, ToB(i, d)))
  {
    var n := Project(p, w);
    hide MovesOf, AfterMoves, WiresOf, Step, Queued, AsEvents, NodeOf, KeyOk;
    if May(p, w, ToA(i, d)) {
      var e := Arrival(w.toA[i], p.b.id, d);
      Side(p.a, w.a, e);
      MovesShape(p.a, w.a, e);
      ArrivalMoves(p.a, w.a, w.toA[i], p.b.id, d);
      SmallMoves(p, n, MovesOf(p.a, w.a, e), i);
    }
    if May(p, w, ToB(i, d)) {
      var e := Arrival(w.toB[i], p.a.id, d);
      Side(p.b, w.b, e);
      MovesShape(p.b, w.b, e);
      ArrivalMoves(p.b, w.b, w.toB[i], p.a.id, d);
      LargeMoves(p, n, MovesOf(p.b, w.b, e), i);
    }
  }

  lemma ActSimulates(p: P.Pair, w: World, x: Act)
    requires Sound(w) && May(p, w, x)
    ensures P.Run(p, Project(p, w), EventsOf(p, w, x)) == Project(p, Next(p, w, x))
  {
    hide Next, EventsOf, May, Sound;
    match x
    case AtA(e) => SimulatesA(p, w, e);
    case AtB(e) => SimulatesB(p, w, e);
    case ToA(i, d) => SimulatesArrivals(p, w, i, d);
    case ToB(i, d) => SimulatesArrivals(p, w, i, d);
  }

  // ----- runs -----

  ghost predicate MayAll(p: P.Pair, w: World, xs: seq<Act>)
    requires Sound(w)
    decreases |xs|
  {
    xs != [] ==> May(p, w, xs[0]) && (NextSound(p, w, xs[0]); MayAll(p, Next(p, w, xs[0]), xs[1..]))
  }

  ghost function RunAll(p: P.Pair, w: World, xs: seq<Act>): World
    requires Sound(w) && MayAll(p, w, xs)
    decreases |xs|
  {
    if xs == [] then w
    else
      NextSound(p, w, xs[0]);
      RunAll(p, Next(p, w, xs[0]), xs[1..])
  }

  /** The run of the protocol inside a run of the two nodes. */
  ghost function Inside(p: P.Pair, w: World, xs: seq<Act>): seq<P.Event>
    requires Sound(w) && MayAll(p, w, xs)
    decreases |xs|
  {
    if xs == [] then []
    else
      NextSound(p, w, xs[0]);
      EventsOf(p, w, xs[0]) + Inside(p, Next(p, w, xs[0]), xs[1..])
  }

  /** The stores' sessions and handshakes, and the messages under way, are those of the protocol's run. */
  lemma {:induction false} RunProjects(p: P.Pair, w: World, xs: seq<Act>)
    requires Sound(w) && MayAll(p, w, xs)
    ensures P.Run(p, Project(p, w), Inside(p, w, xs)) == Project(p, RunAll(p, w, xs))
    decreases |xs|
  {
    hide Next, EventsOf, May, Sound, P.Step;
    if xs == [] {
      RunOne(p, Project(p, w), P.StartSmall(p.a.ik, []));
    } else {
      var x := xs[0];
      ActSimulates(p, w, x);
      NextSound(p, w, x);
      var w' := Next(p, w, x);
      RunProjects(p, w', xs[1..]);
      RunAppend(p, Project(p, w), EventsOf(p, w, x), Inside(p, w', xs[1..]));
    }
  }

  /** Inits and acks arrive in the order in which they were queued. */
  predicate InOrder(x: Act) {
    x.ToA? || x.ToB? ==> x.i == 0
  }

  lemma {:induction false} AllFifo(small: bool, ms: seq<Move>, i: nat)
    requires i == 0
    ensures forall e :: e in AsEvents(small, ms, i) ==> P.Fifo(e)
  {
    if ms != [] {
      AllFifo(small, ms[..|ms| - 1], i);
    }
  }

  lemma {:induction false} InsideFifo(p: P.Pair, w: World, xs: seq<Act>)
    requires Sound(w) && MayAll(p, w, xs) && forall x :: x in xs ==> InOrder(x)
    ensures forall e :: e in Inside(p, w, xs) ==> P.Fifo(e)
    decreases |xs|
  {
    hide Next, AsEvents, MovesOf, KeyOk, FreshEvent, P.Fifo;
    if xs != [] {
      var x := xs[0];
      assert InOrder(x);
      match x {
        case AtA(e) => AllFifo(true, MovesOf(p.a, w.a, e), 0);
        case AtB(e) => AllFifo(false, MovesOf(p.b, w.b, e), 0);
        case ToA(i, d) => AllFifo(true, MovesOf(p.a, w.a, Arrival(w.toA[i], p.b.id, d)), i);
        case ToB(i, d) => AllFifo(false, MovesOf(p.b, w.b, Arrival(w.toB[i], p.a.id, d)), i);
      }
      NextSound(p, w, x);
      InsideFifo(p, Next(p, w, x), xs[1..]);
    }
  }

  /** Two empty stores. */
  ghost function Start(): (w: World)
    ensures Sound(w)
  {
    assert forall k :: KeyOk(EMPTY, k);
    World(EMPTY, EMPTY, [], [])
  }

  /** Both stores hold one session with each other, or neither holds one. */
  predicate StoresAgree(p: P.Pair, w: World) {
    && (p.b.id in w.a.sessions <==> p.a.id in w.b.sessions)
    && (p.b.id in w.a.sessions && p.a.id in w.b.sessions ==> w.a.sessions[p.b.id].ad == w.b.sessions[p.a.id].ad)
  }

  /**
   Whatever the two nodes do, with each other and with others: when no init or ack is under way
   between them, their stores agree and hold no handshake, if those were delivered in order.
   */
  lemma ChatsAgree(p: P.Pair, xs: seq<Act>)
    requires P.Less(p.a.id, p.b.id) && MayAll(p, Start(), xs) && forall x :: x in xs ==> InOrder(x)
    ensures var w := RunAll(p, Start(), xs);
      w.toA == [] && w.toB == [] ==>
        StoresAgree(p, w) && p.b.id !in w.a.handshakes && p.a.id !in w.b.handshakes
  {
    RunProjects(p, Start(), xs);
    InsideFifo(p, Start(), xs);
    P.Agreement(p, Inside(p, Start(), xs));
  }

  // ----- any order -----

  /** The act hands the smaller node an ack ahead of an init that was queued before it. */
  predicate AckFirst(w: World, x: Act) {
    x.ToA? && SessionOrder.AckIn(w.toA, x.i) && exists j :: 0 <= j < x.i && SessionOrder.InitIn(w.toA, j)
  }

  /** The id of the handshake with the smaller node that the act opens at the larger one. */
  ghost function Opened(p: P.Pair, w: World, x: Act): set<Bytes>
    requires Sound(w) && May(p, w, x)
  {
    var before, after := w.b.handshakes, Next(p, w, x).b.handshakes;
    if p.a.id !in before && p.a.id in after then {after[p.a.id].sid} else {}
  }

  /** No ack towards the smaller node comes first, and the larger opens its handshakes under new ids. */
  ghost predicate InitsFirst(p: P.Pair, w: World, used: set<Bytes>, xs: seq<Act>)
    requires Sound(w) && MayAll(p, w, xs)
    decreases |xs|
  {
    xs != [] ==>
      && !AckFirst(w, xs[0]) && Opened(p, w, xs[0]) !! used
      && (NextSound(p, w, xs[0]); InitsFirst(p, Next(p, w, xs[0]), used + Opened(p, w, xs[0]), xs[1..]))
  }

  /** The ids that a run of the protocol adds to those in use. */
  function AllOpened(p: P.Pair, n: P.Net, used: set<Bytes>, es: seq<P.Event>): set<Bytes>
    decreases |es|
  {
    if es == [] then used else AllOpened(p, P.Step(p, n, es[0]), used + SessionOrder.Opened(n, es[0]), es[1..])
  }

  lemma {:induction false} OrderAppend(p: P.Pair, n: P.Net, used: set<Bytes>, xs: seq<P.Event>, ys: seq<P.Event>)
    ensures SessionOrder.NoOvertaking(p, n, used, xs + ys)
       <==> SessionOrder.NoOvertaking(p, n, used, xs)
            && SessionOrder.NoOvertaking(p, P.Run(p, n, xs), AllOpened(p, n, used, xs), ys)
    decreases |xs|
  {
    hide P.Step, SessionOrder.Overtakes, SessionOrder.Opened;
    if xs == [] {
      assert xs + ys == ys;
    } else {
      assert (xs + ys)[0] == xs[0] && (xs + ys)[1..] == xs[1..] + ys;
      OrderAppend(p, P.Step(p, n, xs[0]), used + SessionOrder.Opened(n, xs[0]), xs[1..], ys);
    }
  }

  /** Talk after a move opens no handshake and takes no message. */
  lemma MovesOrder(p: P.Pair, n: P.Net, used: set<Bytes>, small: bool, ms: seq<Move>, i: nat)
    requires |ms| <= 2 && (|ms| == 2 ==> ms[1].Talks?)
    ensures var es := AsEvents(small, ms, i);
      var ids := if |ms| == 0 then {} else SessionOrder.Opened(n, AsEvent(small, ms[0], i));
      && (SessionOrder.NoOvertaking(p, n, used, es) <==>
            ids !! used && !(|ms| > 0 && SessionOrder.Overtakes(n, AsEvent(small, ms[0], i))))
      && AllOpened(p, n, used, es) == used + ids
  {
    Unrolled(small, ms, i);
    if |ms| > 0 {
      var e0 := AsEvent(small, ms[0], i);
      OrderOne(p, n, used, e0);
      if |ms| == 2 {
        var e1, n1 := AsEvent(small, ms[1], i), P.Step(p, n, e0);
        OrderAppend(p, n, used, [e0], [e1]);
        OrderOne(p, n1, used + SessionOrder.Opened(n, e0), e1);
        OpenedAppend(p, n, used, [e0], [e1]);
        RunOne(p, n, e0);
      }
    }
  }

  lemma OrderOne(p: P.Pair, n: P.Net, used: set<Bytes>, e: P.Event)
    ensures SessionOrder.NoOvertaking(p, n, used, [e])
       <==> !SessionOrder.Overtakes(n, e) && SessionOrder.Opened(n, e) !! used
    ensures AllOpened(p, n, used, [e]) == used + SessionOrder.Opened(n, e)
  {
    hide P.Step, SessionOrder.Overtakes, SessionOrder.Opened;
    assert [e][1..] == [];
    assert SessionOrder.NoOvertaking(p, P.Step(p, n, e), used + SessionOrder.Opened(n, e), []);
    assert AllOpened(p, P.Step(p, n, e), used + SessionOrder.Opened(n, e), []) == used + SessionOrder.Opened(n, e);
  }

  lemma {:induction false} OpenedAppend(p: P.Pair, n: P.Net, used: set<Bytes>, xs: seq<P.Event>, ys: seq<P.Event>)
    ensures AllOpened(p, n, used, xs + ys) == AllOpened(p, P.Run(p, n, xs), AllOpened(p, n, used, xs), ys)
    decreases |xs|
  {
    hide P.Step, SessionOrder.Opened;
    if xs == [] {
      assert xs + ys == ys;
    } else {
      assert (xs + ys)[0] == xs[0] && (xs + ys)[1..] == xs[1..] + ys;
      OpenedAppend(p, P.Step(p, n, xs[0]), used + SessionOrder.Opened(n, xs[0]), xs[1..], ys);
    }
  }

  /** The handshake that appears at the larger node is the one its first move opens. */
  lemma OpenedBy(p: P.Pair, n: P.Net, ms: seq<Move>, i: nat)
    requires |ms| <= 2 && (|ms| == 2 ==> ms[1].Talks?)
    ensures var hs := AfterMoves(p.b, p.a.id, n.large, ms).hs;
      (if n.large.hs.None? && hs.Some? then {hs.value.sid} else {})
      == if |ms| == 0 then {} else SessionOrder.Opened(n, AsEvent(false, ms[0], i))
  {
    TwoAfter(p.b, p.a.id, n.large, ms);
  }

  /** The acts at the smaller node open nothing at the larger one. */
  lemma SmallOrder(p: P.Pair, w: World, used: set<Bytes>, x: Act)
    requires Sound(w) && May(p, w, x) && (x.AtA? || x.ToA?)
    ensures SessionOrder.NoOvertaking(p, Project(p, w), used, EventsOf(p, w, x)) <==> !AckFirst(w, x)
    ensures Opened(p, w, x) == {} && AllOpened(p, Project(p, w), used, EventsOf(p, w, x)) == used
  {
    var n := Project(p, w);
    hide MovesOf, AfterMoves, WiresOf, Step, Queued, AsEvents, FreshEvent, KeyOk, NodeOf;
    match x
    case AtA(e) =>
      if PeerOf(e) == p.b.id {
        MovesShape(p.a, w.a, e);
        MovesOrder(p, n, used, true, MovesOf(p.a, w.a, e), 0);
      }
    case ToA(i, d) =>
      var e := Arrival(w.toA[i], p.b.id, d);
      MovesShape(p.a, w.a, e);
      ArrivalMoves(p.a, w.a, w.toA[i], p.b.id, d);
      MovesOrder(p, n, used, true, MovesOf(p.a, w.a, e), i);
  }

  /** Those at the larger node overtake nothing. */
  lemma LargeOrder(p: P.Pair, w: World, used: set<Bytes>, x: Act)
    requires Sound(w) && May(p, w, x) && (x.AtB? || x.ToB?)
    ensures SessionOrder.NoOvertaking(p, Project(p, w), used, EventsOf(p, w, x)) <==> Opened(p, w, x) !! used
    ensures AllOpened(p, Project(p, w), used, EventsOf(p, w, x)) == used + Opened(p, w, x)
  {
    var n := Project(p, w);
    hide MovesOf, AfterMoves, WiresOf, Step, Queued, AsEvents, KeyOk;
    match x
    case AtB(e) =>
      if PeerOf(e) == p.a.id {
        MovesShape(p.b, w.b, e);
        Side(p.b, w.b, e);
        hide FreshEvent, Inv;
        MovesOrder(p, n, used, false, MovesOf(p.b, w.b, e), 0);
        OpenedBy(p, n, MovesOf(p.b, w.b, e), 0);
      } else {
        Elsewhere(p.b, w.b, e, p.a.id);
      }
    case ToB(i, d) =>
      var e := Arrival(w.toB[i], p.a.id, d);
      MovesShape(p.b, w.b, e);
      ArrivalMoves(p.b, w.b, w.toB[i], p.a.id, d);
      Side(p.b, w.b, e);
      hide FreshEvent, Inv;
      MovesOrder(p, n, used, false, MovesOf(p.b, w.b, e), i);
      OpenedBy(p, n, MovesOf(p.b, w.b, e), i);
  }

  /** An act keeps the order exactly when the protocol's events inside it do. */
  lemma ActOrder(p: P.Pair, w: World, used: set<Bytes>, x: Act)
    requires Sound(w) && May(p, w, x)
    ensures SessionOrder.NoOvertaking(p, Project(p, w), used, EventsOf(p, w, x))
       <==> !AckFirst(w, x) && Opened(p, w, x) !! used
    ensures AllOpened(p, Project(p, w), used, EventsOf(p, w, x)) == used + Opened(p, w, x)
  {
    hide May, Sound, Next, EventsOf, SessionOrder.NoOvertaking, AllOpened, Opened;
    if x.AtA? || x.ToA? {
      SmallOrder(p, w, used, x);
    } else {
      LargeOrder(p, w, used, x);
    }
  }

  /** The order of the acts is the order that the protocol's run asks for. */
  lemma {:induction false} OrderOnActs(p: P.Pair, w: World, used: set<Bytes>, xs: seq<Act>)
    requires Sound(w) && MayAll(p, w, xs)
    ensures SessionOrder.NoOvertaking(p, Project(p, w), used, Inside(p, w, xs)) <==> InitsFirst(p, w, used, xs)
    decreases |xs|
  {
    hide Next, EventsOf, May, Sound, Opened, AckFirst, P.Step;
    if xs != [] {
      var x := xs[0];
      NextSound(p, w, x);
      var w' := Next(p, w, x);
      ActOrder(p, w, used, x);
      ActSimulates(p, w, x);
      OrderOnActs(p, w', used + Opened(p, w, x), xs[1..]);
      OrderAppend(p, Project(p, w), used, EventsOf(p, w, x), Inside(p, w', xs[1..]));
    }
  }

  /** The stores agree in any order in which no ack towards the smaller node overtakes an init. */
  lemma ChatsAgreeAnyOrder(p: P.Pair, xs: seq<Act>)
    requires P.Less(p.a.id, p.b.id) && MayAll(p, Start(), xs) && InitsFirst(p, Start(), {}, xs)
    ensures var w := RunAll(p, Start(), xs);
      w.toA == [] && w.toB == [] ==> StoresAgree(p, w) && p.b.id !in w.a.handshakes
  {
    OrderOnActs(p, Start(), {}, xs);
    RunProjects(p, Start(), xs);
    SessionOrder.AgreementAnyOrder(p, Inside(p, Start(), xs));
  }
}
