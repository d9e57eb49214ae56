/**
 Session agreement when inits and acks arrive in any order: it is enough that an ack towards the
 smaller node does not overtake an init sent before it. Session ids are drawn afresh.
 */
module SessionOrder {
  import opened Prelude
  import opened RatchetCrypto
  import opened Ratchet
  import opened RatchetHandshake
  import opened SessionAgreement

  predicate AckIn(q: seq<Wire>, i: int) {
    0 <= i < |q| && q[i].WAck?
  }

  predicate InitIn(q: seq<Wire>, i: int) {
    0 <= i < |q| && q[i].WInit?
  }

  ghost predicate HasAck(q: seq<Wire>) {
    exists i :: AckIn(q, i)
  }

  ghost predicate AnyInit(q: seq<Wire>) {
    exists i :: InitIn(q, i)
  }

  /** The event hands the smaller node an ack ahead of an init that was sent before it. */
  predicate Overtakes(s: Net, e: Event) {
    e.AtSmall? && AckIn(s.toSmall, e.i) && exists j :: 0 <= j < e.i && InitIn(s.toSmall, j)
  }

  // ----- the invariant -----

  /** The message belongs to the larger node's running handshake. */
  predicate Live(hs: Option<Handshake>, w: Wire) {
    hs.Some? && (if w.WInit? then w.init == InitOf(hs.value) else w.ack.sid == hs.value.sid)
  }

  /** Message i towards the larger node: the smaller node's own init, or the answer to an init. */
  predicate ToLargeAt(p: Pair, s: Net, used: set<Bytes>, i: int) {
    0 <= i < |s.toLarge| ==>
      match s.toLarge[i]
      case WInit(init) => s.small.hs.Some? && init == InitOf(s.small.hs.value)
      case WAck(ack) =>
        ack.sid in used && (Live(s.large.hs, s.toLarge[i]) ==> Answers(p.b.id, p.a.id, s.large.hs, ack, s.small))
  }

  /** Message i towards the smaller node: the answer it waits for, or an init, a dead one with an ack behind it. */
  ghost predicate ToSmallAt(p: Pair, s: Net, used: set<Bytes>, i: int) {
    0 <= i < |s.toSmall| ==>
      match s.toSmall[i]
      case WInit(init) =>
        init.sid in used && (Live(s.large.hs, s.toSmall[i]) || exists j :: i < j && AckIn(s.toSmall, j))
      case WAck(ack) => Answers(p.a.id, p.b.id, s.small.hs, ack, s.large)
  }

  predicate OneOf(q: seq<Wire>, i: int, j: int) {
    0 <= i < j < |q| ==> !(q[i].WInit? && q[j].WInit?)
  }

  predicate OneAck(q: seq<Wire>, i: int, j: int) {
    0 <= i < j < |q| ==> !(q[i].WAck? && q[j].WAck?)
  }

  predicate LiveInit(hs: Option<Handshake>, q: seq<Wire>, i: int) {
    InitIn(q, i) && Live(hs, q[i])
  }

  predicate LiveAck(hs: Option<Handshake>, q: seq<Wire>, i: int) {
    AckIn(q, i) && Live(hs, q[i])
  }

  ghost predicate Queues(p: Pair, s: Net, used: set<Bytes>) {
    && (forall i :: ToLargeAt(p, s, used, i)) && (forall i :: ToSmallAt(p, s, used, i))
    && (forall i, j :: OneOf(s.toLarge, i, j)) && (forall i, j :: OneAck(s.toSmall, i, j))
  }

  /** The larger node's running handshake is under way in at most one message. */
  ghost predicate OneLive(hs: Option<Handshake>, toSmall: seq<Wire>, toLarge: seq<Wire>) {
    && (forall i, j :: LiveInit(hs, toSmall, i) && LiveInit(hs, toSmall, j) ==> i == j)
    && (forall i, j :: LiveAck(hs, toLarge, i) ==> !LiveInit(hs, toSmall, j))
    && (forall i, j :: LiveAck(hs, toLarge, i) && LiveAck(hs, toLarge, j) ==> i == j)
  }

  ghost predicate AnyLiveAck(s: Net) {
    exists i :: LiveAck(s.large.hs, s.toLarge, i)
  }

  ghost predicate OrderInv(p: Pair, s: Net, used: set<Bytes>) {
    && Less(p.a.id, p.b.id) && !Less(p.b.id, p.a.id)
    && Queues(p, s, used) && OneLive(s.large.hs, s.toSmall, s.toLarge)
    && (s.small.hs.Some? ==> s.small.hs.value.ik == p.a.ik && AnyInit(s.toLarge) != HasAck(s.toSmall))
    && (s.large.hs.Some? ==> s.large.hs.value.ik == p.b.ik && s.large.hs.value.sid in used)
    && !(HasAck(s.toSmall) && AnyLiveAck(s))
    && (!HasAck(s.toSmall) && !AnyLiveAck(s) ==> Agree(s))
  }

  // ----- one message taken from a queue -----

  /** Where position k of the shorter queue was. */
  function Shift(k: int, i: int): int {
    if k < i then k else k + 1
  }

  /** Where position k of the longer queue goes. */
  function Back(k: int, i: int): int {
    if k < i then k else k - 1
  }

  lemma TakenAt(q: seq<Wire>, i: nat, k: int)
    requires i < |q|
    ensures |RemoveAt(q, i)| == |q| - 1
    ensures 0 <= k < |q| - 1 ==> 0 <= Shift(k, i) < |q| && RemoveAt(q, i)[k] == q[Shift(k, i)]
    ensures 0 <= k < |q| && k != i ==> 0 <= Back(k, i) < |q| - 1 && RemoveAt(q, i)[Back(k, i)] == q[k]
  {
  }

  // ----- the steps -----

  lemma SmallStarts(p: Pair, s: Net, used: set<Bytes>, eph: Priv, sid: Bytes)
    requires OrderInv(p, s, used)
    ensures OrderInv(p, Step(p, s, StartSmall(eph, sid)), used)
  {
    var t := Step(p, s, StartSmall(eph, sid));
    if s.small.hs.None? {
      var n := |s.toLarge|;
      assert InitIn(t.toLarge, n);
      forall i
        ensures ToLargeAt(p, t, used, i)
      {
        assert ToLargeAt(p, s, used, i);
      }
      forall i
        ensures ToSmallAt(p, t, used, i)
      {
        assert ToSmallAt(p, s, used, i);
      }
      forall i, j
        ensures OneOf(t.toLarge, i, j)
      {
        assert OneOf(s.toLarge, i, j) && ToLargeAt(p, s, used, i);
      }
      assert !HasAck(t.toSmall) by {
        forall i
          ensures !AckIn(t.toSmall, i)
        {
          assert ToSmallAt(p, s, used, i);
        }
      }
      forall i
        ensures LiveAck(t.large.hs, t.toLarge, i) <==> LiveAck(s.large.hs, s.toLarge, i)
      {
      }
    } else {
      assert t == s.(toLarge := s.toLarge + []);
      assert t == s;
    }
  }

  lemma LargeStarts(p: Pair, s: Net, used: set<Bytes>, eph: Priv, sid: Bytes)
    requires OrderInv(p, s, used) && sid !in used && s.large.hs.None?
    ensures OrderInv(p, Step(p, s, StartLarge(eph, sid)), used + {sid})
  {
    var t := Step(p, s, StartLarge(eph, sid));
    var used' := used + {sid};
    var n := |s.toSmall|;
    forall i
      ensures ToLargeAt(p, t, used', i)
    {
      assert ToLargeAt(p, s, used, i);
    }
    forall i
      ensures ToSmallAt(p, t, used', i)
    {
      assert ToSmallAt(p, s, used, i);
      if InitIn(s.toSmall, i) && !Live(s.large.hs, s.toSmall[i]) {
        var j :| i < j && AckIn(s.toSmall, j);
        assert AckIn(t.toSmall, j);
      }
    }
    forall i, j
      ensures OneAck(t.toSmall, i, j)
    {
      assert OneAck(s.toSmall, i, j);
    }
    assert forall i :: AckIn(t.toSmall, i) <==> AckIn(s.toSmall, i);
    forall i
      ensures LiveInit(t.large.hs, t.toSmall, i) ==> i == n
    {
      assert ToSmallAt(p, s, used, i);
    }
    forall i
      ensures !(LiveAck(t.large.hs, t.toLarge, i))
    {
      assert ToLargeAt(p, s, used, i);
    }
  }

  /** What is left of the queues after a message is taken still fits the nodes as they were. */
  lemma TakenFits(p: Pair, s: Net, used: set<Bytes>, i: nat)
    requires Queues(p, s, used) && i < |s.toSmall|
    requires AckIn(s.toSmall, i) ==> forall j :: 0 <= j < i ==> !InitIn(s.toSmall, j)
    ensures var q := RemoveAt(s.toSmall, i);
      && (forall k :: AckIn(q, k) ==> Answers(p.a.id, p.b.id, s.small.hs, q[k].ack, s.large))
      && (forall k :: InitIn(q, k) ==> q[k].init.sid in used)
      && (forall k :: InitIn(q, k) && !Live(s.large.hs, q[k]) ==> exists j :: k < j && AckIn(q, j))
      && (forall j, k :: OneAck(q, j, k))
      && (AckIn(s.toSmall, i) ==> !HasAck(q))
      && (InitIn(s.toSmall, i) ==> (HasAck(q) <==> HasAck(s.toSmall)))
  {
    var q := RemoveAt(s.toSmall, i);
    forall k
      ensures AckIn(q, k) ==> Answers(p.a.id, p.b.id, s.small.hs, q[k].ack, s.large)
      ensures InitIn(q, k) ==> q[k].init.sid in used
      ensures InitIn(q, k) && !Live(s.large.hs, q[k]) ==> exists j :: k < j && AckIn(q, j)
    {
      TakenAt(s.toSmall, i, k);
      assert ToSmallAt(p, s, used, Shift(k, i));
      if InitIn(q, k) && !Live(s.large.hs, q[k]) {
        var j :| Shift(k, i) < j && AckIn(s.toSmall, j);
        assert j == i ==> InitIn(s.toSmall, k);
        TakenAt(s.toSmall, i, j);
        assert AckIn(q, Back(j, i));
      }
    }
    forall j, k
      ensures OneAck(q, j, k)
    {
      TakenAt(s.toSmall, i, j);
      TakenAt(s.toSmall, i, k);
      assert OneAck(s.toSmall, Shift(j, i), Shift(k, i));
    }
    if AckIn(s.toSmall, i) {
      forall k
        ensures !AckIn(q, k)
      {
        TakenAt(s.toSmall, i, k);
        assert OneAck(s.toSmall, Shift(k, i), i) && OneAck(s.toSmall, i, Shift(k, i));
      }
    } else {
      if HasAck(s.toSmall) {
        var j :| AckIn(s.toSmall, j);
        TakenAt(s.toSmall, i, j);
        assert AckIn(q, Back(j, i));
      }
      if HasAck(q) {
        var j :| AckIn(q, j);
        TakenAt(s.toSmall, i, j);
        assert AckIn(s.toSmall, Shift(j, i));
      }
    }
  }

  /** The same towards the larger node, where order does not matter. */
  lemma TakenFitsLarge(p: Pair, s: Net, used: set<Bytes>, i: nat)
    requires Queues(p, s, used) && i < |s.toLarge|
    ensures var q := RemoveAt(s.toLarge, i);
      && (forall k :: 0 <= k < |q| ==> ToLargeAt(p, s.(toLarge := q), used, k))
      && (forall j, k :: OneOf(q, j, k))
      && (InitIn(s.toLarge, i) ==> !AnyInit(q))
      && (AckIn(s.toLarge, i) ==> (AnyInit(q) <==> AnyInit(s.toLarge)))
  {
    var q := RemoveAt(s.toLarge, i);
    forall k | 0 <= k < |q|
      ensures ToLargeAt(p, s.(toLarge := q), used, k)
    {
      TakenAt(s.toLarge, i, k);
      assert ToLargeAt(p, s, used, Shift(k, i));
    }
    forall j, k
      ensures OneOf(q, j, k)
    {
      TakenAt(s.toLarge, i, j);
      TakenAt(s.toLarge, i, k);
      assert OneOf(s.toLarge, Shift(j, i), Shift(k, i));
    }
    if InitIn(s.toLarge, i) {
      forall k
        ensures !InitIn(q, k)
      {
        TakenAt(s.toLarge, i, k);
        assert OneOf(s.toLarge, Shift(k, i), i) && OneOf(s.toLarge, i, Shift(k, i));
      }
    } else {
      if AnyInit(s.toLarge) {
        var j :| InitIn(s.toLarge, j);
        TakenAt(s.toLarge, i, j);
        assert InitIn(q, Back(j, i));
      }
      if AnyInit(q) {
        var j :| InitIn(q, j);
        TakenAt(s.toLarge, i, j);
        assert InitIn(s.toLarge, Shift(j, i));
      }
    }
  }

  /** Taking a message makes nothing live that was not, and nothing twice. */
  lemma TakenLive(hs: Option<Handshake>, toSmall: seq<Wire>, toLarge: seq<Wire>, i: nat, j: nat)
    requires OneLive(hs, toSmall, toLarge)
    ensures i < |toSmall| ==> OneLive(hs, RemoveAt(toSmall, i), toLarge)
    ensures j < |toLarge| ==> OneLive(hs, toSmall, RemoveAt(toLarge, j))
    ensures j < |toLarge| ==> forall k :: LiveAck(hs, RemoveAt(toLarge, j), k) ==> LiveAck(hs, toLarge, Shift(k, j))
  {
    if i < |toSmall| {
      forall k
        ensures LiveInit(hs, RemoveAt(toSmall, i), k) ==> LiveInit(hs, toSmall, Shift(k, i))
      {
        TakenAt(toSmall, i, k);
      }
    }
    if j < |toLarge| {
      forall k
        ensures LiveAck(hs, RemoveAt(toLarge, j), k) ==> LiveAck(hs, toLarge, Shift(k, j))
      {
        TakenAt(toLarge, j, k);
      }
    }
  }

  lemma AckTaken(p: Pair, s: Net, used: set<Bytes>, i: nat, drawn: Priv)
    requires OrderInv(p, s, used) && AckIn(s.toSmall, i) && !Overtakes(s, AtSmall(i, drawn))
    ensures OrderInv(p, Step(p, s, AtSmall(i, drawn)), used)
  {
    var t := Step(p, s, AtSmall(i, drawn));
    assert ToSmallAt(p, s, used, i) && HasAck(s.toSmall);
    TakenFits(p, s, used, i);
    TakenLive(s.large.hs, s.toSmall, s.toLarge, i, 0);
    assert t.toLarge == s.toLarge && t.toSmall == RemoveAt(s.toSmall, i) && t.large == s.large;
    assert t.small.hs.None? && t.small.session.Some? && Agree(t);
    hide Step, RemoveAt, Agree;
    forall k
      ensures ToLargeAt(p, t, used, k) && !LiveAck(t.large.hs, t.toLarge, k)
    {
      assert ToLargeAt(p, s, used, k);
      assert !InitIn(s.toLarge, k);
      assert !LiveAck(s.large.hs, s.toLarge, k);
    }
    forall k
      ensures ToSmallAt(p, t, used, k)
    {
      assert !AckIn(t.toSmall, k);
      assert InitIn(t.toSmall, k) ==> Live(s.large.hs, t.toSmall[k]);
    }
  }

  lemma InitIgnoredAny(p: Pair, s: Net, used: set<Bytes>, i: nat, drawn: Priv)
    requires OrderInv(p, s, used) && InitIn(s.toSmall, i) && s.small.hs.Some?
    ensures OrderInv(p, Step(p, s, AtSmall(i, drawn)), used)
  {
    var t := Step(p, s, AtSmall(i, drawn));
    TakenFits(p, s, used, i);
    TakenLive(s.large.hs, s.toSmall, s.toLarge, i, 0);
    assert t == s.(toSmall := RemoveAt(s.toSmall, i), toLarge := s.toLarge + []);
    assert s.toLarge + [] == s.toLarge;
    hide Step, RemoveAt;
    forall k
      ensures ToLargeAt(p, t, used, k) && ToSmallAt(p, t, used, k)
    {
      assert ToLargeAt(p, s, used, k);
    }
  }

  lemma InitAcceptedAny(p: Pair, s: Net, used: set<Bytes>, i: nat, drawn: Priv)
    requires OrderInv(p, s, used) && InitIn(s.toSmall, i) && s.small.hs.None?
    ensures OrderInv(p, Step(p, s, AtSmall(i, drawn)), used)
  {
    var t, hs := Step(p, s, AtSmall(i, drawn)), s.large.hs;
    var n := |s.toLarge|;
    forall k
      ensures !AckIn(s.toSmall, k) && !InitIn(s.toLarge, k)
    {
      assert ToSmallAt(p, s, used, k) && ToLargeAt(p, s, used, k);
    }
    assert ToSmallAt(p, s, used, i);
    assert LiveInit(hs, s.toSmall, i);
    assert t.toSmall == RemoveAt(s.toSmall, i) && t.large == s.large && t.small.hs.None?;
    assert |t.toLarge| == n + 1 && t.toLarge[..n] == s.toLarge && t.toLarge[n].WAck?;
    assert Answers(p.b.id, p.a.id, s.large.hs, t.toLarge[n].ack, t.small) && t.toLarge[n].ack.sid in used;
    assert LiveAck(hs, t.toLarge, n);
    hide Step, Answers, AcceptHandshake;
    forall k
      ensures ToLargeAt(p, t, used, k) && !InitIn(t.toLarge, k) && (LiveAck(hs, t.toLarge, k) ==> k == n)
    {
      assert ToLargeAt(p, s, used, k);
      assert 0 <= k < n ==> t.toLarge[..n][k] == s.toLarge[k];
      assert !InitIn(s.toLarge, k) && !LiveAck(hs, s.toLarge, k);
    }
    forall k
      ensures !InitIn(t.toSmall, k) && !AckIn(t.toSmall, k)
    {
      TakenAt(s.toSmall, i, k);
      assert ToSmallAt(p, s, used, Shift(k, i));
      assert !AckIn(s.toSmall, Shift(k, i));
      assert InitIn(t.toSmall, k) ==> LiveInit(hs, s.toSmall, Shift(k, i));
    }
    forall j, k
      ensures OneOf(t.toLarge, j, k) && OneAck(t.toSmall, j, k)
    {
      assert !InitIn(t.toLarge, j) && !InitIn(t.toLarge, k) && !AckIn(t.toSmall, j);
    }
    forall k
      ensures ToSmallAt(p, t, used, k)
    {
      assert !InitIn(t.toSmall, k) && !AckIn(t.toSmall, k);
    }
    assert AnyLiveAck(t);
  }

  lemma InitAtLargeAny(p: Pair, s: Net, used: set<Bytes>, i: nat, drawn: Priv)
    requires OrderInv(p, s, used) && InitIn(s.toLarge, i)
    ensures OrderInv(p, Step(p, s, AtLarge(i, drawn)), used)
  {
    var t := Step(p, s, AtLarge(i, drawn));
    var n := |s.toSmall|;
    assert ToLargeAt(p, s, used, i) && AnyInit(s.toLarge);
    TakenFitsLarge(p, s, used, i);
    assert t.toLarge == RemoveAt(s.toLarge, i) && t.small == s.small && t.large.hs.None?;
    assert |t.toSmall| == n + 1 && t.toSmall[..n] == s.toSmall && t.toSmall[n].WAck?;
    assert Answers(p.a.id, p.b.id, s.small.hs, t.toSmall[n].ack, t.large);
    assert AckIn(t.toSmall, n);
    hide Step, Answers, AcceptHandshake, RemoveAt;
    forall k
      ensures ToLargeAt(p, t, used, k) && !LiveAck(t.large.hs, t.toLarge, k) && !InitIn(t.toLarge, k)
    {
      assert 0 <= k < |t.toLarge| ==> ToLargeAt(p, s.(toLarge := t.toLarge), used, k);
    }
    forall k
      ensures ToSmallAt(p, t, used, k) && (AckIn(t.toSmall, k) ==> k == n)
    {
      assert ToSmallAt(p, s, used, k);
      assert 0 <= k < n ==> t.toSmall[..n][k] == s.toSmall[k];
      assert !AckIn(s.toSmall, k);
    }
    forall j, k
      ensures OneAck(t.toSmall, j, k)
    {
      assert AckIn(t.toSmall, j) ==> j == n;
    }
  }

  lemma LiveAckAtLarge(p: Pair, s: Net, used: set<Bytes>, i: nat, drawn: Priv)
    requires OrderInv(p, s, used) && LiveAck(s.large.hs, s.toLarge, i)
    ensures OrderInv(p, Step(p, s, AtLarge(i, drawn)), used)
  {
    var t := Step(p, s, AtLarge(i, drawn));
    assert ToLargeAt(p, s, used, i) && AnyLiveAck(s);
    TakenFitsLarge(p, s, used, i);
    assert t.toLarge == RemoveAt(s.toLarge, i) && t.toSmall == s.toSmall + [] && t.small == s.small && t.large.hs.None?;
    assert s.toSmall + [] == s.toSmall;
    assert Agree(t);
    hide Step, Answers, Finish, RemoveAt, Agree;
    forall k
      ensures ToLargeAt(p, t, used, k) && !LiveAck(t.large.hs, t.toLarge, k)
    {
      assert 0 <= k < |t.toLarge| ==> ToLargeAt(p, s.(toLarge := t.toLarge), used, k);
    }
    forall k
      ensures ToSmallAt(p, t, used, k)
    {
      assert ToSmallAt(p, s, used, k);
      assert !LiveInit(s.large.hs, s.toSmall, k) && !AckIn(s.toSmall, k);
    }
  }

  /** An answer to a handshake that is gone. */
  lemma DeadAckAtLarge(p: Pair, s: Net, used: set<Bytes>, i: nat, drawn: Priv)
    requires OrderInv(p, s, used) && AckIn(s.toLarge, i) && !LiveAck(s.large.hs, s.toLarge, i)
    ensures OrderInv(p, Step(p, s, AtLarge(i, drawn)), used)
  {
    var t, hs := Step(p, s, AtLarge(i, drawn)), s.large.hs;
    TakenFitsLarge(p, s, used, i);
    TakenLive(hs, s.toSmall, s.toLarge, 0, i);
    assert t == s.(toLarge := RemoveAt(s.toLarge, i), toSmall := s.toSmall + []);
    assert s.toSmall + [] == s.toSmall;
    hide Step, Finish;
    forall k
      ensures ToLargeAt(p, t, used, k) && ToSmallAt(p, t, used, k)
    {
      assert ToSmallAt(p, s, used, k);
      assert 0 <= k < |t.toLarge| ==> ToLargeAt(p, s.(toLarge := t.toLarge), used, k);
    }
    if AnyLiveAck(s) {
      var k :| LiveAck(hs, s.toLarge, k);
      TakenAt(s.toLarge, i, k);
      assert LiveAck(hs, t.toLarge, Back(k, i));
    }
  }

  lemma TalkKeepsAny(p: Pair, s: Net, used: set<Bytes>, e: Event)
    requires OrderInv(p, s, used) && (e.SmallTalks? || e.LargeTalks?)
    ensures OrderInv(p, Step(p, s, e), used)
  {
    var t := Step(p, s, e);
    forall k
      ensures ToLargeAt(p, t, used, k) && ToSmallAt(p, t, used, k)
    {
      assert ToLargeAt(p, s, used, k) && ToSmallAt(p, s, used, k);
    }
  }

  /** The id of the handshake that the event opens at the larger node. */
  function Opened(s: Net, e: Event): set<Bytes> {
    if e.StartLarge? && s.large.hs.None? then {e.sid} else {}
  }

  lemma StartedAlready(p: Pair, s: Net, e: Event)
    requires e.StartLarge? && s.large.hs.Some?
    ensures Step(p, s, e) == s
  {
    assert s.toSmall + [] == s.toSmall;
  }

  lemma OrderStep(p: Pair, s: Net, used: set<Bytes>, e: Event)
    requires OrderInv(p, s, used) && !Overtakes(s, e) && Opened(s, e) !! used
    requires e.AtSmall? ==> e.i < |s.toSmall|
    requires e.AtLarge? ==> e.i < |s.toLarge|
    ensures OrderInv(p, Step(p, s, e), used + Opened(s, e))
  {
    hide OrderInv, Step, Overtakes;
    assert used + {} == used;
    match e
    case StartSmall(eph, sid) => SmallStarts(p, s, used, eph, sid);
    case StartLarge(eph, sid) =>
      if s.large.hs.None? {
        LargeStarts(p, s, used, eph, sid);
      } else {
        StartedAlready(p, s, e);
      }
    case SmallTalks(_) => TalkKeepsAny(p, s, used, e);
    case LargeTalks(_) => TalkKeepsAny(p, s, used, e);
    case AtSmall(i, drawn) =>
      if AckIn(s.toSmall, i) {
        AckTaken(p, s, used, i, drawn);
      } else if s.small.hs.Some? {
        InitIgnoredAny(p, s, used, i, drawn);
      } else {
        InitAcceptedAny(p, s, used, i, drawn);
      }
    case AtLarge(i, drawn) =>
      if InitIn(s.toLarge, i) {
        InitAtLargeAny(p, s, used, i, drawn);
      } else if LiveAck(s.large.hs, s.toLarge, i) {
        LiveAckAtLarge(p, s, used, i, drawn);
      } else {
        DeadAckAtLarge(p, s, used, i, drawn);
      }
  }

  /**
   Along the run the larger node opens its handshakes under new ids, and no ack towards the smaller
   node overtakes an init.
   */
  ghost predicate NoOvertaking(p: Pair, s: Net, used: set<Bytes>, es: seq<Event>)
    decreases |es|
  {
    es != [] ==>
      && !Overtakes(s, es[0]) && Opened(s, es[0]) !! used
      && NoOvertaking(p, Step(p, s, es[0]), used + Opened(s, es[0]), es[1..])
  }

  lemma {:induction false} OrderRun(p: Pair, s: Net, used: set<Bytes>, es: seq<Event>)
    returns (drawn: set<Bytes>)
    requires OrderInv(p, s, used) && NoOvertaking(p, s, used, es)
    ensures OrderInv(p, Run(p, s, es), drawn)
    decreases |es|
  {
    hide OrderInv, Overtakes;
    drawn := used;
    if es != [] {
      var t := Step(p, s, es[0]);
      if (es[0].AtSmall? && es[0].i >= |s.toSmall|) || (es[0].AtLarge? && es[0].i >= |s.toLarge|) {
        assert t == s && used + {} == used;
      } else {
        OrderStep(p, s, used, es[0]);
      }
      drawn := OrderRun(p, t, used + Opened(s, es[0]), es[1..]);
    }
  }

  /**
   With inits and acks in any order, except that no ack towards the smaller node overtakes an init:
   whenever none is under way, both nodes hold the same session or neither holds one, and the
   smaller node waits for nothing.
   */
  lemma AgreementAnyOrder(p: Pair, es: seq<Event>)
    requires Less(p.a.id, p.b.id) && NoOvertaking(p, START, {}, es)
    ensures var s := Run(p, START, es); Quiet(s) ==> Agree(s) && s.small.hs.None?
  {
    LessAsymmetric(p.a.id, p.b.id);
    assert OrderInv(p, START, {}) by {
      forall i
        ensures ToLargeAt(p, START, {}, i) && ToSmallAt(p, START, {}, i)
      {
      }
    }
    var drawn := OrderRun(p, START, {}, es);
  }

  /**
   What ordered delivery adds: when the larger node's new init is delivered ahead of its ack, the
   nodes agree, yet the larger one is left waiting.
   */
  lemma InitAheadOfAck(p: Pair, k: seq<Priv>, sid1: Bytes, sid2: Bytes)
    requires Less(p.a.id, p.b.id) && |k| == 5
    ensures var es := [StartSmall(k[0], sid1), AtLarge(0, k[1]), StartLarge(k[2], sid2),
                       AtSmall(1, k[3]), AtSmall(0, k[4])];
      var s := Run(p, START, es);
      Quiet(s) && Agree(s) && s.small.session.Some? && s.large.hs.Some?
  {
    LessAsymmetric(p.a.id, p.b.id);
    var h2 := Handshake(p.b.ik, k[2], sid2);
    var s1 := Step(p, START, StartSmall(k[0], sid1));
    var s2 := Step(p, s1, AtLarge(0, k[1]));
    assert s2.toLarge == [] && |s2.toSmall| == 1;
    var s3 := Step(p, s2, StartLarge(k[2], sid2));
    assert |s3.toSmall| == 2 && s3.toSmall[1] == WInit(InitOf(h2)) && s3.large.hs == Some(h2);
    var s4 := Step(p, s3, AtSmall(1, k[3]));
    assert s4.toSmall == s2.toSmall && s4.small == s3.small && s4.large == s3.large && s4.toLarge == [];
    var s5 := Step(p, s4, AtSmall(0, k[4]));
    assert Quiet(s5) && Agree(s5) && s5.large == s4.large && s5.small.session.Some?;
    hide Step, Run;
    var e5 := AtSmall(0, k[4]);
    RunCons(p, s4, e5, []);
    RunCons(p, s3, AtSmall(1, k[3]), [e5]);
    RunCons(p, s2, StartLarge(k[2], sid2), [AtSmall(1, k[3]), e5]);
    RunCons(p, s1, AtLarge(0, k[1]), [StartLarge(k[2], sid2), AtSmall(1, k[3]), e5]);
    RunCons(p, START, StartSmall(k[0], sid1), [AtLarge(0, k[1]), StartLarge(k[2], sid2), AtSmall(1, k[3]), e5]);
    assert Run(p, s5, []) == s5 by {
      RunNil(p, s5);
    }
  }

  lemma RunNil(p: Pair, s: Net)
    ensures Run(p, s, []) == s
  {
  }
}
