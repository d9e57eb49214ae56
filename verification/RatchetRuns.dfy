/**
 Whole runs of a two-party session: sends by both sides interleaved with whatever the network
 delivers, any number of times and in any order.
 */
module RatchetRuns {
  import opened Prelude
  import opened RatchetCrypto
  import opened Ratchet
  import opened RatchetSession
  import opened RatchetSteps
  import opened RatchetReads

  /** A party encrypts a text, or the network hands it a message (drawn: its next private key). */
  datatype Event = Send(who: nat, plain: Bytes) | Net(who: nat, m: Message, drawn: Priv)

  predicate Shaped(s: Session) {
    |s.states| == 2 && |s.cur| == 2 && WellFormed(s.states[0]) && WellFormed(s.states[1])
  }

  /** What Decrypt answers to a Net event in s. */
  function Answer(s: Session, e: Event): Result<(Bytes, StateV), Error>
    requires Shaped(s) && e.Net? && e.who < 2
  {
    DecryptV(s.states[e.who], e.drawn, e.m)
  }

  /**
   The session after one event: the advanced state is stored and read back, a failed Encrypt or
   Decrypt leaves the stored one as it was. Reading in an unopened chain reads nothing of the peer's.
   */
  function Step(s: Session, e: Event): Session {
    if !Shaped(s) || e.who >= 2 then s
    else
      match e
      case Send(who, plain) =>
        var r := EncryptV(s.states[who], plain);
        if r.Ok? && 0 <= s.cur[who] < |s.h.chains| then AfterSend(s, who, r.value.0, Reloaded(r.value.1)) else s
      case Net(who, m, drawn) =>
        var r := Answer(s, e);
        if r.Err? then s
        else if Unopened(s.states[who], m) then s.(states := s.states[who := Reloaded(r.value.1)])
        else AfterRead(s, who, m, Reloaded(r.value.1))
  }

  function Run(s: Session, es: seq<Event>): Session
    decreases |es|
  {
    if es == [] then s else Run(Step(s, es[0]), es[1..])
  }

  /** Fresh keys are new, chains stay below 2^32 messages, ciphertexts come from somewhere. */
  ghost predicate Allowed(s: Session, e: Event)
    requires |s.cur| == 2
  {
    && e.who < 2
    && match e
       case Send(who, _) => 0 <= s.cur[who] < |s.h.chains| ==> |s.h.chains[s.cur[who]]| + 1 < U32
       case Net(_, m, drawn) => Possible(s.h, m) && drawn !in s.h.keys
  }

  /** Safety: of the accepted messages exactly those outside an unopened chain were awaited; each yields its text. */
  ghost predicate SafeAt(s: Session, e: Event)
    requires Shaped(s)
  {
    e.Net? && e.who < 2 && Answer(s, e).Ok? ==>
      && (Awaits(s.h, e.who, e.m) <==> !Unopened(s.states[e.who], e.m))
      && e.m.ct.Sealed? && Answer(s, e).value.0 == e.m.ct.plain
  }

  /** Exactness: a message is accepted if and only if it is awaited, or fits an unopened chain. */
  ghost predicate ExactAt(s: Session, e: Event)
    requires Shaped(s)
  {
    e.Net? && e.who < 2 ==>
      (Answer(s, e).Ok? <==>
         if Unopened(s.states[e.who], e.m) then UnderUnset(s.states[e.who], e.m) else Awaits(s.h, e.who, e.m))
  }

  ghost predicate InBound(s: Session) {
    |Undelivered(s.h, 0)| <= MAX_SKIP && |Undelivered(s.h, 1)| <= MAX_SKIP
  }

  /** Every event of the run is allowed where it happens. */
  ghost predicate AllAllowed(s: Session, es: seq<Event>)
    decreases |es|
  {
    |s.cur| == 2 && (es != [] ==> Allowed(s, es[0]) && AllAllowed(Step(s, es[0]), es[1..]))
  }

  /** No more than MAX_SKIP messages per direction are ever undelivered. */
  ghost predicate AllInBound(s: Session, es: seq<Event>)
    decreases |es|
  {
    InBound(s) && (es != [] ==> AllInBound(Step(s, es[0]), es[1..]))
  }

  ghost predicate AllSafe(s: Session, es: seq<Event>)
    decreases |es|
  {
    Shaped(s) && (es != [] ==> SafeAt(s, es[0]) && AllSafe(Step(s, es[0]), es[1..]))
  }

  ghost predicate AllExact(s: Session, es: seq<Event>)
    decreases |es|
  {
    Shaped(s) && (es != [] ==> ExactAt(s, es[0]) && AllExact(Step(s, es[0]), es[1..]))
  }

  // ----- one step -----

  lemma InvShaped(s: Session)
    requires Inv(s)
    ensures Shaped(s)
  {
    assert PartyOk(s.h, 0, s.cur[0], s.states[0]) && PartyOk(s.h, 1, s.cur[1], s.states[1]);
  }

  lemma MarkAwaited(h: History, m: Message, who: nat, s: int, v: StateV)
    requires HistoryOk(h) && who < 2 && Awaits(h, 1 - who, m) && PartyOk(h, who, s, v)
    ensures HistoryOk(Marked(h, m)) && PartyOk(Marked(h, m), who, s, v)
    ensures StoredAll(h, who, s, v.nr, v.skipped) ==> StoredAll(Marked(h, m), who, s, v.nr, v.skipped)
  {
    var k: nat, n: nat :| At(h, k, n) && k % 2 != 1 - who && m == h.chains[k][n];
    MarkHistory(h, k, n);
    MarkOther(h, k, n, who, s, v);
  }

  lemma OwnKeyIsOld(s: Session, who: nat)
    requires Inv(s) && who < 2
    ensures s.states[who].dhs in s.h.keys
    ensures |s.h.chains| <= s.cur[who] + 2
    ensures PartyOk(s.h, who, s.cur[who], s.states[who])
    ensures PartyOk(s.h, 1 - who, s.cur[1 - who], s.states[1 - who])
  {
  }

  /** The party that did not read keeps its side of the invariant. */
  lemma OtherSide(h: History, who: nat, m: Message, old': Priv, new': Priv, o: int, v: StateV)
    requires HistoryOk(h) && who < 2 && Awaits(h, 1 - who, m) && PartyOk(h, who, o, v)
    requires new' == old' || new' !in h.keys
    ensures var h' := HistoryAfter(h, old', m, new');
      && HistoryOk(h') && PartyOk(h', who, o, v)
      && (StoredAll(h, who, o, v.nr, v.skipped) ==> StoredAll(h', who, o, v.nr, v.skipped))
  {
    if new' == old' {
      MarkAwaited(h, m, who, o, v);
    } else {
      var h1 := Extended(h, new');
      ExtendHistory(h, new');
      ExtendParty(h, new', who, o, v);
      ExtendStored(h, new', who, o, v.nr, v.skipped);
      var k: nat, n: nat :| At(h, k, n) && k % 2 != 1 - who && m == h.chains[k][n];
      assert At(h1, k, n) && m == h1.chains[k][n];
      MarkAwaited(h1, m, who, o, v);
    }
  }

  lemma AcceptedKeeps(s: Session, who: nat, m: Message, drawn: Priv, w: StateV)
    requires Inv(s) && who < 2 && drawn !in s.h.keys
    requires AcceptedBy(s.h, who, s.cur[who], s.states[who], drawn, m, w)
    ensures Inv(AfterRead(s, who, m, w))
    ensures Complete(s, 1 - who) ==> Complete(AfterRead(s, who, m, w), 1 - who)
  {
    hide PartyOk, HistoryOk, Awaits, StoredAll, HistoryAfter;
    OwnKeyIsOld(s, who);
    var other := 1 - who;
    var old' := s.states[who].dhs;
    OtherSide(s.h, other, m, old', w.dhs, s.cur[other], s.states[other]);
    AfterShape(s, who, old', m, w.dhs);
    Assembled(s, who, HistoryAfter(s.h, old', m, w.dhs), w, CurrentAfter(s.cur[who], old', w.dhs));
  }

  lemma AfterShape(s: Session, who: nat, old': Priv, m: Message, new': Priv)
    requires |s.cur| == 2 && who < 2
    requires s.cur[0] == s.cur[1] + 1 || s.cur[1] == s.cur[0] + 1
    requires |s.h.chains| == (if s.cur[0] > s.cur[1] then s.cur[0] else s.cur[1]) + 1
    requires new' == old' || s.cur[who] + 2 == |s.h.chains|
    ensures var c := CurrentAfter(s.cur[who], old', new'); var o := s.cur[1 - who];
      && (c == o + 1 || o == c + 1)
      && |HistoryAfter(s.h, old', m, new').chains| == (if c > o then c else o) + 1
  {
  }

  lemma Assembled(s: Session, who: nat, h: History, w: StateV, c: int)
    requires |s.states| == 2 && |s.cur| == 2 && who < 2 && HistoryOk(h)
    requires PartyOk(h, who, c, w) && PartyOk(h, 1 - who, s.cur[1 - who], s.states[1 - who])
    requires c == s.cur[1 - who] + 1 || s.cur[1 - who] == c + 1
    requires |h.chains| == (if c > s.cur[1 - who] then c else s.cur[1 - who]) + 1
    ensures Inv(Session(h, s.states[who := w], s.cur[who := c]))
  {
    SessionSides(Session(h, s.states[who := w], s.cur[who := c]), who);
  }

  /** Reading a message keeps the session invariant; the message was awaited. */
  lemma ReadKeeps(s: Session, who: nat, m: Message, drawn: Priv) returns (plain: Bytes, w: StateV)
    requires Inv(s) && who < 2 && Possible(s.h, m) && drawn !in s.h.keys
    requires WellFormed(s.states[who]) && DecryptV(s.states[who], drawn, m).Ok? && !Unopened(s.states[who], m)
    ensures DecryptV(s.states[who], drawn, m) == Ok((plain, w)) && Reloaded(w) == w
    ensures Awaits(s.h, who, m) && m.ct.Sealed? && plain == m.ct.plain
    ensures Inv(AfterRead(s, who, m, w))
    ensures Complete(s, 1 - who) ==> Complete(AfterRead(s, who, m, w), 1 - who)
  {
    plain, w := DecryptV(s.states[who], drawn, m).value.0, DecryptV(s.states[who], drawn, m).value.1;
    OwnKeyIsOld(s, who);
    AcceptedIsAwaited(s.h, who, s.cur[who], s.states[who], drawn, m);
    AcceptedKeeps(s, who, m, drawn, w);
    hide PartyOk, HistoryOk, DecryptV;
    var old' := s.states[who].dhs;
    ReloadedSame(HistoryAfter(s.h, old', m, w.dhs), who, CurrentAfter(s.cur[who], old', w.dhs), w);
  }

  /** Reading in an unopened chain moves the stored state's number and nothing else. */
  lemma UnopenedKeeps(s: Session, who: nat, m: Message, drawn: Priv)
    requires Inv(s) && who < 2 && WellFormed(s.states[who]) && Unopened(s.states[who], m)
    ensures var d := DecryptV(s.states[who], drawn, m);
      && (d.Ok? <==> UnderUnset(s.states[who], m))
      && (d.Ok? ==>
            var s' := s.(states := s.states[who := Reloaded(d.value.1)]);
            && d.value.0 == m.ct.plain && Inv(s')
            && s'.states[who] == s.states[who].(nr := (s.states[who].nr + 1) % U32)
            && (forall p: nat :: p < 2 && Complete(s, p) ==> Complete(s', p)))
    ensures !WasSent(s.h, m) && m !in s.h.delivered
  {
    OwnKeyIsOld(s, who);
    AcceptedUnopened(s.h, who, s.cur[who], s.states[who], drawn, m);
    DeliveredWasSent(s, m);
    hide DecryptV, HistoryOk, PartyOk, StoredAll, WasSent;
    var v := s.states[who];
    var w := v.(nr := (v.nr + 1) % U32);
    MovedNumber(s.h, who, v, w);
    hide Unopened, UnderUnset, Reloaded;
    SessionSides(s.(states := s.states[who := w]), who);
  }

  lemma MovedNumber(h: History, who: nat, v: StateV, w: StateV)
    requires |h.keys| == |h.chains| + 1 && PartyOk(h, who, 0, v) && w == v.(nr := w.nr)
    ensures PartyOk(h, who, 0, w)
    ensures StoredAll(h, who, 0, v.nr, v.skipped) ==> StoredAll(h, who, 0, w.nr, w.skipped)
  {
    assert forall k: nat, n: nat :: Passed(h, who, 0, w.nr, k, n) <==> Passed(h, who, 0, v.nr, k, n);
    NothingStored(h, who, 0, v);
  }

  lemma DeliveredWasSent(s: Session, m: Message)
    requires Inv(s)
    ensures m in s.h.delivered ==> WasSent(s.h, m)
  {
  }

  // ----- runs -----

  lemma SentSame(s: Session, who: nat, m: Message, v: StateV)
    requires |s.states| == 2 && |s.cur| == 2 && who < 2 && 0 <= s.cur[who] < |s.h.chains|
    requires Inv(AfterSend(s, who, m, v))
    ensures Reloaded(v) == v
  {
    var t := AfterSend(s, who, m, v);
    assert PartyOk(t.h, who, t.cur[who], t.states[who]);
    ReloadedSame(t.h, who, t.cur[who], v);
  }

  lemma SendStep(s: Session, who: nat, plain: Bytes)
    requires Inv(s) && Allowed(s, Send(who, plain))
    ensures var t := Step(s, Send(who, plain));
      Inv(t) && (Complete(s, 0) && Complete(s, 1) ==> Complete(t, 0) && Complete(t, 1))
  {
    InvShaped(s);
    if s.states[who].hasCKs {
      var m, v := SendKeeps(s, who, plain);
      SentSame(s, who, m, v);
      hide HistoryOk, PartyOk, StoredAll;
    }
  }

  lemma NetStep(s: Session, who: nat, m: Message, drawn: Priv)
    requires Inv(s) && Allowed(s, Net(who, m, drawn)) && Shaped(s)
    ensures SafeAt(s, Net(who, m, drawn)) && Inv(Step(s, Net(who, m, drawn)))
  {
    AwaitedWasSent(s.h, who, m);
    if Unopened(s.states[who], m) {
      UnopenedKeeps(s, who, m, drawn);
      hide DecryptV, HistoryOk, PartyOk, StoredAll, WasSent, Inv, UnderUnset, Unopened, Awaits;
    } else if DecryptV(s.states[who], drawn, m).Ok? {
      var plain, w := ReadKeeps(s, who, m, drawn);
      hide DecryptV, HistoryOk, PartyOk, StoredAll, WasSent, Inv, Unopened, Awaits;
    }
  }

  lemma StepKeeps(s: Session, e: Event)
    requires Inv(s) && Allowed(s, e)
    ensures Shaped(s) && SafeAt(s, e) && Inv(Step(s, e))
  {
    InvShaped(s);
    match e
    case Send(who, plain) => SendStep(s, who, plain);
    case Net(who, m, drawn) => NetStep(s, who, m, drawn);
  }

  lemma NetExact(s: Session, who: nat, m: Message, drawn: Priv)
    requires Inv(s) && who < 2 && Possible(s.h, m) && drawn !in s.h.keys
    requires InBound(s) && Complete(s, 0) && Complete(s, 1) && Shaped(s)
    requires !Unopened(s.states[who], m)
    ensures var d := DecryptV(s.states[who], drawn, m);
      && (d.Ok? <==> Awaits(s.h, who, m))
      && (d.Ok? ==>
           var s' := AfterRead(s, who, m, Reloaded(d.value.1));
           Inv(s') && Complete(s', 0) && Complete(s', 1))
  {
    hide DecryptV, Awaits, StoredAll, HistoryAfter, Undelivered;
    OwnKeyIsOld(s, who);
    if Awaits(s.h, who, m) {
      AwaitedIsAccepted(s.h, who, s.cur[who], s.states[who], drawn, m);
    }
    if DecryptV(s.states[who], drawn, m).Ok? {
      var plain, w := ReadKeeps(s, who, m, drawn);
      assert Complete(AfterRead(s, who, m, w), who);
      assert who == 0 || who == 1;
    }
  }

  lemma StepExact(s: Session, e: Event)
    requires Inv(s) && Allowed(s, e) && InBound(s) && Complete(s, 0) && Complete(s, 1)
    requires Shaped(s)
    ensures ExactAt(s, e) && Inv(Step(s, e)) && Complete(Step(s, e), 0) && Complete(Step(s, e), 1)
  {
    match e
    case Send(who, plain) => SendStep(s, who, plain);
    case Net(who, m, drawn) =>
      if Unopened(s.states[who], m) {
        UnopenedKeeps(s, who, m, drawn);
      } else {
        NetExact(s, who, m, drawn);
      }
  }

  /** In every reachable state, exactly which messages that are not awaited Decrypt accepts. */
  lemma UnsentAccepted(s: Session, who: nat, m: Message, drawn: Priv)
    requires Inv(s) && Shaped(s) && who < 2 && Possible(s.h, m) && drawn !in s.h.keys
    ensures Answer(s, Net(who, m, drawn)).Ok? && !Awaits(s.h, who, m)
      <==> Unopened(s.states[who], m) && UnderUnset(s.states[who], m)
  {
    AwaitedWasSent(s.h, who, m);
    if Unopened(s.states[who], m) {
      UnopenedKeeps(s, who, m, drawn);
    } else if Answer(s, Net(who, m, drawn)).Ok? {
      var plain, w := ReadKeeps(s, who, m, drawn);
    }
  }

  /** In every run, nothing of the peer's is read twice, by the wrong side or with another text. */
  lemma {:induction false} RunSafe(s: Session, es: seq<Event>)
    requires Inv(s) && AllAllowed(s, es)
    ensures AllSafe(s, es) && Inv(Run(s, es))
    decreases |es|
  {
    InvShaped(s);
    if es != [] {
      StepKeeps(s, es[0]);
      RunSafe(Step(s, es[0]), es[1..]);
    }
  }

  /** While no direction has more than MAX_SKIP undelivered messages, every one of them is readable. */
  lemma {:induction false} RunExact(s: Session, es: seq<Event>)
    requires Inv(s) && AllAllowed(s, es) && AllInBound(s, es) && Complete(s, 0) && Complete(s, 1)
    ensures AllExact(s, es)
    decreases |es|
  {
    InvShaped(s);
    if es != [] {
      StepExact(s, es[0]);
      RunExact(Step(s, es[0]), es[1..]);
    }
  }

  lemma StepDelivered(s: Session, e: Event)
    ensures s.h.delivered <= Step(s, e).h.delivered
  {
    hide DecryptV, EncryptV, Reloaded, Unopened;
  }

  /** What is read stays read. */
  lemma {:induction false} DeliveredStays(s: Session, es: seq<Event>, m: Message)
    requires m in s.h.delivered
    ensures m in Run(s, es).h.delivered
    decreases |es|
  {
    if es != [] {
      hide Step;
      StepDelivered(s, es[0]);
      DeliveredStays(Step(s, es[0]), es[1..], m);
    }
  }

  lemma {:induction false} SecretStays(s: Session, es: seq<Event>)
    ensures Run(s, es).h.sk == s.h.sk && Run(s, es).h.ad == s.h.ad
    decreases |es|
  {
    if es != [] {
      SecretStays(Step(s, es[0]), es[1..]);
    }
  }

  lemma SentIsPossible(h: History, m: Message)
    requires WasSent(h, m)
    ensures Possible(h, m)
  {
    var k: nat, n: nat :| At(h, k, n) && m == h.chains[k][n];
    assert m.ct == h.chains[k][n].ct;
  }

  lemma UnsetWasNotSent(h: History, m: Message)
    requires HistoryOk(h) && m.ct.Sealed? && m.ct.mk == MsgKey(Unset)
    ensures Possible(h, m) && !WasSent(h, m)
  {
    if WasSent(h, m) {
      var k: nat, n: nat :| At(h, k, n) && m == h.chains[k][n];
      assert MessageOk(h, k, n);
      KeyOrigin(h, k, n);
    }
  }

  lemma AgainUnopened(t: Session, who: nat, m: Message, drawn: Priv)
    requires Inv(t) && Shaped(t) && who < 2 && drawn !in t.h.keys && UnderUnset(t.states[who], m)
    ensures Answer(t, Net(who, m, drawn)).Ok? <==> Unopened(t.states[who], m)
  {
    UnsetWasNotSent(t.h, m);
    AwaitedWasSent(t.h, who, m);
    if Unopened(t.states[who], m) {
      UnopenedKeeps(t, who, m, drawn);
    } else if Answer(t, Net(who, m, drawn)).Ok? {
      var plain, w := ReadKeeps(t, who, m, drawn);
    }
  }

  lemma AgainRefused(t: Session, who: nat, m: Message, drawn: Priv)
    requires Inv(t) && Shaped(t) && who < 2 && drawn !in t.h.keys && m in t.h.delivered
    ensures !Answer(t, Net(who, m, drawn)).Ok? && !Unopened(t.states[who], m)
  {
    DeliveredWasSent(t, m);
    SentIsPossible(t.h, m);
    if Unopened(t.states[who], m) {
      UnopenedKeeps(t, who, m, drawn);
    } else if Answer(t, Net(who, m, drawn)).Ok? {
      var plain, w := ReadKeeps(t, who, m, drawn);
    }
  }

  /**
   A message accepted once is accepted again at a later point of a run exactly while it fits an
   unopened chain there: never, if it was sent by the peer.
   */
  lemma NeverAgain(s: Session, es: seq<Event>, who: nat, m: Message, first: Priv, again: Priv)
    requires Inv(s) && Allowed(s, Net(who, m, first)) && AllAllowed(Step(s, Net(who, m, first)), es)
    requires Shaped(s) && Answer(s, Net(who, m, first)).Ok?
    requires again !in Run(Step(s, Net(who, m, first)), es).h.keys
    ensures var t := Run(Step(s, Net(who, m, first)), es);
      && Inv(t) && Shaped(t)
      && (Answer(t, Net(who, m, again)).Ok? <==> Unopened(t.states[who], m))
      && (Unopened(t.states[who], m) ==> Unopened(s.states[who], m))
  {
    var e := Net(who, m, first);
    FirstRead(s, e);
    StepKeeps(s, e);
    hide Step, Inv, Shaped, Answer, Unopened, UnderUnset;
    var s1 := Step(s, e);
    RunSafe(s1, es);
    SecretStays(s1, es);
    var t := Run(s1, es);
    InvShaped(t);
    Sides(s);
    Sides(t);
    if m in s1.h.delivered {
      DeliveredStays(s1, es, m);
      AgainRefused(t, who, m, again);
    } else {
      SameBinding(s, t, who, m);
      AgainUnopened(t, who, m, again);
    }
  }

  lemma Sides(s: Session)
    requires Inv(s)
    ensures |s.states| == 2 && |s.cur| == 2
  {
  }

  /** Both parties' states carry the session's binding. */
  lemma SameBinding(s: Session, t: Session, who: nat, m: Message)
    requires Inv(s) && Inv(t) && who < 2 && t.h.ad == s.h.ad && UnderUnset(s.states[who], m)
    ensures UnderUnset(t.states[who], m)
  {
    OwnKeyIsOld(s, who);
    OwnKeyIsOld(t, who);
  }

  /** After the first acceptance m counts as read, or it fitted an unopened chain. */
  lemma FirstRead(s: Session, e: Event)
    requires Inv(s) && Allowed(s, e) && Shaped(s) && e.Net? && Answer(s, e).Ok?
    ensures Step(s, e).h.sk == s.h.sk && Step(s, e).h.ad == s.h.ad
    ensures Unopened(s.states[e.who], e.m) || e.m in Step(s, e).h.delivered
    ensures e.m in Step(s, e).h.delivered || UnderUnset(s.states[e.who], e.m)
  {
    hide DecryptV, PartyOk, HistoryOk;
    if Unopened(s.states[e.who], e.m) {
      UnopenedKeeps(s, e.who, e.m, e.drawn);
    }
  }
}
