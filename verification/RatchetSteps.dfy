/** What skipping, one DH step, Encrypt and Decrypt do to a two-party ratchet session. */
module RatchetSteps {
  import opened Prelude
  import opened RatchetCrypto
  import opened Ratchet
  import opened RatchetSession

  /** The key of a message that is not pending is not stored. */
  lemma OtherEntries(h: History, who: nat, s: int, nr: nat, es: seq<Skipped>, k: nat, n: nat)
    requires HistoryOk(h) && StoredOk(h, who, s, nr, es)
    requires At(h, k, n) && !Pending(h, who, s, nr, k, n)
    ensures Entry(h, k, n) !in es
  {
    forall e | e in es
      ensures e != Entry(h, k, n)
    {
      assert IsPendingEntry(h, who, s, nr, e);
      var k': nat, n': nat :| Pending(h, who, s, nr, k', n') && e == Entry(h, k', n');
      if e == Entry(h, k, n) {
        EntryUnique(h, k, n, k', n');
      }
    }
  }

  /** A party may have gone past more messages without its stored keys becoming wrong. */
  lemma StoredWiden(h: History, who: nat, s: int, nr: nat, until: nat, es: seq<Skipped>)
    requires |h.keys| == |h.chains| + 1 && nr <= until
    requires StoredOk(h, who, s, nr, es)
    ensures StoredOk(h, who, s, until, es)
  {
    forall e | e in es
      ensures IsPendingEntry(h, who, s, until, e)
    {
      assert IsPendingEntry(h, who, s, nr, e);
      var k: nat, n: nat :| Pending(h, who, s, nr, k, n) && e == Entry(h, k, n);
      assert Pending(h, who, s, until, k, n);
    }
  }

  lemma PassedCarries(h: History, h': History, who: nat, s: int, nr: nat, s': int, nr': nat)
    requires DeliveredPassed(h, who, s, nr)
    requires s' > s || (s' == s && nr' >= nr)
    requires s' > s ==> (s' - s) % 2 == 0 && s % 2 == who
    requires h'.delivered == h.delivered && |h'.chains| >= |h.chains|
    requires forall k: nat :: k < |h.chains| ==> h.chains[k] <= h'.chains[k]
    requires forall k: nat, n: nat :: At(h', k, n) && h'.chains[k][n] in h.delivered ==> At(h, k, n)
    ensures DeliveredPassed(h', who, s', nr')
  {
    forall k: nat, n: nat | At(h', k, n) && k % 2 != who && h'.chains[k][n] in h'.delivered
      ensures Passed(h', who, s', nr', k, n)
    {
      assert Passed(h, who, s, nr, k, n);
    }
  }

  /** The situation in which skipTo runs: v reads chain s - 1 of h. */
  ghost predicate CanSkip(h: History, who: nat, s: int, v: StateV) {
    && HistoryOk(h) && 1 <= s < |h.keys| && who < 2 && s % 2 == who
    && WellFormed(v) && Receiving(h, s, v)
    && StoredOk(h, who, s, v.nr, v.skipped)
    && DeliveredPassed(h, who, s, v.nr)
  }

  function Gap(v: StateV, until: nat): seq<Skipped>
    requires v.dhr.Some? && v.nr <= until
  {
    ChainEntries(v.dhr.value, v.ckr, v.nr, until - v.nr)
  }

  lemma GapEntry(h: History, who: nat, s: int, v: StateV, until: nat, i: nat)
    requires CanSkip(h, who, s, v) && v.nr <= until <= |h.chains[s - 1]| && i < until - v.nr
    ensures Gap(v, until)[i] == Entry(h, s - 1, v.nr + i)
    ensures Pending(h, who, s, until, s - 1, v.nr + i)
  {
    AdvanceAdd(ChainStart(h, s - 1), v.nr, i);
    assert At(h, s - 1, v.nr + i);
    assert !Passed(h, who, s, v.nr, s - 1, v.nr + i);
  }

  /** Before eviction: the old keys and the gap's keys together are all right. */
  lemma StoredWithGap(h: History, who: nat, s: int, v: StateV, until: nat)
    requires CanSkip(h, who, s, v) && v.nr <= until <= |h.chains[s - 1]|
    ensures StoredOk(h, who, s, until, v.skipped + Gap(v, until))
  {
    var old', gap := v.skipped, Gap(v, until);
    StoredWiden(h, who, s, v.nr, until, old');
    forall i, j
      ensures Apart(gap, i, j)
    {
    }
    forall i | 0 <= i < |gap|
      ensures IsPendingEntry(h, who, s, until, gap[i]) && gap[i] !in old'
    {
      GapEntry(h, who, s, v, until, i);
      forall e | e in old'
        ensures e != gap[i]
      {
        assert IsPendingEntry(h, who, s, v.nr, e);
        var k: nat, n: nat :| Pending(h, who, s, v.nr, k, n) && e == Entry(h, k, n);
        if e == gap[i] {
          EntryUnique(h, k, n, s - 1, v.nr + i);
        }
      }
    }
    NoDupAppend(old', gap);
  }

  /** A suffix of a good list is good. */
  lemma StoredSuffix(h: History, who: nat, s: int, nr: nat, es: seq<Skipped>, n: nat)
    requires |h.keys| == |h.chains| + 1 && StoredOk(h, who, s, nr, es)
    ensures StoredOk(h, who, s, nr, LastN(es, n))
  {
    var r := LastN(es, n);
    var d := |es| - |r|;
    forall i, j
      ensures Apart(r, i, j)
    {
      assert Apart(es, d + i, d + j);
    }
    forall e | e in r
      ensures e in es
    {
    }
  }

  lemma SkipKeeps(h: History, who: nat, s: int, v: StateV, until: nat)
    requires CanSkip(h, who, s, v) && v.nr <= until <= |h.chains[s - 1]|
    requires SkipToV(v, until).Ok?
    ensures var w := SkipToV(v, until).value; CanSkip(h, who, s, w) && w.nr == until
  {
    if until > v.nr {
      StoredWithGap(h, who, s, v, until);
      StoredSuffix(h, who, s, until, v.skipped + Gap(v, until), MAX_SKIP);
      AdvanceAdd(ChainStart(h, s - 1), v.nr, until - v.nr);
      var w := SkipToV(v, until).value;
      PassedCarries(h, h, who, s, v.nr, s, until);
      assert Receiving(h, s, w);
    }
  }

  /** With at most MAX_SKIP undelivered messages skipping succeeds and evicts nothing. */
  lemma SkipComplete(h: History, who: nat, s: int, v: StateV, until: nat)
    requires CanSkip(h, who, s, v) && v.nr <= until <= |h.chains[s - 1]|
    requires StoredAll(h, who, s, v.nr, v.skipped)
    requires |Undelivered(h, who)| <= MAX_SKIP
    ensures SkipToV(v, until).Ok?
    ensures StoredAll(h, who, s, until, SkipToV(v, until).value.skipped)
  {
    if until > v.nr {
      var gap := Gap(v, until);
      var es := v.skipped + gap;
      StoredWithGap(h, who, s, v, until);
      StoredBounded(h, who, s, until, es);
      assert LastN(es, MAX_SKIP) == es;
      forall k: nat, n: nat | Pending(h, who, s, until, k, n)
        ensures Entry(h, k, n) in es
      {
        if k == s - 1 && n >= v.nr {
          GapEntry(h, who, s, v, until, n - v.nr);
          assert es[|v.skipped| + n - v.nr] == Entry(h, k, n);
        } else {
          assert Pending(h, who, s, v.nr, k, n);
        }
      }
    }
  }

  // ----- a new ratchet key opens an empty chain -----

  function Extended(h: History, x: Priv): History {
    h.(keys := h.keys + [x], chains := h.chains + [[]])
  }

  lemma ExtendKeys(h: History, x: Priv, k: nat)
    requires k + 1 < |h.keys|
    ensures ChainStart(Extended(h, x), k) == ChainStart(h, k)
    ensures forall n: nat :: Entry(Extended(h, x), k, n) == Entry(h, k, n)
  {
    RootPrefix(h.sk, h.keys, x, k);
  }

  lemma ExtendHistory(h: History, x: Priv)
    requires HistoryOk(h) && x !in h.keys
    ensures HistoryOk(Extended(h, x))
    ensures forall who :: Undelivered(Extended(h, x), who) == Undelivered(h, who)
  {
    var h' := Extended(h, x);
    NoDupAppend(h.keys, [x]);
    forall k: nat, n: nat | At(h', k, n)
      ensures MessageOk(h', k, n)
    {
      assert At(h, k, n) && MessageOk(h, k, n);
      ExtendKeys(h, x, k);
    }
    forall m | m in h'.delivered
      ensures WasSent(h', m)
    {
      assert WasSent(h, m);
      var k: nat, n: nat :| At(h, k, n) && m == h.chains[k][n];
      assert At(h', k, n) && m == h'.chains[k][n];
    }
  }

  lemma ExtendStored(h: History, x: Priv, who: nat, s: int, nr: nat, es: seq<Skipped>)
    requires |h.keys| == |h.chains| + 1
    ensures StoredOk(h, who, s, nr, es) ==> StoredOk(Extended(h, x), who, s, nr, es)
    ensures StoredAll(h, who, s, nr, es) ==> StoredAll(Extended(h, x), who, s, nr, es)
  {
    var h' := Extended(h, x);
    forall e | IsPendingEntry(h, who, s, nr, e)
      ensures IsPendingEntry(h', who, s, nr, e)
    {
      var k: nat, n: nat :| Pending(h, who, s, nr, k, n) && e == Entry(h, k, n);
      ExtendKeys(h, x, k);
      assert Pending(h', who, s, nr, k, n);
    }
    forall k: nat, n: nat | Pending(h', who, s, nr, k, n)
      ensures Pending(h, who, s, nr, k, n) && Entry(h', k, n) == Entry(h, k, n)
    {
      ExtendKeys(h, x, k);
    }
  }

  lemma ExtendParty(h: History, x: Priv, who: nat, s: int, v: StateV)
    requires HistoryOk(h) && PartyOk(h, who, s, v)
    ensures PartyOk(Extended(h, x), who, s, v)
  {
    var h' := Extended(h, x);
    ExtendStored(h, x, who, s, v.nr, v.skipped);
    RootPrefix(h.sk, h.keys, x, s + 1);
    if s >= 0 {
      ExtendKeys(h, x, s);
    }
    if s >= 1 {
      ExtendKeys(h, x, s - 1);
    }
    assert Sending(h', s, v) && Receiving(h', s, v);
    PassedCarries(h, h', who, s, v.nr, s, v.nr);
  }

  // ----- Encrypt -----

  function Appended(h: History, c: nat, m: Message): History
    requires c < |h.chains|
  {
    h.(chains := h.chains[c := h.chains[c] + [m]])
  }

  lemma AppendKeepsStored(h: History, c: nat, m: Message, who: nat, s: int, nr: nat, es: seq<Skipped>)
    requires HistoryOk(h) && c < |h.chains| && m !in h.delivered
    requires c % 2 != who ==> c >= s || (c == s - 1 && nr <= |h.chains[c]|)
    ensures var h' := Appended(h, c, m);
      && (StoredOk(h, who, s, nr, es) ==> StoredOk(h', who, s, nr, es))
      && (StoredAll(h, who, s, nr, es) ==> StoredAll(h', who, s, nr, es))
  {
    var h' := Appended(h, c, m);
    forall e | IsPendingEntry(h, who, s, nr, e)
      ensures IsPendingEntry(h', who, s, nr, e)
    {
      var k: nat, n: nat :| Pending(h, who, s, nr, k, n) && e == Entry(h, k, n);
      assert Pending(h', who, s, nr, k, n) && e == Entry(h', k, n);
    }
    forall k: nat, n: nat | Pending(h', who, s, nr, k, n)
      ensures Pending(h, who, s, nr, k, n) && Entry(h', k, n) == Entry(h, k, n)
    {
    }
  }

  lemma AppendKeepsHistory(h: History, c: nat, m: Message)
    requires HistoryOk(h) && |h.chains| - 2 <= c < |h.chains| && |h.chains[c]| + 1 < U32
    requires m.dh == PubOf(h.keys[c + 1]) && m.pn == PreviousLength(h, c) && m.n == |h.chains[c]|
    requires m.ct.Sealed? && m.ct.mk == KeyAt(h, c, m.n) && m.ct.aad == Aad(h.ad, m.dh, m.pn, m.n)
    ensures m !in h.delivered
    ensures HistoryOk(Appended(h, c, m))
  {
    var h' := Appended(h, c, m);
    forall k: nat, n: nat | At(h, k, n)
      ensures h.chains[k][n] != m
    {
      assert MessageOk(h, k, n);
      if k != c {
        assert Apart(h.keys, k + 1, c + 1) && Apart(h.keys, c + 1, k + 1);
      }
    }
    forall k: nat, n: nat | At(h', k, n)
      ensures MessageOk(h', k, n)
    {
      if k != c || n < |h.chains[c]| {
        assert MessageOk(h, k, n);
      }
    }
    forall x | x in h'.delivered
      ensures WasSent(h', x)
    {
      assert WasSent(h, x);
      var k: nat, n: nat :| At(h, k, n) && x == h.chains[k][n];
      assert At(h', k, n) && x == h'.chains[k][n];
    }
  }

  lemma SendParty(h: History, c: nat, m: Message, p: nat, s: int, v: StateV, v': StateV)
    requires HistoryOk(h) && PartyOk(h, p, s, v) && m !in h.delivered
    requires c < |h.chains| && |h.chains[c]| < U32 - 1
    requires if c % 2 == p then
               s == c && v' == v.(cks := NextChain(v.cks), ns := v.ns + 1)
             else
               v' == v && (s == c + 1 || s == c - 1)
    ensures PartyOk(Appended(h, c, m), p, s, v')
    ensures StoredAll(h, p, s, v.nr, v.skipped) ==>
              StoredAll(Appended(h, c, m), p, s, v'.nr, v'.skipped)
  {
    var h' := Appended(h, c, m);
    AppendKeepsStored(h, c, m, p, s, v.nr, v.skipped);
    assert Sending(h', s, v');
    assert Receiving(h', s, v');
    PassedCarries(h, h', p, s, v.nr, s, v.nr);
  }

  lemma EncryptedMessage(h: History, who: nat, c: int, v: StateV, plain: Bytes) returns (m: Message, w: StateV)
    requires HistoryOk(h) && PartyOk(h, who, c, v) && v.hasCKs && |h.chains[c]| + 1 < U32
    ensures EncryptV(v, plain) == Ok((m, w))
    ensures w == v.(cks := NextChain(v.cks), ns := v.ns + 1)
    ensures
      && m.dh == PubOf(h.keys[c + 1]) && m.pn == PreviousLength(h, c) && m.n == |h.chains[c]|
      && m.ct == Sealed(KeyAt(h, c, m.n), Aad(h.ad, m.dh, m.pn, m.n), plain)
  {
    m, w := EncryptV(v, plain).value.0, EncryptV(v, plain).value.1;
  }

  /** Inv, put together from the two parties' sides. */
  lemma SessionSides(s: Session, who: nat)
    requires HistoryOk(s.h) && |s.states| == 2 && |s.cur| == 2 && who < 2
    requires s.cur[0] == s.cur[1] + 1 || s.cur[1] == s.cur[0] + 1
    requires |s.h.chains| == (if s.cur[0] > s.cur[1] then s.cur[0] else s.cur[1]) + 1
    requires PartyOk(s.h, who, s.cur[who], s.states[who])
    requires PartyOk(s.h, 1 - who, s.cur[1 - who], s.states[1 - who])
    ensures Inv(s)
  {
    forall p: nat | p < 2
      ensures PartyOk(s.h, p, s.cur[p], s.states[p])
    {
      assert p == who || p == 1 - who;
    }
  }

  /** After party who sent m and became v. */
  function AfterSend(s: Session, who: nat, m: Message, v: StateV): Session
    requires who < |s.states| && who < |s.cur| && 0 <= s.cur[who] < |s.h.chains|
  {
    Session(Appended(s.h, s.cur[who], m), s.states[who := v], s.cur)
  }

  lemma SendSide(s: Session, who: nat, m: Message, v: StateV, p: nat)
    requires Inv(s) && who < 2 && p < 2 && 0 <= s.cur[who] && m !in s.h.delivered
    requires |s.h.chains[s.cur[who]]| + 1 < U32
    requires v == s.states[who].(cks := NextChain(s.states[who].cks), ns := s.states[who].ns + 1)
    ensures var s' := AfterSend(s, who, m, v);
      && |s'.h.keys| == |s'.h.chains| + 1
      && PartyOk(s'.h, p, s.cur[p], s'.states[p])
      && (Complete(s, p) ==> StoredAll(s'.h, p, s.cur[p], s'.states[p].nr, s'.states[p].skipped))
  {
    assert PartyOk(s.h, p, s.cur[p], s.states[p]);
    SendParty(s.h, s.cur[who], m, p, s.cur[p], s.states[p], if p == who then v else s.states[p]);
  }

  /** Encrypt, in a session, sends the plaintext and keeps the invariant and completeness. */
  lemma SendKeeps(s: Session, who: nat, plain: Bytes) returns (m: Message, v: StateV)
    requires Inv(s) && who < 2 && s.states[who].hasCKs
    requires |s.h.chains[s.cur[who]]| + 1 < U32
    ensures EncryptV(s.states[who], plain) == Ok((m, v))
    ensures s.cur[who] >= 0 && m.ct.Sealed? && m.ct.plain == plain && m !in s.h.delivered
    ensures Inv(AfterSend(s, who, m, v))
    ensures forall p: nat :: p < 2 && Complete(s, p) ==> Complete(AfterSend(s, who, m, v), p)
  {
    assert PartyOk(s.h, who, s.cur[who], s.states[who]);
    m, v := EncryptedMessage(s.h, who, s.cur[who], s.states[who], plain);
    AppendKeepsHistory(s.h, s.cur[who], m);
    forall p: nat | p < 2
      ensures PartyOk(Appended(s.h, s.cur[who], m), p, s.cur[p], s.states[who := v][p])
      ensures Complete(s, p) ==>
                StoredAll(Appended(s.h, s.cur[who], m), p, s.cur[p], s.states[who := v][p].nr,
                          s.states[who := v][p].skipped)
    {
      SendSide(s, who, m, v, p);
    }
  }

  // ----- a message is marked as read -----

  function Marked(h: History, m: Message): History {
    h.(delivered := h.delivered + {m})
  }

  lemma MarkHistory(h: History, k: nat, n: nat)
    requires HistoryOk(h) && At(h, k, n)
    ensures HistoryOk(Marked(h, h.chains[k][n]))
  {
    var h' := Marked(h, h.chains[k][n]);
    forall k': nat, n': nat | At(h', k', n')
      ensures MessageOk(h', k', n')
    {
      assert MessageOk(h, k', n');
    }
    forall x | x in h'.delivered
      ensures WasSent(h', x)
    {
      if x in h.delivered {
        assert WasSent(h, x);
        var k': nat, n': nat :| At(h, k', n') && x == h.chains[k'][n'];
        assert At(h', k', n') && x == h'.chains[k'][n'];
      } else {
        assert At(h', k, n) && x == h'.chains[k][n];
      }
    }
  }

  /** es keeps describing what is pending once message (k, n), whose key it lacks, is read. */
  lemma MarkStored(h: History, k: nat, n: nat, who: nat, s: int, nr: nat, es: seq<Skipped>)
    requires HistoryOk(h) && At(h, k, n) && Entry(h, k, n) !in es
    requires StoredOk(h, who, s, nr, es)
    ensures StoredOk(Marked(h, h.chains[k][n]), who, s, nr, es)
    ensures (forall k': nat, n': nat :: Pending(h, who, s, nr, k', n') && (k', n') != (k, n) ==>
              Entry(h, k', n') in es)
      ==> StoredAll(Marked(h, h.chains[k][n]), who, s, nr, es)
  {
    var h' := Marked(h, h.chains[k][n]);
    forall e | e in es
      ensures IsPendingEntry(h', who, s, nr, e)
    {
      assert IsPendingEntry(h, who, s, nr, e);
      var k': nat, n': nat :| Pending(h, who, s, nr, k', n') && e == Entry(h, k', n');
      if h.chains[k'][n'] == h.chains[k][n] {
        PositionUnique(h, k, n, k', n');
      }
      assert Pending(h', who, s, nr, k', n') && e == Entry(h', k', n');
    }
    forall k': nat, n': nat | Pending(h', who, s, nr, k', n')
      ensures Pending(h, who, s, nr, k', n') && Entry(h', k', n') == Entry(h, k', n')
    {
    }
  }

  lemma MarkDelivered(h: History, k: nat, n: nat, who: nat, s: int, nr: nat)
    requires HistoryOk(h) && At(h, k, n) && DeliveredPassed(h, who, s, nr)
    requires k % 2 != who ==> Passed(h, who, s, nr, k, n)
    ensures DeliveredPassed(Marked(h, h.chains[k][n]), who, s, nr)
  {
    var h' := Marked(h, h.chains[k][n]);
    forall k': nat, n': nat | At(h', k', n') && k' % 2 != who && h'.chains[k'][n'] in h'.delivered
      ensures Passed(h', who, s, nr, k', n')
    {
      if h.chains[k'][n'] !in h.delivered {
        PositionUnique(h, k, n, k', n');
      }
      assert Passed(h, who, s, nr, k', n');
    }
  }

  /** The sender of the message just read is not concerned. */
  lemma MarkOther(h: History, k: nat, n: nat, who: nat, s: int, v: StateV)
    requires HistoryOk(h) && At(h, k, n) && k % 2 == who && PartyOk(h, who, s, v)
    ensures PartyOk(Marked(h, h.chains[k][n]), who, s, v)
    ensures StoredAll(h, who, s, v.nr, v.skipped) ==>
              StoredAll(Marked(h, h.chains[k][n]), who, s, v.nr, v.skipped)
  {
    var h' := Marked(h, h.chains[k][n]);
    OtherEntries(h, who, s, v.nr, v.skipped, k, n);
    MarkStored(h, k, n, who, s, v.nr, v.skipped);
    MarkDelivered(h, k, n, who, s, v.nr);
    assert Sending(h', s, v) && Receiving(h', s, v);
  }
}
