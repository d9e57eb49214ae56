/**
 Two Double Ratchet states talking over a network that loses, delays, reorders, repeats and
 alters messages.

 The ratchet keys of both parties form one list: keys[0] is the responder's handshake key,
 keys[1] the initiator's first ratchet key, and then the parties alternate. Chain k runs
 between keys[k] and keys[k + 1] and is sent by the owner of keys[k + 1]: even chains by the
 initiator (party 0), odd chains by the responder (party 1). A party's state is a function of
 this history, of the chain it currently sends on, and of what it has read.
 */
module RatchetSession {
  import opened Prelude
  import opened RatchetCrypto
  import opened Ratchet

  /** The handshake secret, all ratchet keys and sent messages so far, and what was read. */
  datatype History = History(sk: Key, ad: Transcript, keys: seq<Priv>, chains: seq<seq<Message>>,
                             delivered: set<Message>)

  /** Both states and, for each party, the chain it sends on (-1: none yet). */
  datatype Session = Session(h: History, states: seq<StateV>, cur: seq<int>)

  // ----- the specification keys of a history -----

  function Root(sk: Key, keys: seq<Priv>, k: nat): Key
    requires k < |keys|
  {
    if k == 0 then sk else NextRoot(Root(sk, keys, k - 1), Shared({keys[k - 1], keys[k]}))
  }

  function ChainStart(h: History, k: nat): Key
    requires k + 1 < |h.keys|
  {
    FirstChain(Root(h.sk, h.keys, k), Shared({h.keys[k], h.keys[k + 1]}))
  }

  function KeyAt(h: History, k: nat, n: nat): Key
    requires k + 1 < |h.keys|
  {
    MsgKey(Advance(ChainStart(h, k), n))
  }

  /** The stored form of the key of message n of chain k. */
  function Entry(h: History, k: nat, n: nat): Skipped
    requires k + 1 < |h.keys|
  {
    Skipped(PubOf(h.keys[k + 1]), n, KeyAt(h, k, n))
  }

  function PreviousLength(h: History, k: nat): nat
    requires k < |h.chains| + 2
  {
    if k >= 2 then |h.chains[k - 2]| else 0
  }

  predicate At(h: History, k: nat, n: nat) {
    k < |h.chains| && n < |h.chains[k]|
  }

  predicate MessageOk(h: History, k: nat, n: nat)
    requires |h.keys| == |h.chains| + 1 && At(h, k, n)
  {
    var m := h.chains[k][n];
    && m.dh == PubOf(h.keys[k + 1]) && m.pn == PreviousLength(h, k) && m.n == n
    && m.ct.Sealed? && m.ct.mk == KeyAt(h, k, n) && m.ct.aad == Aad(h.ad, m.dh, m.pn, m.n)
  }

  ghost predicate WasSent(h: History, m: Message) {
    exists k: nat, n: nat :: At(h, k, n) && m == h.chains[k][n]
  }

  ghost predicate HistoryOk(h: History) {
    && h.sk.RootSK?
    && NoDup(h.keys)
    && |h.keys| == |h.chains| + 1
    && (forall k: nat, n: nat :: At(h, k, n) ==> MessageOk(h, k, n))
    && (forall m :: m in h.delivered ==> WasSent(h, m))
    && (forall k :: 0 <= k < |h.chains| ==> |h.chains[k]| < U32)
  }

  // ----- what one party has read -----

  /** who, sending on chain s and expecting number nr, has gone past message n of chain k. */
  predicate Passed(h: History, who: nat, s: int, nr: nat, k: nat, n: nat) {
    At(h, k, n) && k % 2 != who && k < s && (k == s - 1 ==> n < nr)
  }

  /** Passed, but its message has not been read. */
  predicate Pending(h: History, who: nat, s: int, nr: nat, k: nat, n: nat) {
    Passed(h, who, s, nr, k, n) && h.chains[k][n] !in h.delivered
  }

  ghost predicate IsPendingEntry(h: History, who: nat, s: int, nr: nat, e: Skipped)
    requires |h.keys| == |h.chains| + 1
  {
    exists k: nat, n: nat :: Pending(h, who, s, nr, k, n) && e == Entry(h, k, n)
  }

  /** Stored keys are pairwise distinct and each is the key of a pending message. */
  ghost predicate StoredOk(h: History, who: nat, s: int, nr: nat, es: seq<Skipped>)
    requires |h.keys| == |h.chains| + 1
  {
    NoDup(es) && forall e :: e in es ==> IsPendingEntry(h, who, s, nr, e)
  }

  /** No pending message has lost its key. */
  ghost predicate StoredAll(h: History, who: nat, s: int, nr: nat, es: seq<Skipped>)
    requires |h.keys| == |h.chains| + 1
  {
    forall k: nat, n: nat :: Pending(h, who, s, nr, k, n) ==> Entry(h, k, n) in es
  }

  ghost predicate DeliveredPassed(h: History, who: nat, s: int, nr: nat) {
    forall k: nat, n: nat {:trigger Passed(h, who, s, nr, k, n)} ::
      At(h, k, n) && k % 2 != who && h.chains[k][n] in h.delivered ==> Passed(h, who, s, nr, k, n)
  }

  predicate Receiving(h: History, s: int, v: StateV)
    requires |h.keys| == |h.chains| + 1
  {
    if s >= 1 then
      && s < |h.keys|
      && v.hasCKr && v.dhr == Some(PubOf(h.keys[s])) && v.nr <= |h.chains[s - 1]|
      && v.ckr == Advance(ChainStart(h, s - 1), v.nr)
    else
      !v.hasCKr && v.ckr == Unset
      && v.dhr == if s == 0 then Some(PubOf(h.keys[0])) else None
  }

  predicate Sending(h: History, s: int, v: StateV)
    requires |h.keys| == |h.chains| + 1 && -1 <= s < |h.chains|
  {
    && v.dhs == h.keys[s + 1] && v.rk == Root(h.sk, h.keys, s + 1)
    && if s >= 0 then
      && v.hasCKs && v.cks == Advance(ChainStart(h, s), |h.chains[s]|)
      && v.ns == |h.chains[s]| && v.pn == PreviousLength(h, s)
    else
      !v.hasCKs && v.ns == 0 && v.pn == 0
  }

  /** v is the state of party who, sending on chain s, in history h. */
  ghost predicate PartyOk(h: History, who: nat, s: int, v: StateV)
    requires |h.keys| == |h.chains| + 1
  {
    && who < 2 && -1 <= s < |h.chains| && s % 2 == who
    && WellFormed(v) && v.ad == h.ad
    && Sending(h, s, v) && Receiving(h, s, v)
    && StoredOk(h, who, s, v.nr, v.skipped)
    && DeliveredPassed(h, who, s, v.nr)
  }

  ghost predicate Inv(s: Session) {
    && HistoryOk(s.h)
    && |s.states| == 2 && |s.cur| == 2
    && (s.cur[0] == s.cur[1] + 1 || s.cur[1] == s.cur[0] + 1)
    && |s.h.chains| == (if s.cur[0] > s.cur[1] then s.cur[0] else s.cur[1]) + 1
    && forall p: nat :: p < 2 ==> PartyOk(s.h, p, s.cur[p], s.states[p])
  }

  ghost predicate Complete(s: Session, who: nat)
    requires Inv(s) && who < 2
  {
    StoredAll(s.h, who, s.cur[who], s.states[who].nr, s.states[who].skipped)
  }

  /** Positions of the messages sent to who and not yet read. */
  function Undelivered(h: History, who: nat): set<(nat, nat)> {
    set k: nat, n: nat | k < |h.chains| && n < |h.chains[k]| && k % 2 != who && h.chains[k][n] !in h.delivered
      :: (k, n)
  }

  /** Storing a party's state and reading it back changes nothing once it can send. */
  lemma ReloadedSame(h: History, who: nat, s: int, v: StateV)
    requires |h.keys| == |h.chains| + 1 && PartyOk(h, who, s, v) && s >= 0
    ensures Reloaded(v) == v
  {
  }

  // ----- facts about the specification keys -----

  lemma {:induction false} RootPrefix(sk: Key, keys: seq<Priv>, x: Priv, k: nat)
    requires k < |keys|
    ensures Root(sk, keys + [x], k) == Root(sk, keys, k)
  {
    if k > 0 {
      RootPrefix(sk, keys, x, k - 1);
    }
  }

  lemma {:induction false} RootDepthIs(sk: Key, keys: seq<Priv>, k: nat)
    requires k < |keys| && sk.RootSK?
    ensures RootDepth(Root(sk, keys, k)) == k
    ensures Origin(Root(sk, keys, k)) == sk
  {
    if k > 0 {
      RootDepthIs(sk, keys, k - 1);
    }
  }

  lemma KeyOrigin(h: History, k: nat, n: nat)
    requires k + 1 < |h.keys| && h.sk.RootSK?
    ensures Origin(KeyAt(h, k, n)) == h.sk
  {
    AdvanceOrigin(ChainStart(h, k), n);
    RootDepthIs(h.sk, h.keys, k);
  }

  /** A header under the session's binding names one sent message, and the whole of it. */
  lemma HeaderIdentifies(h: History, k: nat, n: nat, m: Message)
    requires HistoryOk(h) && At(h, k, n)
    requires m.ct == h.chains[k][n].ct && m.ct.aad == Aad(h.ad, m.dh, m.pn, m.n)
    ensures m == h.chains[k][n]
  {
    assert MessageOk(h, k, n);
  }

  lemma PositionUnique(h: History, k: nat, n: nat, k': nat, n': nat)
    requires HistoryOk(h) && At(h, k, n) && At(h, k', n')
    requires h.chains[k][n].dh == h.chains[k'][n'].dh && h.chains[k][n].n == h.chains[k'][n'].n
    ensures k == k' && n == n'
  {
    assert MessageOk(h, k, n) && MessageOk(h, k', n');
    SamePosition(h.keys, k + 1, k' + 1);
  }

  lemma EntryUnique(h: History, k: nat, n: nat, k': nat, n': nat)
    requires NoDup(h.keys) && k + 1 < |h.keys| && k' + 1 < |h.keys|
    requires Entry(h, k, n) == Entry(h, k', n')
    ensures k == k' && n == n'
  {
    SamePosition(h.keys, k + 1, k' + 1);
  }

  lemma ImageBounded(h: History, u: set<(nat, nat)>)
    requires forall p :: p in u ==> p.0 + 1 < |h.keys|
    ensures |set p | p in u :: Entry(h, p.0, p.1)| <= |u|
  {
    var f := set q | q in u :: Entry(h, q.0, q.1);
    if u == {} {
      assert f == {};
    } else {
      var p :| p in u;
      var rest := u - {p};
      ImageBounded(h, rest);
      var g := set q | q in rest :: Entry(h, q.0, q.1);
      assert f == g + {Entry(h, p.0, p.1)};
    }
  }

  /** There are never more stored keys than undelivered messages. */
  lemma StoredBounded(h: History, who: nat, s: int, nr: nat, es: seq<Skipped>)
    requires |h.keys| == |h.chains| + 1 && StoredOk(h, who, s, nr, es)
    ensures |es| <= |Undelivered(h, who)|
  {
    var u := Undelivered(h, who);
    var f := set p | p in u :: Entry(h, p.0, p.1);
    forall e | e in es
      ensures e in f
    {
      assert IsPendingEntry(h, who, s, nr, e);
      var k: nat, n: nat :| Pending(h, who, s, nr, k, n) && e == Entry(h, k, n);
      assert (k, n) in u;
    }
    NoDupBounded(es, f);
    ImageBounded(h, u);
  }
}
