/**
 Group sender keys: one forward-only chain per member, signed messages, and receivers that
 store the keys of skipped messages. The chain is any pair of key derivations.
 */
module SenderKey {
  import opened Prelude

  const MAX_SKIP: nat := 512

  type Key32 = b: Bytes | |b| == 32 witness seq(32, _ => 0)

  /** Message key and next chain key of a chain key. */
  datatype Kdf = Kdf(mk: Key32 -> Key32, next: Key32 -> Key32)

  datatype Error = DecryptFailed | BadSignature | TooManySkipped | OldMessage | FutureKey | Malformed

  datatype Ciphertext = Sealed(mk: Key32, gid: Bytes, n: nat, plain: Bytes) | Junk(raw: Bytes)

  /** An Ed25519 signature, by its signer's public key and the transcript under it. */
  datatype Signature = Signature(signer: Key32, gid: Bytes, generation: nat, n: nat, ct: Ciphertext)

  datatype Message = Message(gid: Bytes, generation: nat, n: nat, ct: Ciphertext, sig: Signature)

  datatype Dist = Dist(generation: nat, ck: Key32, n: nat, signPub: Key32)

  datatype SenderV = SenderV(generation: nat, ck: Key32, n: nat, signPub: Key32)

  datatype SkippedKey = SkippedKey(n: nat, mk: Key32)

  datatype ReceiverV = ReceiverV(generation: nat, ck: Key32, n: nat, signPub: Key32, skipped: seq<SkippedKey>)

  function Open(mk: Key32, gid: Bytes, n: nat, ct: Ciphertext): Option<Bytes> {
    if ct.Sealed? && ct.mk == mk && ct.gid == gid && ct.n == n then Some(ct.plain) else None
  }

  function Verify(signPub: Key32, gid: Bytes, generation: nat, n: nat, ct: Ciphertext, sig: Signature): bool {
    sig == Signature(signPub, gid, generation, n, ct)
  }

  /** The chain key n steps after ck. */
  function Chain(kdf: Kdf, ck: Key32, n: nat): Key32 {
    if n == 0 then ck else kdf.next(Chain(kdf, ck, n - 1))
  }

  function DistOf(s: SenderV): Dist {
    Dist(s.generation, s.ck, s.n, s.signPub)
  }

  function ReceiverOf(d: Dist): ReceiverV {
    ReceiverV(d.generation, d.ck, d.n, d.signPub, [])
  }

  function EncryptV(kdf: Kdf, s: SenderV, gid: Bytes, plain: Bytes): (Message, SenderV) {
    var ct := Sealed(kdf.mk(s.ck), gid, s.n, plain);
    (Message(gid, s.generation, s.n, ct, Signature(s.signPub, gid, s.generation, s.n, ct)),
     s.(ck := kdf.next(s.ck), n := (s.n + 1) % U32))
  }

  function FindSkipped(es: seq<SkippedKey>, n: nat): (i: nat)
    ensures i <= |es|
    ensures forall j :: 0 <= j < i ==> es[j].n != n
    ensures i < |es| ==> es[i].n == n
  {
    if es == [] || es[0].n == n then 0 else 1 + FindSkipped(es[1..], n)
  }

  /** The keys of positions n, n + 1, ... of the chain whose key at n is ck. */
  function Gap(kdf: Kdf, ck: Key32, n: nat, count: nat): (es: seq<SkippedKey>)
    ensures |es| == count
    ensures forall i :: 0 <= i < count ==> es[i] == SkippedKey(n + i, kdf.mk(Chain(kdf, ck, i)))
  {
    if count == 0 then []
    else Gap(kdf, ck, n, count - 1) + [SkippedKey(n + count - 1, kdf.mk(Chain(kdf, ck, count - 1)))]
  }

  /** The receiver gone past position i, the keys in between stored, the oldest evicted. */
  function Moved(kdf: Kdf, r: ReceiverV, i: nat): ReceiverV
    requires r.n <= i
  {
    var stored := LastN(r.skipped + Gap(kdf, r.ck, r.n, i - r.n), MAX_SKIP);
    r.(ck := kdf.next(Chain(kdf, r.ck, i - r.n)), n := (i + 1) % U32, skipped := stored)
  }

  function DecryptV(kdf: Kdf, r: ReceiverV, m: Message): Result<(Bytes, ReceiverV), Error> {
    if m.generation > r.generation then Err(FutureKey)
    else if m.generation < r.generation then Err(OldMessage)
    else if !Verify(r.signPub, m.gid, m.generation, m.n, m.ct, m.sig) then Err(BadSignature)
    else if m.n < r.n then
      var i := FindSkipped(r.skipped, m.n);
      if i == |r.skipped| then Err(OldMessage)
      else
        match Open(r.skipped[i].mk, m.gid, m.n, m.ct)
        case None => Err(DecryptFailed)
        case Some(plain) => Ok((plain, r.(skipped := RemoveAt(r.skipped, i))))
    else if m.n - r.n > MAX_SKIP then Err(TooManySkipped)
    else
      var ck := Chain(kdf, r.ck, m.n - r.n);
      match Open(kdf.mk(ck), m.gid, m.n, m.ct)
      case None => Err(DecryptFailed)
      case Some(plain) => Ok((plain, Moved(kdf, r, m.n)))
  }

  // ----- one sender, one receiver -----

  /** The sender after encrypting the plaintexts in order. */
  function After(kdf: Kdf, s: SenderV, gid: Bytes, plains: seq<Bytes>): SenderV {
    if plains == [] then s
    else EncryptV(kdf, After(kdf, s, gid, plains[..|plains| - 1]), gid, plains[|plains| - 1]).1
  }

  /** The message that carries plaintext i of the sequence. */
  function Output(kdf: Kdf, s: SenderV, gid: Bytes, plains: seq<Bytes>, i: nat): Message
    requires i < |plains|
  {
    EncryptV(kdf, After(kdf, s, gid, plains[..i]), gid, plains[i]).0
  }

  lemma {:induction false} AfterIs(kdf: Kdf, s: SenderV, gid: Bytes, plains: seq<Bytes>)
    requires s.n + |plains| < U32
    ensures After(kdf, s, gid, plains) == s.(ck := Chain(kdf, s.ck, |plains|), n := s.n + |plains|)
  {
    if plains != [] {
      AfterIs(kdf, s, gid, plains[..|plains| - 1]);
    }
  }

  lemma {:induction false} ChainAdd(kdf: Kdf, ck: Key32, m: nat, n: nat)
    ensures Chain(kdf, Chain(kdf, ck, m), n) == Chain(kdf, ck, m + n)
  {
    if n > 0 {
      ChainAdd(kdf, ck, m, n - 1);
    }
  }

  /** Key number i of a chain whose key number 0 is ck0. */
  function KeyAt(kdf: Kdf, ck0: Key32, i: nat): Key32 {
    kdf.mk(Chain(kdf, ck0, i))
  }

  predicate Before(es: seq<SkippedKey>, i: int, j: int) {
    0 <= i < j < |es| ==> es[i].n < es[j].n
  }

  ghost predicate Increasing(es: seq<SkippedKey>) {
    forall i, j :: Before(es, i, j)
  }

  /** e is the chain's key of a position from k on, below n, that was not read. */
  predicate GoodKey(kdf: Kdf, ck0: Key32, k: nat, n: nat, read: set<nat>, e: SkippedKey) {
    k <= e.n < n && e.n !in read && e.mk == KeyAt(kdf, ck0, e.n)
  }

  predicate Kept(kdf: Kdf, ck0: Key32, es: seq<SkippedKey>, i: nat) {
    SkippedKey(i, KeyAt(kdf, ck0, i)) in es
  }

  /**
   The receiver r of the chain (s0, ck0), given the key at position k, that has read the positions
   in read: its live key is the chain's, its stored keys are the chain's keys of unread positions,
   in strictly increasing order and below n.
   */
  ghost predicate Reads(kdf: Kdf, s0: SenderV, k: nat, r: ReceiverV, read: set<nat>) {
    && s0.n == 0 && k <= r.n < U32
    && r.generation == s0.generation && r.signPub == s0.signPub
    && r.ck == Chain(kdf, s0.ck, r.n)
    && |r.skipped| <= MAX_SKIP
    && Increasing(r.skipped)
    && (forall e :: e in r.skipped ==> GoodKey(kdf, s0.ck, k, r.n, read, e))
    && (forall i :: i in read ==> k <= i < r.n)
  }

  /** No unread position has lost its key. */
  ghost predicate KeepsAll(kdf: Kdf, s0: SenderV, k: nat, r: ReceiverV, read: set<nat>) {
    forall i: nat :: k <= i < r.n && i !in read ==> Kept(kdf, s0.ck, r.skipped, i)
  }

  /** Positions from k on below top that were not read. */
  function Unread(k: nat, top: nat, read: set<nat>): set<nat> {
    set i: nat | k <= i < top && i !in read
  }

  lemma FindByNumber(es: seq<SkippedKey>, e: SkippedKey)
    requires e in es && Increasing(es)
    ensures FindSkipped(es, e.n) < |es| && es[FindSkipped(es, e.n)] == e
  {
    var j :| 0 <= j < |es| && es[j] == e;
    var i := FindSkipped(es, e.n);
    assert Before(es, i, j) && Before(es, j, i);
  }

  lemma GapReads(kdf: Kdf, s0: SenderV, k: nat, r: ReceiverV, read: set<nat>, count: nat)
    requires Reads(kdf, s0, k, r, read)
    ensures var all := r.skipped + Gap(kdf, r.ck, r.n, count);
      && Increasing(all)
      && forall e :: e in all ==> GoodKey(kdf, s0.ck, k, r.n + count, read, e)
  {
    var gap := Gap(kdf, r.ck, r.n, count);
    forall i | 0 <= i < count
      ensures GoodKey(kdf, s0.ck, k, r.n + count, read, gap[i])
    {
      ChainAdd(kdf, s0.ck, r.n, i);
    }
    var all := r.skipped + gap;
    forall e | e in all
      ensures GoodKey(kdf, s0.ck, k, r.n + count, read, e)
    {
      if e in r.skipped {
        assert GoodKey(kdf, s0.ck, k, r.n, read, e);
      }
    }
    forall i, j
      ensures Before(all, i, j)
    {
      assert Before(r.skipped, i, j);
      if 0 <= i < |r.skipped| {
        assert GoodKey(kdf, s0.ck, k, r.n, read, r.skipped[i]);
      }
    }
  }

  /** The number part of an increasing list is duplicate free. */
  lemma IncreasingBounded(es: seq<SkippedKey>, xs: set<nat>)
    requires Increasing(es) && forall e :: e in es ==> e.n in xs
    ensures |es| <= |xs|
  {
    var ns := seq(|es|, i requires 0 <= i < |es| => es[i].n);
    forall i, j
      ensures Apart(ns, i, j)
    {
      assert Before(es, i, j);
    }
    forall n | n in ns
      ensures n in xs
    {
      var i :| 0 <= i < |ns| && ns[i] == n;
      assert es[i] in es;
    }
    NoDupBounded(ns, xs);
  }

  /** Message i of the sender: number i, under key i of its chain, signed. */
  lemma OutputIs(kdf: Kdf, s0: SenderV, gid: Bytes, plains: seq<Bytes>, i: nat)
    requires s0.n == 0 && i < |plains| < U32
    ensures Output(kdf, s0, gid, plains, i) ==
              (var ct := Sealed(KeyAt(kdf, s0.ck, i), gid, i, plains[i]);
               Message(gid, s0.generation, i, ct, Signature(s0.signPub, gid, s0.generation, i, ct)))
  {
    AfterIs(kdf, s0, gid, plains[..i]);
  }

  /** The owner's signing key signed nothing but the owner's messages. */
  ghost predicate Unforged(kdf: Kdf, s0: SenderV, gid: Bytes, plains: seq<Bytes>, m: Message) {
    m.sig.signer == s0.signPub ==> exists i :: 0 <= i < |plains| && m.sig == Output(kdf, s0, gid, plains, i).sig
  }

  /** One of the owner's messages, unaltered. */
  predicate Genuine(kdf: Kdf, s0: SenderV, gid: Bytes, plains: seq<Bytes>, m: Message) {
    m.n < |plains| && m == Output(kdf, s0, gid, plains, m.n)
  }

  /** Whatever is accepted is, in every part, one of the owner's messages. */
  lemma AcceptedIsGenuine(kdf: Kdf, s0: SenderV, gid: Bytes, plains: seq<Bytes>, r: ReceiverV, m: Message)
    requires s0.n == 0 && |plains| < U32 && r.signPub == s0.signPub && Unforged(kdf, s0, gid, plains, m)
    requires DecryptV(kdf, r, m).Ok?
    ensures Genuine(kdf, s0, gid, plains, m)
  {
    var i :| 0 <= i < |plains| && m.sig == Output(kdf, s0, gid, plains, i).sig;
    OutputIs(kdf, s0, gid, plains, i);
  }

  lemma TakeKeeps(es: seq<SkippedKey>, x: nat)
    requires Increasing(es) && x < |es|
    ensures Increasing(RemoveAt(es, x))
    ensures forall e :: e in RemoveAt(es, x) <==> e in es && e.n != es[x].n
  {
    var rest := RemoveAt(es, x);
    forall i, j
      ensures Before(rest, i, j)
    {
      assert Before(es, if i < x then i else i + 1, if j < x then j else j + 1);
    }
    forall e | e in rest
      ensures e in es && e.n != es[x].n
    {
      var y :| 0 <= y < |rest| && rest[y] == e;
      assert Before(es, y, x) && Before(es, x, y + 1);
    }
    forall e | e in es && e.n != es[x].n
      ensures e in rest
    {
      var y :| 0 <= y < |es| && es[y] == e;
      assert rest[if y < x then y else y - 1] == e;
    }
  }

  lemma SuffixKeeps(es: seq<SkippedKey>, n: nat)
    requires Increasing(es)
    ensures Increasing(LastN(es, n))
    ensures forall e :: e in LastN(es, n) ==> e in es
  {
    var r := LastN(es, n);
    var d := |es| - |r|;
    forall i, j
      ensures Before(r, i, j)
    {
      assert Before(es, d + i, d + j);
    }
  }

  /** A stored key is used. */
  lemma ReadStored(kdf: Kdf, s0: SenderV, k: nat, r: ReceiverV, read: set<nat>, x: nat)
    requires Reads(kdf, s0, k, r, read) && x < |r.skipped|
    ensures var i := r.skipped[x].n; var r' := r.(skipped := RemoveAt(r.skipped, x));
      && k <= i < r.n && i !in read && r.skipped[x].mk == KeyAt(kdf, s0.ck, i)
      && Reads(kdf, s0, k, r', read + {i})
      && (KeepsAll(kdf, s0, k, r, read) ==> KeepsAll(kdf, s0, k, r', read + {i}))
  {
    assert GoodKey(kdf, s0.ck, k, r.n, read, r.skipped[x]);
    TakeKeeps(r.skipped, x);
    var r' := r.(skipped := RemoveAt(r.skipped, x));
    forall e | e in r'.skipped
      ensures GoodKey(kdf, s0.ck, k, r.n, read + {r.skipped[x].n}, e)
    {
      assert GoodKey(kdf, s0.ck, k, r.n, read, e);
    }
    if KeepsAll(kdf, s0, k, r, read) {
      forall i: nat | k <= i < r.n && i !in read + {r.skipped[x].n}
        ensures Kept(kdf, s0.ck, r'.skipped, i)
      {
        assert Kept(kdf, s0.ck, r.skipped, i);
      }
    }
  }

  lemma StoredAfterGap(kdf: Kdf, s0: SenderV, k: nat, r: ReceiverV, read: set<nat>, i: nat)
    requires Reads(kdf, s0, k, r, read) && r.n <= i
    ensures var stored := LastN(r.skipped + Gap(kdf, r.ck, r.n, i - r.n), MAX_SKIP);
      && |stored| <= MAX_SKIP && Increasing(stored)
      && forall e :: e in stored ==> GoodKey(kdf, s0.ck, k, i + 1, read + {i}, e)
  {
    var all := r.skipped + Gap(kdf, r.ck, r.n, i - r.n);
    GapReads(kdf, s0, k, r, read, i - r.n);
    hide Gap, Reads, Increasing;
    SuffixKeeps(all, MAX_SKIP);
    var stored := LastN(all, MAX_SKIP);
    forall e | e in stored
      ensures GoodKey(kdf, s0.ck, k, i + 1, read + {i}, e)
    {
      assert GoodKey(kdf, s0.ck, k, i, read, e);
    }
  }

  /** The live chain is moved to position i, which is read. */
  lemma ReadLive(kdf: Kdf, s0: SenderV, k: nat, r: ReceiverV, read: set<nat>, i: nat)
    requires Reads(kdf, s0, k, r, read) && r.n <= i < U32 - 1
    ensures i !in read && kdf.mk(Chain(kdf, r.ck, i - r.n)) == KeyAt(kdf, s0.ck, i)
    ensures Reads(kdf, s0, k, Moved(kdf, r, i), read + {i})
  {
    hide Gap, LastN, Increasing;
    StoredAfterGap(kdf, s0, k, r, read, i);
    ChainAdd(kdf, s0.ck, r.n, i - r.n);
    assert kdf.next(Chain(kdf, s0.ck, i)) == Chain(kdf, s0.ck, i + 1);
  }

  lemma ReadLiveAll(kdf: Kdf, s0: SenderV, k: nat, r: ReceiverV, read: set<nat>, i: nat)
    requires Reads(kdf, s0, k, r, read) && r.n <= i < U32 - 1
    requires KeepsAll(kdf, s0, k, r, read) && |Unread(k, i, read)| <= MAX_SKIP
    ensures i - r.n <= MAX_SKIP && KeepsAll(kdf, s0, k, Moved(kdf, r, i), read + {i})
  {
    GapKeepsAll(kdf, s0, k, r, read, i);
    var all := r.skipped + Gap(kdf, r.ck, r.n, i - r.n);
    var r' := Moved(kdf, r, i);
    assert r'.skipped == all;
    forall j: nat | k <= j < r'.n && j !in read + {i}
      ensures Kept(kdf, s0.ck, r'.skipped, j)
    {
      assert Kept(kdf, s0.ck, all, j);
    }
  }

  lemma KeptInGap(kdf: Kdf, ck0: Key32, r: ReceiverV, i: nat, j: nat)
    requires r.n <= i && r.ck == Chain(kdf, ck0, r.n) && j < i && (j < r.n ==> Kept(kdf, ck0, r.skipped, j))
    ensures Kept(kdf, ck0, r.skipped + Gap(kdf, r.ck, r.n, i - r.n), j)
  {
    var all := r.skipped + Gap(kdf, r.ck, r.n, i - r.n);
    if j >= r.n {
      ChainAdd(kdf, ck0, r.n, j - r.n);
      assert all[|r.skipped| + j - r.n] == SkippedKey(j, KeyAt(kdf, ck0, j));
    } else {
      var x :| 0 <= x < |r.skipped| && r.skipped[x] == SkippedKey(j, KeyAt(kdf, ck0, j));
      assert all[x] == r.skipped[x];
    }
  }

  lemma GapKeepsAll(kdf: Kdf, s0: SenderV, k: nat, r: ReceiverV, read: set<nat>, i: nat)
    requires Reads(kdf, s0, k, r, read) && KeepsAll(kdf, s0, k, r, read) && r.n <= i
    requires |Unread(k, i, read)| <= MAX_SKIP
    ensures var all := r.skipped + Gap(kdf, r.ck, r.n, i - r.n);
      && |all| <= MAX_SKIP
      && forall j: nat :: k <= j < i && j !in read ==> Kept(kdf, s0.ck, all, j)
  {
    var all := r.skipped + Gap(kdf, r.ck, r.n, i - r.n);
    GapReads(kdf, s0, k, r, read, i - r.n);
    forall e | e in all
      ensures e.n in Unread(k, i, read)
    {
      assert GoodKey(kdf, s0.ck, k, i, read, e);
    }
    IncreasingBounded(all, Unread(k, i, read));
    forall j: nat | k <= j < i && j !in read
      ensures Kept(kdf, s0.ck, all, j)
    {
      assert j < r.n ==> Kept(kdf, s0.ck, r.skipped, j);
      assert r.ck == Chain(kdf, s0.ck, r.n);
      KeptInGap(kdf, s0.ck, r, i, j);
    }
  }

  /**
   One attempt. Always: acceptance means a position from k on that was not read, the right
   plaintext, and the invariant again.
   */
  lemma AttemptSafe(kdf: Kdf, s0: SenderV, gid: Bytes, plains: seq<Bytes>, k: nat, r: ReceiverV, read: set<nat>, i: nat)
    requires Reads(kdf, s0, k, r, read) && s0.n == 0 && i < |plains| < U32 - 1
    requires DecryptV(kdf, r, Output(kdf, s0, gid, plains, i)).Ok?
    ensures var d := DecryptV(kdf, r, Output(kdf, s0, gid, plains, i)).value;
      k <= i && i !in read && d.0 == plains[i] && Reads(kdf, s0, k, d.1, read + {i})
  {
    hide Reads, Increasing, Moved, RemoveAt;
    OutputIs(kdf, s0, gid, plains, i);
    if i < r.n {
      ReadStored(kdf, s0, k, r, read, FindSkipped(r.skipped, i));
    } else {
      ReadLive(kdf, s0, k, r, read, i);
      KnowsItsPlace(kdf, s0, k, r, read);
    }
  }

  lemma KnowsItsPlace(kdf: Kdf, s0: SenderV, k: nat, r: ReceiverV, read: set<nat>)
    requires Reads(kdf, s0, k, r, read)
    ensures k <= r.n && r.generation == s0.generation && r.signPub == s0.signPub
  {
  }

  /** While at most MAX_SKIP positions before i or n wait, an unread message is accepted, nothing is lost. */
  lemma AttemptLive(kdf: Kdf, s0: SenderV, gid: Bytes, plains: seq<Bytes>, k: nat, r: ReceiverV, read: set<nat>, i: nat)
    requires Reads(kdf, s0, k, r, read) && KeepsAll(kdf, s0, k, r, read) && i < |plains| < U32 - 1
    requires k <= i && i !in read && s0.n == 0
    requires |Unread(k, if i > r.n then i else r.n, read)| <= MAX_SKIP
    ensures var d := DecryptV(kdf, r, Output(kdf, s0, gid, plains, i));
      d.Ok? && KeepsAll(kdf, s0, k, d.value.1, read + {i})
  {
    OutputIs(kdf, s0, gid, plains, i);
    KnowsItsPlace(kdf, s0, k, r, read);
    if i < r.n {
      assert Kept(kdf, s0.ck, r.skipped, i);
      FindByNumber(r.skipped, SkippedKey(i, KeyAt(kdf, s0.ck, i)));
      hide Reads, Increasing, KeepsAll, RemoveAt, Moved;
      ReadStored(kdf, s0, k, r, read, FindSkipped(r.skipped, i));
    } else {
      hide Reads, Increasing, Moved, KeepsAll;
      ReadLive(kdf, s0, k, r, read, i);
      ReadLiveAll(kdf, s0, k, r, read, i);
    }
  }

  // ----- runs: any messages tried in any order, any number of times -----

  datatype Reader = Reader(r: ReceiverV, read: set<nat>)

  function Try(kdf: Kdf, x: Reader, m: Message): Reader {
    match DecryptV(kdf, x.r, m)
    case Err(_) => x
    case Ok((_, r)) => Reader(r, x.read + {m.n})
  }

  /** A try succeeds exactly for the owner's unread messages from k on, with their text. */
  ghost predicate Exact(kdf: Kdf, s0: SenderV, gid: Bytes, plains: seq<Bytes>, k: nat, x: Reader, m: Message) {
    var d := DecryptV(kdf, x.r, m);
    && (d.Ok? <==> Genuine(kdf, s0, gid, plains, m) && k <= m.n && m.n !in x.read)
    && (d.Ok? ==> d.value.0 == plains[m.n])
  }

  predicate FewWaiting(k: nat, x: Reader, i: nat) {
    |Unread(k, if i > x.r.n then i else x.r.n, x.read)| <= MAX_SKIP
  }

  /** Nothing tried is forged, and few positions wait whenever one of the owner's messages is tried. */
  ghost predicate RunFew(kdf: Kdf, s0: SenderV, gid: Bytes, plains: seq<Bytes>, k: nat, x: Reader, tries: seq<Message>)
    decreases |tries|
  {
    tries != [] ==>
      && Unforged(kdf, s0, gid, plains, tries[0])
      && (Genuine(kdf, s0, gid, plains, tries[0]) ==> FewWaiting(k, x, tries[0].n))
      && RunFew(kdf, s0, gid, plains, k, Try(kdf, x, tries[0]), tries[1..])
  }

  ghost predicate RunExact(kdf: Kdf, s0: SenderV, gid: Bytes, plains: seq<Bytes>, k: nat, x: Reader,
                           tries: seq<Message>)
    decreases |tries|
  {
    tries != [] ==>
      && Exact(kdf, s0, gid, plains, k, x, tries[0])
      && RunExact(kdf, s0, gid, plains, k, Try(kdf, x, tries[0]), tries[1..])
  }

  lemma {:induction false} RunIsExact(kdf: Kdf, s0: SenderV, gid: Bytes, plains: seq<Bytes>, k: nat, x: Reader,
                                      tries: seq<Message>)
    requires Reads(kdf, s0, k, x.r, x.read) && KeepsAll(kdf, s0, k, x.r, x.read) && |plains| < U32 - 1
    requires RunFew(kdf, s0, gid, plains, k, x, tries)
    ensures RunExact(kdf, s0, gid, plains, k, x, tries)
    decreases |tries|
  {
    if tries != [] {
      var m := tries[0];
      if DecryptV(kdf, x.r, m).Ok? {
        AcceptedIsGenuine(kdf, s0, gid, plains, x.r, m);
        AttemptSafe(kdf, s0, gid, plains, k, x.r, x.read, m.n);
      }
      if Genuine(kdf, s0, gid, plains, m) && k <= m.n && m.n !in x.read {
        AttemptLive(kdf, s0, gid, plains, k, x.r, x.read, m.n);
      }
      RunIsExact(kdf, s0, gid, plains, k, Try(kdf, x, m), tries[1..]);
    }
  }

  /** A receiver made from the Dist at position k has read nothing and misses nothing. */
  lemma Newcomer(kdf: Kdf, s0: SenderV, gid: Bytes, plains: seq<Bytes>, k: nat)
    requires s0.n == 0 && k <= |plains| < U32 - 1
    ensures var r := ReceiverOf(DistOf(After(kdf, s0, gid, plains[..k])));
      Reads(kdf, s0, k, r, {}) && KeepsAll(kdf, s0, k, r, {})
  {
    AfterIs(kdf, s0, gid, plains[..k]);
  }

  /**
   A receiver made from the Dist at position k, whatever it is given, reads each later message of the
   owner exactly once, in any order, and nothing else: nothing altered, nothing of others and nothing
   from before k.
   */
  lemma NewcomerReads(kdf: Kdf, s0: SenderV, gid: Bytes, plains: seq<Bytes>, k: nat, tries: seq<Message>)
    requires s0.n == 0 && k <= |plains| < U32 - 1
    requires RunFew(kdf, s0, gid, plains, k, Reader(ReceiverOf(DistOf(After(kdf, s0, gid, plains[..k]))), {}), tries)
    ensures RunExact(kdf, s0, gid, plains, k, Reader(ReceiverOf(DistOf(After(kdf, s0, gid, plains[..k]))), {}), tries)
  {
    Newcomer(kdf, s0, gid, plains, k);
    RunIsExact(kdf, s0, gid, plains, k, Reader(ReceiverOf(DistOf(After(kdf, s0, gid, plains[..k]))), {}), tries);
  }
}
