/**
 One session state of the Double Ratchet as a value, with what each operation makes of it.
 The class in RatchetState.dfy updates such a state in place and is proved to agree with
 these functions; RatchetSession.dfy proves what two such states do to each other.
 */
module Ratchet {
  import opened Prelude
  import opened RatchetCrypto

  const MAX_SKIP: nat := 512

  datatype Error = Malformed | DecryptFailed | TooManySkipped | NoSendingChain | SidMismatch

  datatype Message = Message(dh: Pub, pn: nat, n: nat, ct: Ciphertext)

  datatype Skipped = Skipped(dh: Pub, n: nat, mk: Key)

  datatype StateV = StateV(rk: Key, dhs: Priv, dhr: Option<Pub>, cks: Key, ckr: Key,
                           hasCKs: bool, hasCKr: bool, ns: nat, nr: nat, pn: nat, ad: Transcript, skipped: seq<Skipped>)

  /** What every state built by a handshake and advanced by the operations satisfies. */
  predicate WellFormed(s: StateV) {
    && (s.hasCKr ==> s.dhr.Some?)
    && |s.skipped| <= MAX_SKIP
  }

  /** The keys of positions nr, nr + 1, ... of the chain whose key at nr is ck. */
  function ChainEntries(dh: Pub, ck: Key, nr: nat, count: nat): (es: seq<Skipped>)
    ensures |es| == count
    ensures forall i :: 0 <= i < count ==> es[i] == Skipped(dh, nr + i, MsgKey(Advance(ck, i)))
  {
    if count == 0 then []
    else ChainEntries(dh, ck, nr, count - 1) + [Skipped(dh, nr + count - 1, MsgKey(Advance(ck, count - 1)))]
  }

  /** Position of the first stored key for (dh, n), or the list's length. */
  function FindSkipped(es: seq<Skipped>, dh: Pub, n: nat): (i: nat)
    ensures i <= |es|
    ensures forall j :: 0 <= j < i ==> !(es[j].dh == dh && es[j].n == n)
    ensures i < |es| ==> es[i].dh == dh && es[i].n == n
  {
    if es == [] || (es[0].dh == dh && es[0].n == n) then 0 else 1 + FindSkipped(es[1..], dh, n)
  }

  function EncryptV(s: StateV, plain: Bytes): Result<(Message, StateV), Error> {
    if !s.hasCKs then Err(NoSendingChain)
    else
      var dh := PubOf(s.dhs);
      var m := Message(dh, s.pn, s.ns, Sealed(MsgKey(s.cks), Aad(s.ad, dh, s.pn, s.ns), plain));
      Ok((m, s.(cks := NextChain(s.cks), ns := (s.ns + 1) % U32)))
  }

  /** The receiving chain moved on to position until, all keys in between stored, oldest evicted. */
  function SkipToV(s: StateV, until: nat): Result<StateV, Error>
    requires WellFormed(s)
  {
    if !s.hasCKr || until <= s.nr then Ok(s)
    else if until - s.nr > MAX_SKIP then Err(TooManySkipped)
    else
      var gap := ChainEntries(s.dhr.value, s.ckr, s.nr, until - s.nr);
      Ok(s.(skipped := LastN(s.skipped + gap, MAX_SKIP),
            ckr := Advance(s.ckr, until - s.nr), nr := until))
  }

  /** One step of the DH ratchet to the peer's key p, drawn being our next private key. */
  function DhRatchetV(s: StateV, drawn: Priv, p: Pub): Result<StateV, Error> {
    match DH(s.dhs, p)
    case None => Err(Malformed)
    case Some(recv) =>
      var rk := NextRoot(s.rk, recv);
      match DH(drawn, p)
      case None => Err(Malformed)
      case Some(send) =>
        Ok(s.(pn := s.ns, ns := 0, nr := 0, dhr := Some(p), dhs := drawn, rk := NextRoot(rk, send),
              ckr := FirstChain(s.rk, recv), hasCKr := true,
              cks := FirstChain(rk, send), hasCKs := true))
  }

  /** The state in whose receiving chain m is to be read, when no stored key fits m. */
  function PrepareV(s: StateV, drawn: Priv, m: Message): Result<StateV, Error>
    requires WellFormed(s)
  {
    if s.dhr == Some(m.dh) then SkipToV(s, m.n)
    else
      match SkipToV(s, m.pn)
      case Err(e) => Err(e)
      case Ok(closed) =>
        match DhRatchetV(closed, drawn, m.dh)
        case Err(e) => Err(e)
        case Ok(turned) => SkipToV(turned, m.n)
  }

  function DecryptV(s: StateV, drawn: Priv, m: Message): Result<(Bytes, StateV), Error>
    requires WellFormed(s)
  {
    var aad := Aad(s.ad, m.dh, m.pn, m.n);
    var i := FindSkipped(s.skipped, m.dh, m.n);
    if i < |s.skipped| then
      match Open(s.skipped[i].mk, m.ct, aad)
      case None => Err(DecryptFailed)
      case Some(plain) => Ok((plain, s.(skipped := RemoveAt(s.skipped, i))))
    else
      match PrepareV(s, drawn, m)
      case Err(e) => Err(e)
      case Ok(r) =>
        match Open(MsgKey(r.ckr), m.ct, aad)
        case None => Err(DecryptFailed)
        case Some(plain) => Ok((plain, r.(ckr := NextChain(r.ckr), nr := (r.nr + 1) % U32)))
  }

  /** The state stored and read back: a chain that is not open leaves no key behind. */
  function Reloaded(s: StateV): StateV {
    s.(ckr := if s.hasCKr then s.ckr else Unset, cks := if s.hasCKs then s.cks else Unset)
  }

  /** m names the peer's handshake key while no message of the peer has opened a receiving chain. */
  predicate Unopened(s: StateV, m: Message) {
    !s.hasCKr && s.dhr == Some(m.dh)
  }

  /** Decrypt keeps the state storable and never touches the session binding. */
  lemma DecryptKeeps(s: StateV, drawn: Priv, m: Message)
    requires WellFormed(s)
    ensures var r := DecryptV(s, drawn, m); r.Ok? ==> WellFormed(r.value.1) && r.value.1.ad == s.ad
  {
  }
}
