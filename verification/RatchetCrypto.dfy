/**
 The cryptography of the Double Ratchet layer, symbolically: Diffie-Hellman commutes, the key
 derivations are injective constructors, and an AEAD opens under its own key and header only.
 */
module RatchetCrypto {
  import opened Prelude

  /** An X25519 private key, by its 32 raw bytes. */
  datatype Priv = Priv(raw: Bytes)

  /** An X25519 public key: of some private key, or a low-order point, on which every ECDH fails. */
  datatype Pub = PubOf(priv: Priv) | LowOrder(raw: Bytes)

  datatype Shared = Shared(parties: set<Priv>)

  function DH(a: Priv, p: Pub): Option<Shared> {
    match p
    case PubOf(b) => Some(Shared({a, b}))
    case LowOrder(_) => None
  }

  /** Roles, node ids, public keys and session id of one handshake, initiator first. */
  datatype Transcript = Transcript(initiator: PeerId, responder: PeerId,
                                   ikI: Pub, ikR: Pub, ephI: Pub, ephR: Pub, sid: Bytes)

  /** Unset is the all-zero value a chain key field holds before its chain is opened. */
  datatype Key =
    | Unset
    | RootSK(dh1: Shared, dh2: Shared, dh3: Shared, transcript: Transcript)
    | NextRoot(rk: Key, dh: Shared)
    | FirstChain(rk: Key, dh: Shared)
    | NextChain(ck: Key)
    | MsgKey(ck: Key)

  /** The authenticated header: session binding, ratchet key, previous chain length, number. */
  datatype Aad = Aad(ad: Transcript, dh: Pub, pn: nat, n: nat)

  datatype Ciphertext = Sealed(mk: Key, aad: Aad, plain: Bytes) | Junk(raw: Bytes)

  function Open(mk: Key, ct: Ciphertext, aad: Aad): Option<Bytes> {
    if ct.Sealed? && ct.mk == mk && ct.aad == aad then Some(ct.plain) else None
  }

  /** The chain key n steps after ck. */
  function Advance(ck: Key, n: nat): Key {
    if n == 0 then ck else NextChain(Advance(ck, n - 1))
  }

  /** The secret from which a key is derived. */
  function Origin(k: Key): Key {
    match k
    case Unset => k
    case RootSK(_, _, _, _) => k
    case NextRoot(rk, _) => Origin(rk)
    case FirstChain(rk, _) => Origin(rk)
    case NextChain(ck) => Origin(ck)
    case MsgKey(ck) => Origin(ck)
  }

  /** How many root steps lie between a root key and its handshake secret. */
  function RootDepth(k: Key): nat {
    if k.NextRoot? then 1 + RootDepth(k.rk) else 0
  }

  lemma DHCommutes(a: Priv, b: Priv)
    ensures DH(a, PubOf(b)) == DH(b, PubOf(a))
  {
    assert {a, b} == {b, a};
  }

  lemma {:induction false} AdvanceStep(ck: Key, n: nat)
    ensures Advance(NextChain(ck), n) == Advance(ck, n + 1)
  {
    if n > 0 {
      AdvanceStep(ck, n - 1);
    }
  }

  lemma {:induction false} AdvanceAdd(ck: Key, m: nat, n: nat)
    ensures Advance(Advance(ck, m), n) == Advance(ck, m + n)
  {
    if n > 0 {
      AdvanceAdd(ck, m, n - 1);
    }
  }

  lemma {:induction false} AdvanceOrigin(ck: Key, n: nat)
    ensures Origin(Advance(ck, n)) == Origin(ck)
  {
    if n > 0 {
      AdvanceOrigin(ck, n - 1);
    }
  }

  /** Positions of one chain, and different chains, never share a key. */
  lemma {:induction false} AdvanceInjective(c1: Key, n1: nat, c2: Key, n2: nat)
    requires c1.FirstChain? && c2.FirstChain?
    requires Advance(c1, n1) == Advance(c2, n2)
    ensures c1 == c2 && n1 == n2
  {
    if n1 > 0 && n2 > 0 {
      AdvanceInjective(c1, n1 - 1, c2, n2 - 1);
    }
  }
}
