/** The Double Ratchet state object, updated in place, against the functions of Ratchet. */
module RatchetState {
  import opened Prelude
  import opened RatchetCrypto
  import opened Ratchet

  /** One key more is stored, and the oldest goes when there are too many. */
  function Store(es: seq<Skipped>, e: Skipped): seq<Skipped> {
    if |es| < MAX_SKIP then es + [e] else (es + [e])[1..]
  }

  lemma StoreStep(es: seq<Skipped>, dh: Pub, ck: Key, nr: nat, count: nat)
    ensures LastN(es + ChainEntries(dh, ck, nr, count + 1), MAX_SKIP)
         == Store(LastN(es + ChainEntries(dh, ck, nr, count), MAX_SKIP),
                  Skipped(dh, nr + count, MsgKey(Advance(ck, count))))
  {
    var e := Skipped(dh, nr + count, MsgKey(Advance(ck, count)));
    var t := es + ChainEntries(dh, ck, nr, count);
    assert es + ChainEntries(dh, ck, nr, count + 1) == t + [e];
    LastNStep(t, e);
  }

  lemma LastNStep(t: seq<Skipped>, e: Skipped)
    ensures LastN(t + [e], MAX_SKIP) == Store(LastN(t, MAX_SKIP), e)
  {
  }

  lemma PreparedWellFormed(v: StateV, drawn: Priv, m: Message)
    requires WellFormed(v)
    ensures !v.hasCKr ==> SkipToV(v, m.pn) == Ok(v)
    ensures SkipToV(v, m.pn).Ok? ==>
      var r := DhRatchetV(SkipToV(v, m.pn).value, drawn, m.dh);
      WellFormed(SkipToV(v, m.pn).value) && (r.Ok? ==> WellFormed(r.value))
  {
  }

  lemma PrepareKeepsAd(v: StateV, drawn: Priv, m: Message)
    requires WellFormed(v)
    ensures PrepareV(v, drawn, m).Ok? ==> PrepareV(v, drawn, m).value.ad == v.ad
  {
  }

  class State {
    var rk: Key
    var dhs: Priv
    var dhr: Option<Pub>
    var cks: Key
    var ckr: Key
    var hasCKs: bool
    var hasCKr: bool
    var ns: nat
    var nr: nat
    var pn: nat
    var ad: Transcript
    var skipped: seq<Skipped>

    function View(): StateV
      reads this
    {
      StateV(rk, dhs, dhr, cks, ckr, hasCKs, hasCKr, ns, nr, pn, ad, skipped)
    }

    /** The state as loaded from the store. */
    constructor (v: StateV)
      ensures View() == v
    {
      rk, dhs, dhr := v.rk, v.dhs, v.dhr;
      cks, ckr, hasCKs, hasCKr := v.cks, v.ckr, v.hasCKs, v.hasCKr;
      ns, nr, pn, ad, skipped := v.ns, v.nr, v.pn, v.ad, v.skipped;
    }

    method CanSend() returns (r: bool)
      ensures r == View().hasCKs
    {
      r := hasCKs;
    }

    method Encrypt(plain: Bytes) returns (r: Result<Message, Error>)
      modifies this
      ensures match EncryptV(old(View()), plain)
              case Err(e) => r == Err(e) && View() == old(View())
              case Ok((m, v)) => r == Ok(m) && View() == v
    {
      if !hasCKs {
        return Err(NoSendingChain);
      }
      var mk := MsgKey(cks);
      cks := NextChain(cks);
      var dh := PubOf(dhs);
      r := Ok(Message(dh, pn, ns, Sealed(mk, Aad(ad, dh, pn, ns), plain)));
      ns := (ns + 1) % U32;
    }

    /** Looks the stored key up and removes it. */
    method TakeSkipped(dh: Pub, n: nat) returns (mk: Option<Key>)
      modifies this`skipped
      ensures var i := FindSkipped(old(skipped), dh, n);
        if i < |old(skipped)| then
          mk == Some(old(skipped)[i].mk) && skipped == RemoveAt(old(skipped), i)
        else
          mk == None && skipped == old(skipped)
    {
      for i := 0 to |skipped|
        invariant skipped == old(skipped)
        invariant forall j :: 0 <= j < i ==> !(skipped[j].dh == dh && skipped[j].n == n)
      {
        if skipped[i].dh == dh && skipped[i].n == n {
          mk := Some(skipped[i].mk);
          skipped := RemoveAt(skipped, i);
          return;
        }
      }
      mk := None;
    }

    /** Stores one key, evicting the oldest beyond MAX_SKIP. */
    method StoreKey(e: Skipped)
      requires |skipped| <= MAX_SKIP
      modifies this`skipped
      ensures skipped == Store(old(skipped), e)
    {
      skipped := skipped + [e];
      if |skipped| > MAX_SKIP {
        skipped := skipped[1..];
      }
    }

    /** The loop of SkipTo: one key a round, up to position until. */
    method DeriveKeys(until: nat)
      requires dhr.Some? && |skipped| <= MAX_SKIP && nr <= until
      modifies this`skipped, this`ckr, this`nr
      ensures ckr == Advance(old(ckr), until - old(nr)) && nr == until
      ensures skipped ==
                LastN(old(skipped) + ChainEntries(dhr.value, old(ckr), old(nr), until - old(nr)), MAX_SKIP)
    {
      var dh := dhr.value;
      ghost var ck0, nr0, old' := ckr, nr, skipped;
      assert old' + ChainEntries(dh, ck0, nr0, 0) == old';
      assert LastN(old', MAX_SKIP) == old';
      hide ChainEntries, LastN;
      ghost var count := 0;
      while nr < until
        invariant nr == nr0 + count <= until
        invariant ckr == Advance(ck0, count)
        invariant skipped == LastN(old' + ChainEntries(dh, ck0, nr0, count), MAX_SKIP)
        invariant |skipped| <= MAX_SKIP
      {
        StoreStep(old', dh, ck0, nr0, count);
        StoreKey(Skipped(dh, nr, MsgKey(ckr)));
        ckr := NextChain(ckr);
        nr := nr + 1;
        count := count + 1;
      }
    }

    /** Advances the receiving chain to position until; at most MAX_SKIP keys are derived. */
    method SkipTo(until: nat) returns (failure: Option<Error>)
      requires WellFormed(View())
      modifies this`skipped, this`ckr, this`nr
      ensures match SkipToV(old(View()), until)
              case Err(e) => failure == Some(e) && View() == old(View())
              case Ok(v) => failure == None && View() == v
      ensures nr - old(nr) <= MAX_SKIP
    {
      hide ChainEntries, LastN, Advance;
      if !hasCKr {
        return None;
      }
      if until > nr && until - nr > MAX_SKIP {
        return Some(TooManySkipped);
      }
      if nr < until {
        DeriveKeys(until);
      }
      failure := None;
    }

    /** The receiving half: the sending chain is closed and a receiving chain opened. */
    method OpenReceiving(p: Pub) returns (failure: Option<Error>)
      modifies this
      ensures var v := old(View());
        match DH(v.dhs, p)
        case None => failure == Some(Malformed) && dhs == v.dhs
        case Some(recv) =>
          && failure == None
          && View() == v.(pn := v.ns, ns := 0, nr := 0, dhr := Some(p), rk := NextRoot(v.rk, recv),
                          ckr := FirstChain(v.rk, recv), hasCKr := true)
    {
      hide DH;
      pn := ns;
      ns, nr := 0, 0;
      dhr := Some(p);
      var dhOut := DH(dhs, p);
      if dhOut.None? {
        return Some(Malformed);
      }
      rk, ckr := NextRoot(rk, dhOut.value), FirstChain(rk, dhOut.value);
      hasCKr := true;
      failure := None;
    }

    /** Closes the sending chain and opens fresh receiving and sending chains. */
    method DhRatchet(drawn: Priv, p: Pub) returns (failure: Option<Error>)
      modifies this
      ensures match DhRatchetV(old(View()), drawn, p)
              case Err(e) => failure == Some(e)
              case Ok(v) => failure == None && View() == v
    {
      hide DH;
      ghost var v := View();
      failure := OpenReceiving(p);
      if failure.Some? {
        return;
      }
      dhs := drawn;
      var dhOut := DH(dhs, p);
      if dhOut.None? {
        return Some(Malformed);
      }
      rk, cks := NextRoot(rk, dhOut.value), FirstChain(rk, dhOut.value);
      hasCKs := true;
    }

    /** Turns the DH ratchet when the key is new and skips to the message's position. */
    method Prepare(drawn: Priv, m: Message) returns (failure: Option<Error>)
      requires WellFormed(View())
      modifies this
      ensures match PrepareV(old(View()), drawn, m)
              case Err(e) => failure == Some(e)
              case Ok(v) => failure == None && View() == v
    {
      PreparedWellFormed(View(), drawn, m);
      hide SkipToV, DhRatchetV;
      if dhr != Some(m.dh) {
        if hasCKr {
          failure := SkipTo(m.pn);
          if failure.Some? {
            return;
          }
        }
        failure := DhRatchet(drawn, m.dh);
        if failure.Some? {
          return;
        }
      }
      failure := SkipTo(m.n);
    }

    /** After an error the object is spoilt and must be thrown away. */
    method Decrypt(drawn: Priv, m: Message) returns (r: Result<Bytes, Error>)
      requires WellFormed(View())
      modifies this
      ensures match DecryptV(old(View()), drawn, m)
              case Err(e) => r == Err(e)
              case Ok((plain, v)) => r == Ok(plain) && View() == v
    {
      hide PrepareV, WellFormed;
      var aad := Aad(ad, m.dh, m.pn, m.n);
      var stored := TakeSkipped(m.dh, m.n);
      if stored.Some? {
        var plain := Open(stored.value, m.ct, aad);
        return if plain.Some? then Ok(plain.value) else Err(DecryptFailed);
      }
      var failure := Prepare(drawn, m);
      if failure.Some? {
        return Err(failure.value);
      }
      assert ad == old(ad) by {
        PrepareKeepsAd(old(View()), drawn, m);
      }
      var plain := Open(MsgKey(ckr), m.ct, aad);
      if plain.None? {
        return Err(DecryptFailed);
      }
      ckr := NextChain(ckr);
      nr := (nr + 1) % U32;
      r := Ok(plain.value);
    }
  }
}
