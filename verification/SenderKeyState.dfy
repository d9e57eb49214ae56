/** The sender and receiver objects of a group chain, updated in place. */
module SenderKeyState {
  import opened Prelude
  import opened SenderKey

  class Sender {
    const kdf: Kdf
    var generation: nat
    var ck: Key32
    var n: nat
    var signPub: Key32

    function View(): SenderV
      reads this
    {
      SenderV(generation, ck, n, signPub)
    }

    constructor (kdf: Kdf, v: SenderV)
      ensures View() == v && this.kdf == kdf
    {
      this.kdf := kdf;
      generation, ck, n, signPub := v.generation, v.ck, v.n, v.signPub;
    }

    /** The current point of the chain, for others to read from here on. */
    method CurrentDist() returns (d: Dist)
      ensures d == DistOf(View())
    {
      d := Dist(generation, ck, n, signPub);
    }

    method Encrypt(gid: Bytes, plain: Bytes) returns (m: Message)
      modifies this`ck, this`n
      ensures (m, View()) == EncryptV(kdf, old(View()), gid, plain)
    {
      var mk, next := kdf.mk(ck), kdf.next(ck);
      var ct := Sealed(mk, gid, n, plain);
      m := Message(gid, generation, n, ct, Signature(signPub, gid, generation, n, ct));
      ck := next;
      n := (n + 1) % U32;
    }
  }

  function Store(es: seq<SkippedKey>, e: SkippedKey): seq<SkippedKey> {
    if |es| < MAX_SKIP then es + [e] else (es + [e])[1..]
  }

  lemma LastNStep(t: seq<SkippedKey>, e: SkippedKey)
    ensures LastN(t + [e], MAX_SKIP) == Store(LastN(t, MAX_SKIP), e)
  {
  }

  lemma StoreStep(kdf: Kdf, es: seq<SkippedKey>, ck: Key32, n: nat, count: nat)
    ensures LastN(es + Gap(kdf, ck, n, count + 1), MAX_SKIP)
         == Store(LastN(es + Gap(kdf, ck, n, count), MAX_SKIP), SkippedKey(n + count, kdf.mk(Chain(kdf, ck, count))))
  {
    var e := SkippedKey(n + count, kdf.mk(Chain(kdf, ck, count)));
    var t := es + Gap(kdf, ck, n, count);
    assert es + Gap(kdf, ck, n, count + 1) == t + [e];
    LastNStep(t, e);
  }

  class Receiver {
    const kdf: Kdf
    var generation: nat
    var ck: Key32
    var n: nat
    var signPub: Key32
    var skipped: seq<SkippedKey>

    function View(): ReceiverV
      reads this
    {
      ReceiverV(generation, ck, n, signPub, skipped)
    }

    constructor (kdf: Kdf, v: ReceiverV)
      ensures View() == v && this.kdf == kdf
    {
      this.kdf := kdf;
      generation, ck, n, signPub, skipped := v.generation, v.ck, v.n, v.signPub, v.skipped;
    }

    /** Shares the chain from its current point; stored keys stay here. */
    method CurrentDist() returns (d: Dist)
      ensures ReceiverOf(d) == View().(skipped := [])
    {
      d := Dist(generation, ck, n, signPub);
    }

    method TakeSkipped(number: nat) returns (mk: Option<Key32>)
      modifies this`skipped
      ensures var i := FindSkipped(old(skipped), number);
        if i < |old(skipped)| then
          mk == Some(old(skipped)[i].mk) && skipped == RemoveAt(old(skipped), i)
        else
          mk == None && skipped == old(skipped)
    {
      for i := 0 to |skipped|
        invariant skipped == old(skipped)
        invariant forall j :: 0 <= j < i ==> skipped[j].n != number
      {
        if skipped[i].n == number {
          mk := Some(skipped[i].mk);
          skipped := RemoveAt(skipped, i);
          return;
        }
      }
      mk := None;
    }

    /** Stores one key, evicting the oldest beyond MAX_SKIP. */
    method StoreKey(e: SkippedKey)
      requires |skipped| <= MAX_SKIP
      modifies this`skipped
      ensures skipped == Store(old(skipped), e)
    {
      skipped := skipped + [e];
      if |skipped| > MAX_SKIP {
        skipped := skipped[1..];
      }
    }

    /** Stores the keys of the positions up to number. */
    method SkipTo(number: nat)
      requires |skipped| <= MAX_SKIP && n <= number
      modifies this`skipped, this`ck, this`n
      ensures ck == Chain(kdf, old(ck), number - old(n)) && n == number
      ensures skipped == LastN(old(skipped) + Gap(kdf, old(ck), old(n), number - old(n)), MAX_SKIP)
    {
      ghost var ck0, n0, old', count := ck, n, skipped, 0;
      assert old' + Gap(kdf, ck0, n0, 0) == old';
      assert LastN(old', MAX_SKIP) == old';
      hide Gap, LastN;
      while n < number
        invariant n == n0 + count <= number
        invariant ck == Chain(kdf, ck0, count)
        invariant skipped == LastN(old' + Gap(kdf, ck0, n0, count), MAX_SKIP)
        invariant |skipped| <= MAX_SKIP
      {
        StoreStep(kdf, old', ck0, n0, count);
        StoreKey(SkippedKey(n, kdf.mk(ck)));
        ck := kdf.next(ck);
        n := n + 1;
        count := count + 1;
      }
    }

    /** After an error the object is spoilt and must be thrown away. */
    method Decrypt(m: Message) returns (r: Result<Bytes, Error>)
      requires |skipped| <= MAX_SKIP
      modifies this
      ensures match DecryptV(kdf, old(View()), m)
              case Err(e) => r == Err(e)
              case Ok((plain, v)) => r == Ok(plain) && View() == v
    {
      hide Gap, LastN, Chain;
      if m.generation > generation {
        return Err(FutureKey);
      }
      if m.generation < generation {
        return Err(OldMessage);
      }
      if !Verify(signPub, m.gid, m.generation, m.n, m.ct, m.sig) {
        return Err(BadSignature);
      }
      if m.n < n {
        var mk := TakeSkipped(m.n);
        if mk.None? {
          return Err(OldMessage);
        }
        var plain := Open(mk.value, m.gid, m.n, m.ct);
        return if plain.Some? then Ok(plain.value) else Err(DecryptFailed);
      }
      if m.n - n > MAX_SKIP {
        return Err(TooManySkipped);
      }
      SkipTo(m.n);
      var plain := Open(kdf.mk(ck), m.gid, m.n, m.ct);
      if plain.None? {
        return Err(DecryptFailed);
      }
      ck := kdf.next(ck);
      n := (n + 1) % U32;
      r := Ok(plain.value);
    }
  }
}
