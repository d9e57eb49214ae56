/** The stored form of a receiver, byte by byte. */
module SenderKeyCodec {
  import opened Prelude
  import opened BigEndian
  import opened SenderKey

  const HEADER: nat := 76
  const ENTRY: nat := 36

  function EncodeEntries(es: seq<SkippedKey>): (b: Bytes)
    requires forall e :: e in es ==> e.n < U32
    ensures |b| == ENTRY * |es|
  {
    if es == [] then []
    else EncodeEntries(es[..|es| - 1]) + (Put32(es[|es| - 1].n) + es[|es| - 1].mk)
  }

  function DecodeEntries(b: Bytes, count: nat): (es: seq<SkippedKey>)
    requires |b| >= ENTRY * count
    ensures |es| == count && forall e :: e in es ==> e.n < U32
  {
    if count == 0 then []
    else
      var off := ENTRY * (count - 1);
      DecodeEntries(b, count - 1) + [SkippedKey(Get32(b[off..]), b[off + 4..off + ENTRY])]
  }

  /** What fits the stored form: 32-bit numbers and no more than MAX_SKIP keys. */
  predicate Encodable(r: ReceiverV) {
    r.generation < U32 && r.n < U32 && |r.skipped| <= MAX_SKIP && forall e :: e in r.skipped ==> e.n < U32
  }

  function Header(r: ReceiverV): (b: Bytes)
    requires Encodable(r)
    ensures |b| == HEADER
  {
    Put32(r.generation) + Put32(r.n) + r.ck + r.signPub + Put32(|r.skipped|)
  }

  function Encode(r: ReceiverV): Bytes
    requires Encodable(r)
  {
    Header(r) + EncodeEntries(r.skipped)
  }

  function Decode(b: Bytes): Result<ReceiverV, Error> {
    if |b| < HEADER then Err(Malformed)
    else
      var count := Get32(b[72..]);
      if count > MAX_SKIP || |b| != HEADER + count * ENTRY then Err(Malformed)
      else Ok(ReceiverV(Get32(b), b[8..40], Get32(b[4..]), b[40..72], DecodeEntries(b[HEADER..], count)))
  }

  lemma EntryForm(b: Bytes, off: nat, e: SkippedKey)
    requires off + ENTRY <= |b| && e.n < U32
    ensures b[off..off + ENTRY] == Put32(e.n) + e.mk <==> Get32(b[off..]) == e.n && b[off + 4..off + ENTRY] == e.mk
  {
    var w := b[off..off + ENTRY];
    assert w == w[..4] + w[4..] && w[4..] == b[off + 4..off + ENTRY];
    assert Get32(b[off..]) == Get32(w[..4]);
    GetPut(w[..4]);
    if w == Put32(e.n) + e.mk {
      PutGet(e.n, e.mk);
    }
  }

  lemma EntriesSnoc(init: seq<SkippedKey>, last: SkippedKey)
    requires forall e :: e in init + [last] ==> e.n < U32
    ensures forall e :: e in init ==> e.n < U32
    ensures EncodeEntries(init + [last]) == EncodeEntries(init) + (Put32(last.n) + last.mk)
  {
    forall e | e in init
      ensures e.n < U32
    {
      assert e in init + [last];
    }
    assert (init + [last])[..|init|] == init;
  }

  lemma {:induction false} EntriesRoundTrip(es: seq<SkippedKey>, rest: Bytes)
    requires forall e :: e in es ==> e.n < U32
    ensures DecodeEntries(EncodeEntries(es) + rest, |es|) == es
  {
    if es != [] {
      var init, last := es[..|es| - 1], es[|es| - 1];
      var b, tail := EncodeEntries(init), Put32(last.n) + last.mk;
      assert EncodeEntries(es) + rest == b + (tail + rest);
      EntriesRoundTrip(init, tail + rest);
      assert (b + (tail + rest))[|b|..|b| + ENTRY] == tail;
      EntryForm(b + (tail + rest), |b|, last);
    }
  }

  lemma Joins(b: Bytes, off: nat)
    requires off + ENTRY <= |b|
    ensures b[..off] + b[off..off + ENTRY] == b[..off + ENTRY]
  {
  }

  lemma {:induction false} EntriesCanonical(b: Bytes, count: nat)
    requires |b| >= ENTRY * count
    ensures EncodeEntries(DecodeEntries(b, count)) == b[..ENTRY * count]
  {
    hide Get32, Put32;
    if count > 0 {
      EntriesCanonical(b, count - 1);
      var off := ENTRY * (count - 1);
      var init, last := DecodeEntries(b, count - 1), SkippedKey(Get32(b[off..]), b[off + 4..off + ENTRY]);
      assert DecodeEntries(b, count) == init + [last];
      hide DecodeEntries;
      EntriesSnoc(init, last);
      EntryForm(b, off, last);
      hide EncodeEntries;
      Joins(b, off);
    }
  }

  lemma HeaderFields(r: ReceiverV, rest: Bytes)
    requires Encodable(r)
    ensures var b := Header(r) + rest;
      && Get32(b) == r.generation && Get32(b[4..]) == r.n && b[8..40] == r.ck && b[40..72] == r.signPub
      && Get32(b[72..]) == |r.skipped| && b[HEADER..] == rest
  {
    var b := Header(r) + rest;
    assert b == Put32(r.generation) + b[4..];
    PutGet(r.generation, b[4..]);
    assert b[4..] == Put32(r.n) + b[8..];
    PutGet(r.n, b[8..]);
    assert b[72..] == Put32(|r.skipped|) + rest;
    PutGet(|r.skipped|, rest);
  }

  lemma HeaderCanonical(b: Bytes, r: ReceiverV)
    requires |b| >= HEADER && Encodable(r)
    requires r.generation == Get32(b) && r.n == Get32(b[4..]) && r.ck == b[8..40] && r.signPub == b[40..72]
    requires |r.skipped| == Get32(b[72..])
    ensures Header(r) == b[..HEADER]
  {
    GetPut(b[0..4]);
    GetPut(b[4..8]);
    GetPut(b[72..76]);
    assert Get32(b) == Get32(b[0..4]) && Get32(b[4..]) == Get32(b[4..8]) && Get32(b[72..]) == Get32(b[72..76]);
    assert b[..HEADER] == b[0..4] + b[4..8] + b[8..40] + b[40..72] + b[72..76];
  }

  /** A receiver reads back as itself, and every accepted byte string is a receiver's only form. */
  lemma RoundTrip(b: Bytes, r: ReceiverV)
    requires Encodable(r)
    ensures Decode(b) == Ok(r) <==> b == Encode(r)
  {
    if b == Encode(r) {
      HeaderFields(r, EncodeEntries(r.skipped));
      EntriesRoundTrip(r.skipped, []);
      assert EncodeEntries(r.skipped) + [] == EncodeEntries(r.skipped);
    }
    if Decode(b) == Ok(r) {
      HeaderCanonical(b, r);
      EntriesCanonical(b[HEADER..], |r.skipped|);
      assert b == b[..HEADER] + b[HEADER..];
    }
  }

  /** Whatever is accepted fits the stored form again. */
  lemma AcceptedIsEncodable(b: Bytes)
    requires Decode(b).Ok?
    ensures Encodable(Decode(b).value) && Encode(Decode(b).value) == b
  {
    RoundTrip(b, Decode(b).value);
  }

  method Marshal(r: ReceiverV) returns (out: Bytes)
    requires Encodable(r)
    ensures out == Encode(r)
  {
    out := Put32(r.generation);
    out := out + Put32(r.n);
    out := out + r.ck;
    out := out + r.signPub;
    out := out + Put32(|r.skipped|);
    for i := 0 to |r.skipped|
      invariant out == Header(r) + EncodeEntries(r.skipped[..i])
    {
      assert r.skipped[..i + 1][..i] == r.skipped[..i];
      out := out + Put32(r.skipped[i].n);
      out := out + r.skipped[i].mk;
    }
    assert r.skipped[..|r.skipped|] == r.skipped;
  }

  lemma DecodeNone(b: Bytes)
    ensures DecodeEntries(b, 0) == []
  {
  }

  lemma DecodeNext(b: Bytes, i: nat)
    requires |b| >= HEADER + ENTRY * (i + 1)
    ensures var off := HEADER + ENTRY * i;
      DecodeEntries(b[HEADER..], i + 1)
      == DecodeEntries(b[HEADER..], i) + [SkippedKey(Get32(b[off..]), b[off + 4..off + ENTRY])]
  {
    hide Get32;
    var off := HEADER + ENTRY * i;
    assert b[HEADER..][ENTRY * i..] == b[off..];
    assert b[HEADER..][ENTRY * i + 4..ENTRY * i + ENTRY] == b[off + 4..off + ENTRY];
  }

  /** The loop over the stored keys. */
  method UnmarshalEntries(b: Bytes, count: nat) returns (skipped: seq<SkippedKey>)
    requires |b| == HEADER + ENTRY * count
    ensures skipped == DecodeEntries(b[HEADER..], count)
  {
    hide Get32, DecodeEntries;
    var off := HEADER;
    skipped := [];
    DecodeNone(b[HEADER..]);
    for i := 0 to count
      invariant off == HEADER + ENTRY * i
      invariant skipped == DecodeEntries(b[HEADER..], i)
    {
      DecodeNext(b, i);
      skipped := skipped + [SkippedKey(Get32(b[off..]), b[off + 4..off + ENTRY])];
      off := off + ENTRY;
    }
  }

  method UnmarshalReceiver(b: Bytes) returns (r: Result<ReceiverV, Error>)
    ensures r == Decode(b)
  {
    if |b| < HEADER {
      return Err(Malformed);
    }
    var count := Get32(b[72..]);
    if count > MAX_SKIP || |b| != HEADER + count * ENTRY {
      return Err(Malformed);
    }
    hide Get32, DecodeEntries;
    var skipped := UnmarshalEntries(b, count);
    r := Ok(ReceiverV(Get32(b), b[8..40], Get32(b[4..]), b[40..72], skipped));
  }
}
