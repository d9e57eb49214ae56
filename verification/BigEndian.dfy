/** 32-bit big-endian numbers, as the codecs write and read them. */
module BigEndian {
  import opened Prelude

  function Put32(v: nat): (b: Bytes)
    requires v < U32
    ensures |b| == 4
  {
    var high := v / 0x100;
    var top := high / 0x100;
    [(top / 0x100) as byte, (top % 0x100) as byte, (high % 0x100) as byte, (v % 0x100) as byte]
  }

  function Get32(b: Bytes): (v: nat)
    requires |b| >= 4
    ensures v < U32
  {
    ((b[0] as nat * 0x100 + b[1] as nat) * 0x100 + b[2] as nat) * 0x100 + b[3] as nat
  }

  lemma PutGet(v: nat, rest: Bytes)
    requires v < U32
    ensures Get32(Put32(v) + rest) == v
  {
    var b := Put32(v) + rest;
    assert b[0] == Put32(v)[0] && b[1] == Put32(v)[1] && b[2] == Put32(v)[2] && b[3] == Put32(v)[3];
  }

  lemma GetPut(b: Bytes)
    requires |b| == 4
    ensures Put32(Get32(b)) == b
  {
    var b0, b1, b2, b3 := b[0] as nat, b[1] as nat, b[2] as nat, b[3] as nat;
    var v := Get32(b);
    assert v / 0x100 == (b0 * 0x100 + b1) * 0x100 + b2;
    assert v / 0x100 / 0x100 == b0 * 0x100 + b1;
  }
}
