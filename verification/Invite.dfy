/** Invite codes: base58 of a node id and its checksum. */
module Invite {
  import opened Prelude

  const ALPHABET: string :=
    "123456789" + "ABCDEFGH" + "JKLMN" + "PQRSTUVWXYZ" + "abcdefghijk" + "mnopqrstuvwxyz"

  const MAX_CODE_LEN: nat := 96
  const ID_LEN: nat := 32

  datatype Error = BadInvite | BadChecksum | BadInviteLen

  /** Letter number i of the alphabet: digits and letters without 0, O, I and l, in ASCII order. */
  function Letter(i: nat): char
    requires i < 58
  {
    if i < 9 then '1' + i as char
    else if i < 17 then 'A' + (i - 9) as char
    else if i < 22 then 'J' + (i - 17) as char
    else if i < 33 then 'P' + (i - 22) as char
    else if i < 44 then 'a' + (i - 33) as char
    else 'm' + (i - 44) as char
  }

  /** Position of c in the alphabet, or 58. */
  function IndexOf(c: char): (i: nat)
    ensures i <= 58 && (i < 58 ==> Letter(i) == c)
    ensures forall k: nat :: k < 58 && Letter(k) == c ==> i == k
  {
    if '1' <= c <= '9' then (c - '1') as nat
    else if 'A' <= c <= 'H' then (c - 'A') as nat + 9
    else if 'J' <= c <= 'N' then (c - 'J') as nat + 17
    else if 'P' <= c <= 'Z' then (c - 'P') as nat + 22
    else if 'a' <= c <= 'k' then (c - 'a') as nat + 33
    else if 'm' <= c <= 'z' then (c - 'm') as nat + 44
    else 58
  }

  /** Letter is the alphabet. */
  lemma LetterIsAlphabet(i: nat)
    requires i < 58
    ensures |ALPHABET| == 58 && ALPHABET[i] == Letter(i)
  {
    if i < 9 {
      assert ALPHABET[i] == "123456789"[i];
    } else if i < 17 {
      assert ALPHABET[i] == "ABCDEFGH"[i - 9];
    } else if i < 22 {
      assert ALPHABET[i] == "JKLMN"[i - 17];
    } else if i < 33 {
      assert ALPHABET[i] == "PQRSTUVWXYZ"[i - 22];
    } else if i < 44 {
      assert ALPHABET[i] == "abcdefghijk"[i - 33];
    } else {
      assert ALPHABET[i] == "mnopqrstuvwxyz"[i - 44];
    }
  }

  // ----- numbers in a base, most significant digit first -----

  /** Digits below the base; canonical ones do not start with a zero. */
  predicate Digits(ds: seq<nat>, base: nat) {
    forall i :: 0 <= i < |ds| ==> ds[i] < base
  }

  function Value(ds: seq<nat>, base: nat): nat {
    if ds == [] then 0 else Value(ds[..|ds| - 1], base) * base + ds[|ds| - 1]
  }

  function ToDigits(x: nat, base: nat): (ds: seq<nat>)
    requires base >= 2
    ensures Digits(ds, base) && (ds != [] ==> ds[0] != 0)
    decreases x
  {
    if x == 0 then [] else ToDigits(x / base, base) + [x % base]
  }

  lemma DigitsStep(x: nat, base: nat)
    requires base >= 2
    ensures x == 0 ==> ToDigits(x, base) == []
    ensures x > 0 ==> x / base < x && ToDigits(x, base) == ToDigits(x / base, base) + [x % base]
  {
  }

  lemma ValueStep(ds: seq<nat>, d: nat, base: nat)
    ensures Value(ds + [d], base) == Value(ds, base) * base + d
  {
    assert (ds + [d])[..|ds|] == ds;
  }

  lemma {:induction false} ValueOfDigits(x: nat, base: nat)
    requires base >= 2
    ensures Value(ToDigits(x, base), base) == x
    decreases x
  {
    hide ToDigits, Value;
    DigitsStep(x, base);
    if x == 0 {
      EmptyValue(base);
    } else {
      ValueOfDigits(x / base, base);
      ValueStep(ToDigits(x / base, base), x % base, base);
    }
  }

  lemma MulBound(k: int, base: int)
    requires base >= 0
    ensures k >= 1 ==> k * base >= base
    ensures k <= -1 ==> k * base <= -base
  {
    assert k >= 1 ==> (k - 1) * base >= 0;
    assert k <= -1 ==> (-k - 1) * base >= 0;
  }

  /** Quotient and remainder are unique. */
  lemma DivMod(q: nat, d: nat, base: nat)
    requires d < base
    ensures (q * base + d) / base == q && (q * base + d) % base == d
  {
    var x := q * base + d;
    SameQuotient(q, d, x / base, x % base, base);
  }

  lemma SameQuotient(q: nat, d: nat, r: nat, e: nat, base: nat)
    requires d < base && e < base && q * base + d == r * base + e
    ensures q == r && d == e
  {
    assert (q - r) * base == q * base - r * base;
    MulBound(q - r, base);
  }

  lemma Snoc(init: seq<nat>, last: nat, base: nat)
    requires base >= 2 && last < base && (init != [] || last != 0)
    requires ToDigits(Value(init, base), base) == init && (init != [] ==> Value(init, base) > 0)
    ensures ToDigits(Value(init + [last], base), base) == init + [last] && Value(init + [last], base) > 0
  {
    hide ToDigits, Value;
    var v := Value(init, base);
    ValueStep(init, last, base);
    MulBound(v, base);
    assert v * base + last > 0 by {
      EmptyValue(base);
    }
    DigitsStep(v * base + last, base);
    DivMod(v, last, base);
  }

  lemma EmptyValue(base: nat)
    ensures Value([], base) == 0
  {
  }

  /** Canonical digits are the digits of their value. */
  lemma {:induction false} DigitsOfValue(ds: seq<nat>, base: nat)
    requires base >= 2 && Digits(ds, base) && (ds != [] ==> ds[0] != 0)
    ensures ToDigits(Value(ds, base), base) == ds
    ensures ds != [] ==> Value(ds, base) > 0
  {
    if ds != [] {
      var init, last := ds[..|ds| - 1], ds[|ds| - 1];
      DigitsOfValue(init, base);
      Snoc(init, last, base);
      assert ds == init + [last];
    }
  }

  function Zeros(n: nat): (z: seq<nat>)
    ensures |z| == n && forall i :: 0 <= i < n ==> z[i] == 0
  {
    seq(n, _ => 0)
  }

  /** Leading zeros do not change a value. */
  lemma {:induction false} ValueOfZeros(n: nat, ds: seq<nat>, base: nat)
    ensures Value(Zeros(n) + ds, base) == Value(ds, base)
  {
    var all := Zeros(n) + ds;
    if ds != [] {
      ValueOfZeros(n, ds[..|ds| - 1], base);
      assert all[..|all| - 1] == Zeros(n) + ds[..|ds| - 1];
    } else if n > 0 {
      ValueOfZeros(n - 1, ds, base);
      assert all[..n - 1] == Zeros(n - 1) + ds;
    }
  }

  function LeadingZeros(ds: seq<nat>): (z: nat)
    ensures z <= |ds| && (forall i :: 0 <= i < z ==> ds[i] == 0) && (z < |ds| ==> ds[z] != 0)
  {
    if ds == [] || ds[0] != 0 then 0 else 1 + LeadingZeros(ds[1..])
  }

  /** Any digits are their leading zeros followed by the digits of their value. */
  lemma Normal(ds: seq<nat>, base: nat)
    requires base >= 2 && Digits(ds, base)
    ensures ds == Zeros(LeadingZeros(ds)) + ToDigits(Value(ds, base), base)
  {
    var z := LeadingZeros(ds);
    assert ds == Zeros(z) + ds[z..];
    ValueOfZeros(z, ds[z..], base);
    DigitsOfValue(ds[z..], base);
  }

  /** Digits in base a rewritten in base b, the number of leading zeros kept. */
  function Rebase(ds: seq<nat>, a: nat, b: nat): seq<nat>
    requires a >= 2 && b >= 2
  {
    Zeros(LeadingZeros(ds)) + ToDigits(Value(ds, a), b)
  }

  lemma LeadingZerosOf(n: nat, ds: seq<nat>)
    requires ds != [] ==> ds[0] != 0
    ensures LeadingZeros(Zeros(n) + ds) == n
  {
    var all := Zeros(n) + ds;
    var z := LeadingZeros(all);
    assert forall i :: 0 <= i < n ==> all[i] == 0;
    assert n < |all| ==> all[n] == ds[0];
  }

  /** Rewriting in another base and back changes nothing. */
  lemma RebaseRoundTrip(ds: seq<nat>, a: nat, b: nat)
    requires a >= 2 && b >= 2 && Digits(ds, a)
    ensures Rebase(Rebase(ds, a, b), b, a) == ds
  {
    var z, body := LeadingZeros(ds), ToDigits(Value(ds, a), b);
    LeadingZerosOf(z, body);
    ValueOfZeros(z, body, b);
    ValueOfDigits(Value(ds, a), b);
    Normal(ds, a);
  }

  // ----- base58 -----

  function Numbers(b: Bytes): (ds: seq<nat>)
    ensures |ds| == |b| && Digits(ds, 256) && forall i :: 0 <= i < |b| ==> ds[i] == b[i] as nat
  {
    seq(|b|, i requires 0 <= i < |b| => b[i] as nat)
  }

  function AsBytes(ds: seq<nat>): (b: Bytes)
    requires Digits(ds, 256)
    ensures |b| == |ds| && forall i :: 0 <= i < |b| ==> b[i] as nat == ds[i]
  {
    seq(|ds|, i requires 0 <= i < |ds| => ds[i] as byte)
  }

  function Letters(ds: seq<nat>): (s: string)
    requires Digits(ds, 58)
    ensures |s| == |ds| && forall i :: 0 <= i < |s| ==> s[i] == Letter(ds[i])
  {
    seq(|ds|, i requires 0 <= i < |ds| => Letter(ds[i]))
  }

  predicate InAlphabet(s: string) {
    forall c :: c in s ==> IndexOf(c) < 58
  }

  function Indexes(s: string): (ds: seq<nat>)
    requires InAlphabet(s)
    ensures |ds| == |s| && Digits(ds, 58) && forall i :: 0 <= i < |s| ==> ds[i] == IndexOf(s[i])
  {
    seq(|s|, i requires 0 <= i < |s| => IndexOf(s[i]))
  }

  function Encode(b: Bytes): (s: string)
  {
    RebaseDigits(Numbers(b), 256, 58);
    Letters(Rebase(Numbers(b), 256, 58))
  }

  lemma RebaseDigits(ds: seq<nat>, a: nat, b: nat)
    requires a >= 2 && b >= 2
    ensures Digits(Rebase(ds, a, b), b)
  {
  }

  function Decode(s: string): Result<Bytes, Error> {
    if !InAlphabet(s) then Err(BadInvite)
    else
      RebaseDigits(Indexes(s), 58, 256);
      Ok(AsBytes(Rebase(Indexes(s), 58, 256)))
  }

  lemma LettersIndexes(ds: seq<nat>)
    requires Digits(ds, 58)
    ensures InAlphabet(Letters(ds)) && Indexes(Letters(ds)) == ds
  {
    var s := Letters(ds);
    forall i | 0 <= i < |ds|
      ensures IndexOf(s[i]) == ds[i]
    {
    }
  }

  /** Decoding an encoded byte string gives it back, leading zeros included. */
  lemma DecodeEncode(b: Bytes)
    ensures Decode(Encode(b)) == Ok(b)
  {
    hide Rebase, IndexOf, InAlphabet;
    var ds := Numbers(b);
    RebaseDigits(ds, 256, 58);
    RebaseRoundTrip(ds, 256, 58);
    LettersIndexes(Rebase(ds, 256, 58));
    assert AsBytes(ds) == b;
  }

  /** And every string over the alphabet is the encoding of what it decodes to. */
  lemma EncodeDecode(s: string)
    requires InAlphabet(s)
    ensures Decode(s).Ok? && Encode(Decode(s).value) == s
  {
    var ds := Indexes(s);
    RebaseDigits(ds, 58, 256);
    RebaseRoundTrip(ds, 58, 256);
    assert Numbers(AsBytes(Rebase(ds, 58, 256))) == Rebase(ds, 58, 256);
    assert Letters(ds) == s;
  }

  /** A number below 256^n has at most 2n digits in base 58. */
  lemma {:induction false} DigitCount(x: nat, ds: seq<nat>)
    requires Digits(ds, 256) && x <= Value(ds, 256)
    ensures |ToDigits(x, 58)| <= 2 * |ds|
  {
    if ds != [] && x > 0 {
      var init := ds[..|ds| - 1];
      var y := x / 58 / 58;
      assert y <= Value(init, 256) by {
        assert x < (Value(init, 256) + 1) * 256;
      }
      DigitCount(y, init);
      assert |ToDigits(x, 58)| == 1 + |ToDigits(x / 58, 58)|;
      assert |ToDigits(x / 58, 58)| <= 1 + |ToDigits(y, 58)|;
    }
  }

  lemma EncodedLength(b: Bytes)
    ensures |Encode(b)| <= 2 * |b|
  {
    var ds := Numbers(b);
    var z := LeadingZeros(ds);
    assert ds == Zeros(z) + ds[z..];
    ValueOfZeros(z, ds[z..], 256);
    DigitCount(Value(ds, 256), ds[z..]);
  }

  // ----- the loops -----

  /** Digits of x from the least significant one on. */
  method DigitsBackwards(x0: nat) returns (out: seq<nat>)
    ensures Reversed(out) == ToDigits(x0, 58)
  {
    hide ToDigits;
    out := [];
    var x := x0;
    while x > 0
      invariant ToDigits(x0, 58) == ToDigits(x, 58) + Reversed(out)
      decreases x
    {
      DigitsStep(x, 58);
      assert Reversed(out + [x % 58]) == [x % 58] + Reversed(out);
      out := out + [x % 58];
      x := x / 58;
    }
    DigitsStep(0, 58);
  }

  method Base58Encode(b: Bytes) returns (s: string)
    ensures s == Encode(b)
  {
    hide ToDigits, Value, Reversed;
    var zeros := 0;
    while zeros < |b| && b[zeros] == 0
      invariant zeros <= |b| && forall i :: 0 <= i < zeros ==> b[i] == 0
    {
      zeros := zeros + 1;
    }
    var ds := Numbers(b);
    assert zeros == LeadingZeros(ds);
    var out := DigitsBackwards(Value(ds, 256));
    ghost var digits := Reversed(out);
    assert Zeros(0) + digits == digits;
    for i := 0 to zeros
      invariant Reversed(out) == Zeros(i) + digits
    {
      ZeroInFront(out, i, digits);
      out := out + [0];
    }
    RebaseDigits(ds, 256, 58);
    s := Letters(Reversed(out));
  }

  lemma ZeroInFront(out: seq<nat>, i: nat, digits: seq<nat>)
    requires Reversed(out) == Zeros(i) + digits
    ensures Reversed(out + [0]) == Zeros(i + 1) + digits
  {
  }

  function Reversed(s: seq<nat>): (r: seq<nat>)
    ensures |r| == |s| && forall i :: 0 <= i < |s| ==> r[i] == s[|s| - 1 - i]
  {
    if s == [] then [] else [s[|s| - 1]] + Reversed(s[..|s| - 1])
  }

  lemma OneMoreLetter(s: string, i: nat)
    requires i < |s| && InAlphabet(s[..i]) && IndexOf(s[i]) < 58
    ensures InAlphabet(s[..i + 1])
    ensures Value(Indexes(s[..i + 1]), 58) == Value(Indexes(s[..i]), 58) * 58 + IndexOf(s[i])
  {
    hide Value, IndexOf;
    assert s[..i + 1] == s[..i] + [s[i]];
    assert Indexes(s[..i + 1]) == Indexes(s[..i]) + [IndexOf(s[i])];
    ValueStep(Indexes(s[..i]), IndexOf(s[i]), 58);
  }

  method Base58Decode(s: string) returns (r: Result<Bytes, Error>)
    ensures r == Decode(s)
  {
    hide Value, ToDigits, IndexOf;
    var zeros := 0;
    while zeros < |s| && s[zeros] == '1'
      invariant zeros <= |s| && forall i :: 0 <= i < zeros ==> s[i] == '1'
    {
      zeros := zeros + 1;
    }
    var x := 0;
    assert Indexes(s[..0]) == [];
    EmptyValue(58);
    for i := 0 to |s|
      invariant InAlphabet(s[..i])
      invariant x == Value(Indexes(s[..i]), 58)
    {
      var index := IndexOf(s[i]);
      if index == 58 {
        assert s[i] in s;
        return Err(BadInvite);
      }
      OneMoreLetter(s, i);
      x := x * 58 + index;
    }
    assert s[..|s|] == s;
    assert zeros == LeadingZeros(Indexes(s)) by {
      ZeroIsOne(s, zeros);
    }
    RebaseDigits(Indexes(s), 58, 256);
    var body := ToDigits(x, 256);
    r := Ok(AsBytes(Zeros(zeros) + body));
  }

  lemma ZeroIsOne(s: string, zeros: nat)
    requires InAlphabet(s) && zeros <= |s| && (forall i :: 0 <= i < zeros ==> s[i] == '1')
    requires zeros < |s| ==> s[zeros] != '1'
    ensures LeadingZeros(Indexes(s)) == zeros
  {
    assert forall i :: 0 <= i < |s| ==> (Indexes(s)[i] == 0 <==> s[i] == '1');
  }

  // ----- the code of an invite -----

  /** crc is CRC-32 of the id, as four bytes. */
  function Code(id: Bytes, crc: Bytes -> Bytes): string {
    Encode(id + crc(id))
  }

  function ParseCode(code: string, crc: Bytes -> Bytes): Result<Bytes, Error> {
    if code == "" || '/' in code then Err(BadInvite)
    else if |code| > MAX_CODE_LEN then Err(BadInviteLen)
    else
      match Decode(code)
      case Err(e) => Err(e)
      case Ok(payload) =>
        if |payload| != ID_LEN + 4 then Err(BadInviteLen)
        else if payload[ID_LEN..] != crc(payload[..ID_LEN]) then Err(BadChecksum)
        else Ok(payload[..ID_LEN])
  }

  lemma SlashIsForeign(s: string)
    requires InAlphabet(s)
    ensures '/' !in s
  {
    assert IndexOf('/') == 58;
  }

  lemma CodeParses(id: Bytes, crc: Bytes -> Bytes)
    requires |id| == ID_LEN && |crc(id)| == 4
    ensures ParseCode(Code(id, crc), crc) == Ok(id)
  {
    hide Encode, Decode;
    var payload := id + crc(id);
    DecodeEncode(payload);
    EncodedLength(payload);
    EncodedLetters(payload);
    SlashIsForeign(Encode(payload));
    assert payload[..ID_LEN] == id && payload[ID_LEN..] == crc(id);
    NothingDecoded();
  }

  lemma EncodedLetters(b: Bytes)
    ensures InAlphabet(Encode(b))
  {
    var ds := Numbers(b);
    RebaseDigits(ds, 256, 58);
    LettersIndexes(Rebase(ds, 256, 58));
  }

  lemma NothingDecoded()
    ensures Decode("") == Ok([])
  {
    assert Indexes("") == [];
  }

  /** A code is accepted, and for this id, exactly when it is the code of this id. */
  lemma CodeIsCanonical(code: string, id: Bytes, crc: Bytes -> Bytes)
    requires |id| == ID_LEN && |crc(id)| == 4
    ensures ParseCode(code, crc) == Ok(id) <==> code == Code(id, crc)
  {
    CodeParses(id, crc);
    if ParseCode(code, crc) == Ok(id) {
      DecodedLetters(code);
      EncodeDecode(code);
      hide Encode, Decode;
      var p := Decode(code).value;
      assert p == p[..ID_LEN] + p[ID_LEN..];
    }
  }

  lemma DecodedLetters(s: string)
    requires Decode(s).Ok?
    ensures InAlphabet(s)
  {
  }
}
