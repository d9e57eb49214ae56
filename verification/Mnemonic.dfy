/**
 A 32-byte seed as 24 words and back: the seed and a checksum byte, regrouped from 8-bit to 11-bit
 numbers (BIP-39, section "Generating the mnemonic").
 */
module Mnemonic {
  import opened Prelude

  const WORDS: nat := 24
  const SEED_LEN: nat := 32
  const LIST_LEN: nat := 2048

  datatype Error = WordCount | UnknownWord | Checksum

  // ----- bits, the most significant first -----

  predicate Bits(bs: seq<nat>) {
    forall i :: 0 <= i < |bs| ==> bs[i] < 2
  }

  function Pow2(n: nat): nat {
    if n == 0 then 1 else 2 * Pow2(n - 1)
  }

  function Shift(v: nat, i: nat): nat {
    if i == 0 then v else Shift(v, i - 1) / 2
  }

  /** The low n bits of v. */
  function BitsOf(v: nat, n: nat): (bs: seq<nat>)
    ensures |bs| == n && Bits(bs)
  {
    if n == 0 then [] else BitsOf(v / 2, n - 1) + [v % 2]
  }

  function Number(bs: seq<nat>): nat {
    if bs == [] then 0 else Number(bs[..|bs| - 1]) * 2 + bs[|bs| - 1]
  }

  lemma BitSteps(v: nat, bs: seq<nat>, b: nat, n: nat)
    ensures Number(bs + [b]) == Number(bs) * 2 + b && Number([]) == 0
    ensures BitsOf(v, n + 1) == BitsOf(v / 2, n) + [v % 2] && BitsOf(v, 0) == []
    ensures Pow2(n + 1) == 2 * Pow2(n) && Pow2(0) == 1
  {
    assert (bs + [b])[..|bs|] == bs;
  }

  lemma {:induction false} NumberOfBits(v: nat, n: nat)
    requires v < Pow2(n)
    ensures Number(BitsOf(v, n)) == v
  {
    hide BitsOf, Number, Pow2;
    if n == 0 {
      BitSteps(v, [], 0, 0);
    } else {
      BitSteps(v, BitsOf(v / 2, n - 1), v % 2, n - 1);
      NumberOfBits(v / 2, n - 1);
    }
  }

  lemma {:induction false} BitsOfNumber(bs: seq<nat>)
    requires Bits(bs)
    ensures BitsOf(Number(bs), |bs|) == bs && Number(bs) < Pow2(|bs|)
  {
    hide BitsOf, Number, Pow2;
    if bs == [] {
      BitSteps(0, [], 0, 0);
    } else {
      var init, last := bs[..|bs| - 1], bs[|bs| - 1];
      assert bs == init + [last];
      BitsOfNumber(init);
      BitSteps(Number(bs), init, last, |init|);
      assert Number(bs) / 2 == Number(init) && Number(bs) % 2 == last;
    }
  }

  // ----- numbers of w bits in a row -----

  function Flatten(ns: seq<nat>, w: nat): (bs: seq<nat>)
    ensures |bs| == |ns| * w && Bits(bs)
  {
    if ns == [] then [] else Flatten(ns[..|ns| - 1], w) + BitsOf(ns[|ns| - 1], w)
  }

  /** The first k groups of w bits, as numbers. */
  function Group(bs: seq<nat>, w: nat, k: nat): (ns: seq<nat>)
    requires k * w <= |bs|
    ensures |ns| == k
  {
    if k == 0 then []
    else
      assert k * w == (k - 1) * w + w;
      Group(bs, w, k - 1) + [Number(bs[(k - 1) * w..k * w])]
  }

  predicate Below(ns: seq<nat>, limit: nat) {
    forall i :: 0 <= i < |ns| ==> ns[i] < limit
  }

  lemma MulStep(k: nat, w: nat)
    ensures (k + 1) * w == k * w + w
  {
  }

  lemma GroupStep(bs: seq<nat>, w: nat, k: nat)
    requires k * w + w <= |bs|
    ensures (k + 1) * w == k * w + w
    ensures Group(bs, w, k + 1) == Group(bs, w, k) + [Number(bs[k * w..k * w + w])] && Group(bs, w, 0) == []
  {
    MulStep(k, w);
  }

  lemma FlattenStep(ns: seq<nat>, n: nat, w: nat)
    ensures Flatten(ns + [n], w) == Flatten(ns, w) + BitsOf(n, w) && Flatten([], w) == []
  {
    assert (ns + [n])[..|ns|] == ns;
  }

  lemma {:induction false} GroupPrefix(bs: seq<nat>, tail: seq<nat>, w: nat, k: nat)
    requires k * w <= |bs|
    ensures Group(bs + tail, w, k) == Group(bs, w, k)
  {
    if k > 0 {
      assert k * w == (k - 1) * w + w;
      GroupPrefix(bs, tail, w, k - 1);
      assert (bs + tail)[(k - 1) * w..k * w] == bs[(k - 1) * w..k * w];
    }
  }

  lemma {:induction false} GroupFlatten(ns: seq<nat>, w: nat)
    requires Below(ns, Pow2(w))
    ensures Group(Flatten(ns, w), w, |ns|) == ns
  {
    hide Group, Flatten, BitsOf, Number, Pow2;
    if ns != [] {
      var init, last, k := ns[..|ns| - 1], ns[|ns| - 1], |ns| - 1;
      assert ns == init + [last];
      GroupFlatten(init, w);
      MulStep(k, w);
      var bs := Flatten(init, w);
      FlattenStep(init, last, w);
      GroupPrefix(bs, BitsOf(last, w), w, k);
      GroupStep(bs + BitsOf(last, w), w, k);
      NumberOfBits(last, w);
      LastSlice(bs, BitsOf(last, w), k * w, w);
    }
  }

  lemma LastSlice(bs: seq<nat>, tail: seq<nat>, lo: nat, w: nat)
    requires |bs| == lo && |tail| == w
    ensures (bs + tail)[lo..lo + w] == tail
  {
  }

  lemma {:induction false} FlattenGroup(bs: seq<nat>, w: nat, k: nat)
    requires Bits(bs) && k * w <= |bs|
    ensures Flatten(Group(bs, w, k), w) == bs[..k * w]
    ensures Below(Group(bs, w, k), Pow2(w))
  {
    hide Group, Flatten, BitsOf, Number, Pow2;
    if k == 0 {
      FlattenStep([], 0, w);
    } else {
      MulStep(k - 1, w);
      var lo := (k - 1) * w;
      FlattenGroup(bs, w, k - 1);
      GroupStep(bs, w, k - 1);
      BitsOfNumber(bs[lo..lo + w]);
      FlattenStep(Group(bs, w, k - 1), Number(bs[lo..lo + w]), w);
      assert bs[..lo + w] == bs[..lo] + bs[lo..lo + w];
    }
  }

  // ----- words -----

  /** How the text functions see a character. */
  datatype Text = Text(lower: char -> char, space: char -> bool) {
    predicate Plain(c: char) {
      !space(c) && lower(c) == c
    }

    /** Lower-case words without repetition. */
    ghost predicate Dictionary(list: seq<string>) {
      && |list| == LIST_LEN && NoDup(list)
      && (forall i :: 0 <= i < |list| ==> PlainWord(list[i]))
      && space(' ') && lower(' ') == ' '
    }

    predicate PlainWord(w: string) {
      w != "" && forall i :: 0 <= i < |w| ==> Plain(w[i])
    }

    function Lower(s: string): (r: string)
      ensures |r| == |s| && forall i :: 0 <= i < |s| ==> r[i] == lower(s[i])
    {
      if s == "" then "" else Lower(s[..|s| - 1]) + [lower(s[|s| - 1])]
    }

    /** Lower case already, and nothing to trim. */
    predicate Tidy(s: string) {
      && s != "" && !space(s[0]) && !space(s[|s| - 1])
      && forall i :: 0 <= i < |s| ==> lower(s[i]) == s[i]
    }

    function TrimLeft(s: string): string {
      if s != "" && space(s[0]) then TrimLeft(s[1..]) else s
    }

    function TrimRight(s: string): string {
      if s != "" && space(s[|s| - 1]) then TrimRight(s[..|s| - 1]) else s
    }

    /** The runs of characters between spaces; word is the run being read. */
    function Fields(s: string, word: string): seq<string> {
      if s == "" then if word == "" then [] else [word]
      else if !space(s[0]) then Fields(s[1..], word + [s[0]])
      else if word == "" then Fields(s[1..], "")
      else [word] + Fields(s[1..], "")
    }

    function Normal(phrase: string): seq<string> {
      Fields(Lower(TrimRight(TrimLeft(phrase))), "")
    }
  }

  function Joined(ws: seq<string>): string {
    if ws == [] then "" else if |ws| == 1 then ws[0] else Joined(ws[..|ws| - 1]) + " " + ws[|ws| - 1]
  }

  function IndexIn(list: seq<string>, w: string): (i: nat)
    ensures i <= |list| && (i < |list| ==> list[i] == w)
    ensures w in list ==> i < |list|
  {
    if list == [] || list[0] == w then 0 else 1 + IndexIn(list[1..], w)
  }

  function Chosen(list: seq<string>, ns: seq<nat>): (ws: seq<string>)
    requires Below(ns, |list|)
    ensures |ws| == |ns| && forall i :: 0 <= i < |ns| ==> ws[i] == list[ns[i]]
  {
    if ns == [] then [] else Chosen(list, ns[..|ns| - 1]) + [list[ns[|ns| - 1]]]
  }

  /** The numbers of the words, unless one is not in the list. */
  function Lookup(list: seq<string>, ws: seq<string>): (r: Option<seq<nat>>)
    ensures r.Some? ==> |r.value| == |ws| && Below(r.value, |list|)
  {
    if ws == [] then Some([])
    else
      match Lookup(list, ws[..|ws| - 1])
      case None => None
      case Some(ns) =>
        var i := IndexIn(list, ws[|ws| - 1]);
        if i < |list| then Some(ns + [i]) else None
  }

  lemma {:induction false} LookupChosen(list: seq<string>, ws: seq<string>, ns: seq<nat>)
    requires NoDup(list) && Below(ns, |list|)
    ensures Lookup(list, ws) == Some(ns) <==> ws == Chosen(list, ns)
  {
    if ws == [] || ns == [] {
    } else {
      var init, last := ns[..|ns| - 1], ns[|ns| - 1];
      LookupChosen(list, ws[..|ws| - 1], init);
      var i := IndexIn(list, ws[|ws| - 1]);
      assert ws == ws[..|ws| - 1] + [ws[|ws| - 1]] && ns == init + [last];
      if i < |list| && list[i] == list[last] {
        SamePosition(list, i, last);
      }
      if Lookup(list, ws) == Some(ns) {
        assert Lookup(list, ws[..|ws| - 1]).value == ns[..|ns| - 1];
      }
    }
  }

  // ----- splitting the phrase -----

  lemma {:induction false} ReadWord(t: Text, w: string, rest: string, word: string)
    requires forall i :: 0 <= i < |w| ==> t.Plain(w[i])
    ensures t.Fields(w + rest, word) == t.Fields(rest, word + w)
  {
    if w == "" {
      assert w + rest == rest && word + w == word;
    } else {
      assert (w + rest)[1..] == w[1..] + rest && (w + rest)[0] == w[0];
      ReadWord(t, w[1..], rest, word + [w[0]]);
      assert word + [w[0]] + w[1..] == word + w;
    }
  }

  lemma EndOfWord(t: Text, word: string, rest: string)
    requires word != "" && t.space(' ')
    ensures t.Fields(" " + rest, word) == [word] + t.Fields(rest, "") && t.Fields("", word) == [word]
  {
    assert (" " + rest)[1..] == rest;
  }

  lemma ReadOne(t: Text, w: string, rest: string)
    requires t.space(' ') && t.PlainWord(w)
    ensures t.Fields(w + (" " + rest), "") == [w] + t.Fields(rest, "") && t.Fields(w, "") == [w]
  {
    ReadWord(t, w, " " + rest, "");
    ReadWord(t, w, "", "");
    assert "" + w == w && w + "" == w;
    EndOfWord(t, w, rest);
  }

  lemma JoinedStep(ws: seq<string>)
    requires ws != []
    ensures Joined(ws) == if |ws| == 1 then ws[0] else Joined(ws[..|ws| - 1]) + " " + ws[|ws| - 1]
  {
  }

  lemma {:induction false} ReadWords(t: Text, ws: seq<string>, rest: string)
    requires ws != [] && t.space(' ') && forall i :: 0 <= i < |ws| ==> t.PlainWord(ws[i])
    ensures t.Fields(Joined(ws) + " " + rest, "") == ws + t.Fields(rest, "")
  {
    hide Text.Fields, Text.PlainWord, Joined;
    var last := ws[|ws| - 1];
    var tail := last + (" " + rest);
    ReadOne(t, last, rest);
    JoinedStep(ws);
    if |ws| == 1 {
      assert Joined(ws) + " " + rest == tail;
    } else {
      var init := ws[..|ws| - 1];
      ReadWords(t, init, tail);
      assert Joined(ws) + " " + rest == Joined(init) + " " + tail;
      assert ws == init + [last];
    }
  }

  lemma {:induction false} JoinedEnds(t: Text, ws: seq<string>)
    requires ws != [] && t.lower(' ') == ' ' && forall i :: 0 <= i < |ws| ==> t.PlainWord(ws[i])
    ensures t.Tidy(Joined(ws))
  {
    if |ws| > 1 {
      JoinedEnds(t, ws[..|ws| - 1]);
    }
  }

  lemma NothingToTrim(t: Text, s: string)
    requires t.Tidy(s)
    ensures t.TrimRight(t.TrimLeft(s)) == s && t.Lower(s) == s
  {
  }

  lemma ReadAll(t: Text, ws: seq<string>)
    requires ws != [] && t.space(' ') && forall i :: 0 <= i < |ws| ==> t.PlainWord(ws[i])
    ensures t.Fields(Joined(ws), "") == ws
  {
    hide Text.Fields, Text.PlainWord, Joined;
    var init, last := ws[..|ws| - 1], ws[|ws| - 1];
    ReadOne(t, last, "");
    JoinedStep(ws);
    assert ws == init + [last];
    if |ws| > 1 {
      ReadWords(t, init, last);
    }
  }

  /** Words put together with spaces are read back as they were. */
  lemma NormalOfJoined(t: Text, ws: seq<string>)
    requires ws != [] && t.space(' ') && t.lower(' ') == ' ' && forall i :: 0 <= i < |ws| ==> t.PlainWord(ws[i])
    ensures t.Normal(Joined(ws)) == ws
  {
    hide Text.Fields, Text.Lower, Text.TrimLeft, Text.TrimRight, Text.PlainWord, Text.Tidy, Joined;
    JoinedEnds(t, ws);
    NothingToTrim(t, Joined(ws));
    ReadAll(t, ws);
  }

  // ----- seeds and phrases; sum is the first byte of a digest -----

  type Seed = b: Bytes | |b| == SEED_LEN witness seq(SEED_LEN, _ => 0)

  function Numbers(b: Bytes): (ns: seq<nat>)
    ensures |ns| == |b| && Below(ns, 256) && forall i :: 0 <= i < |b| ==> ns[i] == b[i] as nat
  {
    if b == [] then [] else Numbers(b[..|b| - 1]) + [b[|b| - 1] as nat]
  }

  function AsBytes(ns: seq<nat>): (b: Bytes)
    requires Below(ns, 256)
    ensures |b| == |ns| && forall i :: 0 <= i < |ns| ==> b[i] as nat == ns[i]
  {
    if ns == [] then [] else AsBytes(ns[..|ns| - 1]) + [ns[|ns| - 1] as byte]
  }

  function BitString(seed: Seed, sum: Bytes -> byte): (bs: seq<nat>)
    ensures |bs| == 264 && Bits(bs)
  {
    Flatten(Numbers(seed), 8) + BitsOf(sum(seed) as nat, 8)
  }

  function WordNumbers(seed: Seed, sum: Bytes -> byte): (ns: seq<nat>)
    ensures |ns| == WORDS && Below(ns, LIST_LEN)
  {
    FlattenGroup(BitString(seed, sum), 11, WORDS);
    assert Pow2(11) == LIST_LEN;
    Group(BitString(seed, sum), 11, WORDS)
  }

  function WordsOf(list: seq<string>, seed: Seed, sum: Bytes -> byte): (ws: seq<string>)
    requires |list| == LIST_LEN
    ensures |ws| == WORDS
  {
    Chosen(list, WordNumbers(seed, sum))
  }

  function FromSeed(list: seq<string>, seed: Seed, sum: Bytes -> byte): string
    requires |list| == LIST_LEN
  {
    Joined(WordsOf(list, seed, sum))
  }

  function SeedIn(bs: seq<nat>): Seed
    requires |bs| == 264 && Bits(bs)
  {
    FlattenGroup(bs, 8, SEED_LEN);
    assert Pow2(8) == 256;
    AsBytes(Group(bs, 8, SEED_LEN))
  }

  function ToSeed(t: Text, list: seq<string>, phrase: string, sum: Bytes -> byte): Result<Seed, Error>
    requires |list| == LIST_LEN
  {
    var words := t.Normal(phrase);
    if |words| != WORDS then Err(WordCount)
    else
      match Lookup(list, words)
      case None => Err(UnknownWord)
      case Some(ns) =>
        var bs := Flatten(ns, 11);
        var seed := SeedIn(bs);
        if bs[256..] == BitsOf(sum(seed) as nat, 8) then Ok(seed) else Err(Checksum)
  }

  lemma Regroup(bs: seq<nat>, ns: seq<nat>, w: nat, k: nat)
    requires |ns| == k && Below(ns, Pow2(w)) && |bs| == k * w && Bits(bs)
    ensures ns == Group(bs, w, k) <==> Flatten(ns, w) == bs
  {
    hide Group, Flatten, BitsOf, Pow2, Bits, Below;
    GroupFlatten(ns, w);
    FlattenGroup(bs, w, k);
    assert bs[..k * w] == bs;
  }

  /** The numbers of the words and the bits of the seed with its checksum determine each other. */
  lemma Regrouped(seed: Seed, sum: Bytes -> byte, ns: seq<nat>)
    requires |ns| == WORDS && Below(ns, LIST_LEN)
    ensures ns == WordNumbers(seed, sum) <==> Flatten(ns, 11) == BitString(seed, sum)
  {
    assert Pow2(11) == LIST_LEN;
    hide Group, Flatten, BitsOf, Pow2, BitString, Bits;
    Regroup(BitString(seed, sum), ns, 11, WORDS);
  }

  lemma SeedIs(seed: Seed, bs: seq<nat>)
    requires |bs| == 264 && Bits(bs)
    ensures SeedIn(bs) == seed <==> Numbers(seed) == Group(bs, 8, SEED_LEN)
  {
    FlattenGroup(bs, 8, SEED_LEN);
    assert Pow2(8) == 256;
    hide Group, Flatten;
    if SeedIn(bs) == seed {
      assert Numbers(seed) == Group(bs, 8, SEED_LEN);
    }
  }

  lemma SeedOfBits(seed: Seed, sum: Bytes -> byte, bs: seq<nat>)
    requires |bs| == 264 && Bits(bs)
    ensures bs == BitString(seed, sum) <==> SeedIn(bs) == seed && bs[256..] == BitsOf(sum(seed) as nat, 8)
  {
    assert Pow2(8) == 256;
    SeedIs(seed, bs);
    hide Group, Flatten, BitsOf, Numbers, SeedIn, Pow2, Bits;
    TwoRuns(bs, Numbers(seed), BitsOf(sum(seed) as nat, 8), 8, SEED_LEN);
  }

  lemma TwoRuns(bs: seq<nat>, ns: seq<nat>, check: seq<nat>, w: nat, k: nat)
    requires |ns| == k && Below(ns, Pow2(w)) && |bs| == k * w + |check| && Bits(bs)
    ensures bs == Flatten(ns, w) + check <==> ns == Group(bs, w, k) && bs[k * w..] == check
  {
    hide Group, Flatten, BitsOf, Pow2, Bits, Below;
    var body := Flatten(ns, w);
    GroupFlatten(ns, w);
    GroupPrefix(body, check, w, k);
    FlattenGroup(bs, w, k);
    assert bs == bs[..k * w] + bs[k * w..];
    assert (body + check)[..k * w] == body && (body + check)[k * w..] == check;
  }

  /** A phrase is accepted, and for this seed, exactly when its words are the seed's words. */
  lemma AcceptedExactly(t: Text, list: seq<string>, phrase: string, seed: Seed, sum: Bytes -> byte)
    requires t.Dictionary(list)
    ensures ToSeed(t, list, phrase, sum) == Ok(seed) <==> t.Normal(phrase) == WordsOf(list, seed, sum)
  {
    hide BitString, WordNumbers, SeedIn, Flatten;
    var words, mine := t.Normal(phrase), WordNumbers(seed, sum);
    LookupChosen(list, words, mine);
    Regrouped(seed, sum, mine);
    SeedOfBits(seed, sum, Flatten(mine, 11));
    match Lookup(list, words)
    case None =>
    case Some(ns) =>
      if |words| == WORDS {
        LookupChosen(list, words, ns);
        Regrouped(seed, sum, ns);
        SeedOfBits(seed, sum, Flatten(ns, 11));
      }
  }

  /** Every seed comes back from its phrase. */
  lemma RoundTrip(t: Text, list: seq<string>, seed: Seed, sum: Bytes -> byte)
    requires t.Dictionary(list)
    ensures ToSeed(t, list, FromSeed(list, seed, sum), sum) == Ok(seed)
  {
    var ws := WordsOf(list, seed, sum);
    NormalOfJoined(t, ws);
    AcceptedExactly(t, list, Joined(ws), seed, sum);
  }

  // ----- the loops -----

  method AppendBits(dst: seq<nat>, b: nat, n: nat) returns (out: seq<nat>)
    ensures out == dst + BitsOf(b, n)
  {
    out := dst;
    for i := n downto 0
      invariant out == dst + BitsOf(Shift(b, i), n - i)
    {
      assert BitsOf(Shift(b, i), n - i) == BitsOf(Shift(b, i + 1), n - i - 1) + [Shift(b, i) % 2];
      out := out + [Shift(b, i) % 2];
    }
  }

  lemma {:induction false} BitAt(v: nat, n: nat, j: nat)
    requires j < n
    ensures BitsOf(v, n)[j] == Shift(v, n - 1 - j) % 2
  {
    if j < n - 1 {
      BitAt(v / 2, n - 1, j);
      ShiftFirst(v, n - 1 - j);
    }
  }

  lemma {:induction false} ShiftFirst(v: nat, i: nat)
    requires i > 0
    ensures Shift(v, i) == Shift(v / 2, i - 1)
  {
    if i > 1 {
      ShiftFirst(v, i - 1);
    }
  }

  /** High bits followed by low bits. */
  lemma {:induction false} TwoParts(h: nat, l: nat, m: nat, n: nat)
    requires l < Pow2(n)
    ensures BitsOf(h * Pow2(n) + l, m + n) == BitsOf(h, m) + BitsOf(l, n)
  {
    hide BitsOf, Pow2;
    if n == 0 {
      BitSteps(l, [], 0, 0);
    } else {
      BitSteps(l, [], 0, n - 1);
      TwoParts(h, l / 2, m, n - 1);
      Doubled(h, Pow2(n - 1));
      BitSteps(h * Pow2(n) + l, [], 0, m + n - 1);
      Halved(h * Pow2(n - 1), l);
    }
  }

  lemma Doubled(h: nat, p: nat)
    ensures h * (2 * p) == 2 * (h * p)
  {
  }

  lemma Halved(a: nat, l: nat)
    ensures (2 * a + l) / 2 == a + l / 2 && (2 * a + l) % 2 == l % 2
  {
  }

  method NumberAt(bits: seq<nat>, start: nat, w: nat) returns (v: nat)
    requires start + w <= |bits|
    ensures v == Number(bits[start..start + w])
  {
    v := 0;
    for j := 0 to w
      invariant v == Number(bits[start..start + j])
    {
      assert bits[start..start + j + 1] == bits[start..start + j] + [bits[start + j]];
      BitSteps(0, bits[start..start + j], bits[start + j], 0);
      v := v * 2 + bits[start + j];
    }
  }

  method SeedBits(seed: Seed, sum: Bytes -> byte) returns (bits: seq<nat>)
    ensures bits == BitString(seed, sum)
  {
    hide BitsOf, Number, Pow2, Flatten;
    var ns := Numbers(seed);
    bits := [];
    FlattenStep([], 0, 8);
    for i := 0 to SEED_LEN
      invariant bits == Flatten(ns[..i], 8)
    {
      bits := AppendBits(bits, seed[i] as nat, 8);
      FlattenStep(ns[..i], ns[i], 8);
      assert ns[..i + 1] == ns[..i] + [ns[i]];
    }
    assert ns[..SEED_LEN] == ns;
    bits := AppendBits(bits, sum(seed) as nat, 8);
  }

  lemma JoinedNext(ws: seq<string>, w: string)
    ensures Joined(ws + [w]) == if ws == [] then w else Joined(ws) + " " + w
  {
    assert (ws + [w])[..|ws|] == ws && (ws + [w])[|ws|] == w;
  }

  lemma ChosenNext(list: seq<string>, ns: seq<nat>, n: nat)
    requires Below(ns, |list|) && n < |list|
    ensures Chosen(list, ns + [n]) == Chosen(list, ns) + [list[n]]
  {
    assert (ns + [n])[..|ns|] == ns;
  }

  lemma JoinedStart(list: seq<string>, ns: seq<nat>)
    requires Below(ns, |list|)
    ensures Joined(Chosen(list, ns[..0])) == ""
  {
  }

  lemma NextWord(list: seq<string>, ns: seq<nat>, i: nat)
    requires Below(ns, |list|) && i < |ns|
    ensures Joined(Chosen(list, ns[..i + 1]))
         == if i == 0 then list[ns[i]] else Joined(Chosen(list, ns[..i])) + " " + list[ns[i]]
  {
    hide Joined;
    assert ns[..i + 1] == ns[..i] + [ns[i]];
    ChosenNext(list, ns[..i], ns[i]);
    hide Chosen;
    JoinedNext(Chosen(list, ns[..i]), list[ns[i]]);
  }

  /** The words of k groups of w bits. */
  method WriteWords(list: seq<string>, bits: seq<nat>, w: nat, k: nat) returns (phrase: string)
    requires k * w <= |bits| && Below(Group(bits, w, k), |list|)
    ensures phrase == Joined(Chosen(list, Group(bits, w, k)))
  {
    hide Number, Group, Joined, Chosen;
    ghost var numbers := Group(bits, w, k);
    phrase := "";
    JoinedStart(list, numbers);
    for i := 0 to k
      invariant phrase == Joined(Chosen(list, numbers[..i]))
    {
      GroupAt(bits, w, k, i);
      var idx := NumberAt(bits, i * w, w);
      NextWord(list, numbers, i);
      if i == 0 {
        phrase := list[idx];
      } else {
        phrase := phrase + " " + list[idx];
      }
    }
    assert numbers[..k] == numbers;
  }

  method EncodeSeed(list: seq<string>, seed: Seed, sum: Bytes -> byte) returns (phrase: string)
    requires |list| == LIST_LEN
    ensures phrase == FromSeed(list, seed, sum)
  {
    var bits := SeedBits(seed, sum);
    assert WordNumbers(seed, sum) == Group(bits, 11, WORDS);
    hide Group, BitString, WordNumbers;
    phrase := WriteWords(list, bits, 11, WORDS);
  }

  lemma {:induction false} GroupAt(bs: seq<nat>, w: nat, k: nat, i: nat)
    requires k * w <= |bs| && i < k
    ensures i * w + w <= |bs| && Group(bs, w, k)[i] == Number(bs[i * w..i * w + w])
  {
    GroupStep(bs, w, k - 1);
    if i < k - 1 {
      GroupAt(bs, w, k - 1, i);
    }
  }

  lemma LowByte(v: nat, m: nat, n: nat)
    requires Pow2(n) == 256
    ensures BitsOf(v, m + n) == BitsOf(v / 256, m) + BitsOf(v % 256, n)
  {
    hide BitsOf, Pow2;
    TwoParts(v / 256, v % 256, m, n);
  }

  lemma ElevenBits(i: nat)
    ensures BitsOf(i, 11) == BitsOf(i / 256, 3) + BitsOf(i % 256, 8)
  {
    hide BitsOf, Pow2;
    EightBits();
    LowByte(i, 3, 8);
  }

  /** The bits of the words, 3 and 8 at a time. */
  method ReadBits(list: seq<string>, words: seq<string>) returns (bits: Option<seq<nat>>)
    requires |list| == LIST_LEN
    ensures match Lookup(list, words)
            case None => bits == None
            case Some(ns) => bits == Some(Flatten(ns, 11))
  {
    hide BitsOf, Number, Pow2;
    var bs: seq<nat> := [];
    ghost var found: seq<nat> := [];
    for k := 0 to |words|
      invariant Lookup(list, words[..k]) == Some(found) && bs == Flatten(found, 11)
    {
      assert words[..k + 1][..k] == words[..k];
      var i := IndexIn(list, words[k]);
      if i == |list| {
        NotFound(list, words, k + 1);
        return None;
      }
      ElevenBits(i);
      FlattenStep(found, i, 11);
      bs := AppendBits(bs, i / 256, 3);
      bs := AppendBits(bs, i % 256, 8);
      found := found + [i];
    }
    assert words[..|words|] == words;
    bits := Some(bs);
  }

  method ReadSeed(bits: seq<nat>) returns (seed: Seed)
    requires |bits| == 264 && Bits(bits)
    ensures seed == SeedIn(bits)
  {
    FlattenGroup(bits, 8, SEED_LEN);
    EightBits();
    hide BitsOf, Number, Pow2, Group;
    var bytes: Bytes := [];
    for i := 0 to SEED_LEN
      invariant |bytes| == i && forall j :: 0 <= j < i ==> bytes[j] as nat == Group(bits, 8, SEED_LEN)[j]
    {
      GroupAt(bits, 8, SEED_LEN, i);
      var b := NumberAt(bits, i * 8, 8);
      bytes := bytes + [b as byte];
    }
    seed := bytes;
    assert seed == SeedIn(bits);
  }

  method ChecksumFits(bits: seq<nat>, check: nat) returns (b: bool)
    requires |bits| == 264
    ensures b == (bits[256..] == BitsOf(check, 8))
  {
    for j := 0 to 8
      invariant forall i :: 0 <= i < j ==> bits[256 + i] == BitsOf(check, 8)[i]
    {
      BitAt(check, 8, j);
      if bits[256 + j] != Shift(check, 7 - j) % 2 {
        assert bits[256..][j] != BitsOf(check, 8)[j];
        return false;
      }
    }
    return true;
  }

  method DecodePhrase(t: Text, list: seq<string>, phrase: string, sum: Bytes -> byte)
    returns (r: Result<Seed, Error>)
    requires |list| == LIST_LEN
    ensures r == ToSeed(t, list, phrase, sum)
  {
    hide BitsOf, Flatten, SeedIn;
    var words := t.Normal(phrase);
    if |words| != WORDS {
      return Err(WordCount);
    }
    var bits := ReadBits(list, words);
    if bits.None? {
      return Err(UnknownWord);
    }
    var seed := ReadSeed(bits.value);
    var fits := ChecksumFits(bits.value, sum(seed) as nat);
    r := if fits then Ok(seed) else Err(Checksum);
  }

  lemma EightBits()
    ensures Pow2(8) == 256
  {
  }

  lemma {:induction false} NotFound(list: seq<string>, ws: seq<string>, k: nat)
    requires k <= |ws| && Lookup(list, ws[..k]).None?
    ensures Lookup(list, ws).None?
  {
    if k == |ws| {
      assert ws[..k] == ws;
    } else {
      assert ws[..|ws| - 1][..k] == ws[..k];
      NotFound(list, ws[..|ws| - 1], k);
    }
  }
}
