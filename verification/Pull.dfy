/**
 The receiving side of a file transfer, over any run: chunks lost, repeated, reordered or foreign,
 timeouts, shutdowns and crashes. What was written to the file survives a crash, marks survive
 from the last time they were stored.
 */
module Pull {
  import opened Prelude
  import opened Chunks
  import Bitmap

  const WINDOW: nat := 64
  const DIRTY_FLUSH: nat := 64

  /** asked: the windows requested so far. */
  datatype Transfer = Transfer(active: bool, marked: set<nat>, file: Bytes, window: seq<nat>, dirty: nat,
                       stored: set<nat>, done: bool, asked: seq<seq<nat>>)

  const OFFERED: Transfer := Transfer(false, {}, [], [], 0, {}, false, [])

  /** The manifest, its sender and the digest function. */
  datatype Offer = Offer(m: Manifest, peer: PeerId, hash: Bytes -> Bytes)

  function RequestWindow(m: Manifest, p: Transfer): Transfer
    requires m.chunkSize > 0
  {
    var missing := Bitmap.Missing(p.marked, m.Chunks(), WINDOW);
    if missing == [] then p else p.(window := missing, asked := p.asked + [missing])
  }

  predicate WindowDone(p: Transfer) {
    forall i :: i in p.window ==> i in p.marked
  }

  function Persist(p: Transfer): Transfer {
    p.(dirty := 0, stored := p.marked, done := false)
  }

  /** The whole file against its promised digest; either way the pull ends. */
  function Finish(o: Offer, p: Transfer): Transfer {
    if o.hash(p.file) != o.m.hash then Persist(p).(active := false)
    else p.(active := false, stored := p.marked, done := true)
  }

  /** Whether a chunk is written and marked. */
  predicate Accepts(o: Offer, p: Transfer, from: PeerId, c: Chunk) {
    && p.active && from == o.peer && c.id == o.m.id
    && o.m.ChunkLen(c.index) > 0 && c.index !in p.marked
    && OpenChunk(o.m, c.index, c.payload).Some?
    && |OpenChunk(o.m, c.index, c.payload).value| == o.m.ChunkLen(c.index)
  }

  function Marked(o: Offer, p: Transfer, c: Chunk): Transfer
    requires OpenChunk(o.m, c.index, c.payload).Some?
  {
    p.(file := WriteAt(p.file, o.m.Start(c.index), OpenChunk(o.m, c.index, c.payload).value),
       marked := p.marked + {c.index}, dirty := p.dirty + 1)
  }

  function AcceptChunk(o: Offer, p: Transfer, from: PeerId, c: Chunk): Transfer
    requires o.m.chunkSize > 0
  {
    if !Accepts(o, p, from, c) then p
    else
      var q := Marked(o, p, c);
      if q.marked == Bitmap.UpTo(o.m.Chunks()) then Finish(o, q)
      else
        var r := if q.dirty >= DIRTY_FLUSH then Persist(q) else q;
        if WindowDone(r) then RequestWindow(o.m, r) else r
  }

  function StartPull(o: Offer, p: Transfer): Transfer
    requires o.m.chunkSize > 0
  {
    if p.active || p.done then p
    else RequestWindow(o.m, p.(active := true, marked := p.stored, window := [], dirty := 0))
  }

  datatype Event =
    | Arrives(from: PeerId, chunk: Chunk)
    | TimesOut
    | ShutsDown
    | Crashes
    | Starts

  function Step(o: Offer, p: Transfer, e: Event): Transfer
    requires o.m.chunkSize > 0
  {
    match e
    case Arrives(from, c) => AcceptChunk(o, p, from, c)
    case TimesOut => if p.active then RequestWindow(o.m, p) else p
    case ShutsDown => if p.active then Persist(p).(active := false) else p
    case Crashes => p.(active := false)
    case Starts => StartPull(o, p)
  }

  function Run(o: Offer, es: seq<Event>): Transfer
    requires o.m.chunkSize > 0
  {
    if es == [] then OFFERED else Step(o, Run(o, es[..|es| - 1]), es[|es| - 1])
  }

  /** The key of the file is the sender's: what opens under it was cut from the sender's file. */
  predicate Genuine(m: Manifest, source: Bytes, c: Chunk) {
    var p := c.payload;
    p.Sealed? && p.key == m.key && p.id == m.id ==>
      m.End(p.index) <= |source| && p.plain == source[m.Start(p.index)..m.End(p.index)]
  }

  // ----- the invariant -----

  predicate HasChunk(m: Manifest, source: Bytes, file: Bytes, i: nat) {
    && m.End(i) <= |source| && m.End(i) <= |file|
    && file[m.Start(i)..m.End(i)] == source[m.Start(i)..m.End(i)]
  }

  predicate Holds(m: Manifest, source: Bytes, file: Bytes, marked: set<nat>)
    requires m.chunkSize > 0
  {
    forall i :: i in marked ==> i < m.Chunks() && HasChunk(m, source, file, i)
  }

  ghost predicate Inv(o: Offer, source: Bytes, p: Transfer)
    requires o.m.chunkSize > 0
  {
    && |p.file| <= |source|
    && Holds(o.m, source, p.file, p.marked) && Holds(o.m, source, p.file, p.stored)
    && (p.done ==> !p.active && p.file == source && o.hash(source) == o.m.hash)
    && (p.stored == Bitmap.UpTo(o.m.Chunks()) && !p.done ==> o.hash(source) != o.m.hash)
    && (p.active && p.marked == Bitmap.UpTo(o.m.Chunks()) ==> o.hash(source) != o.m.hash)
  }

  /** Writing a chunk of the source keeps every chunk already right, and makes this one right. */
  lemma WriteKeeps(m: Manifest, source: Bytes, file: Bytes, i: nat, j: nat)
    requires m.ChunkLen(i) > 0 && m.End(i) <= |source| && (j == i || HasChunk(m, source, file, j))
    ensures HasChunk(m, source, WriteAt(file, m.Start(i), source[m.Start(i)..m.End(i)]), j)
  {
    var data := source[m.Start(i)..m.End(i)];
    var g := WriteAt(file, m.Start(i), data);
    forall x | m.Start(j) <= x < m.End(j)
      ensures x < |g| && g[x] == source[x]
    {
      if m.Start(i) <= x < m.End(i) {
        assert g[m.Start(i) + (x - m.Start(i))] == data[x - m.Start(i)];
      } else {
        assert file[m.Start(j)..m.End(j)][x - m.Start(j)] == source[m.Start(j)..m.End(j)][x - m.Start(j)];
      }
    }
  }

  lemma WriteHolds(m: Manifest, source: Bytes, file: Bytes, i: nat, marked: set<nat>)
    requires m.chunkSize > 0 && i < m.Chunks() && m.ChunkLen(i) > 0 && m.End(i) <= |source|
    requires Holds(m, source, file, marked)
    ensures Holds(m, source, WriteAt(file, m.Start(i), source[m.Start(i)..m.End(i)]), marked + {i})
  {
    forall j | j in marked + {i}
      ensures j < m.Chunks() && HasChunk(m, source, WriteAt(file, m.Start(i), source[m.Start(i)..m.End(i)]), j)
    {
      WriteKeeps(m, source, file, i, j);
    }
  }

  lemma SameByte(m: Manifest, source: Bytes, file: Bytes, i: nat, x: nat)
    requires HasChunk(m, source, file, i) && InChunk(m, x, i)
    ensures x < |file| && x < |source| && file[x] == source[x]
  {
    hide Manifest.Start, Manifest.ChunkLen;
    var k := x - m.Start(i);
    assert file[m.Start(i)..m.End(i)][k] == source[m.Start(i)..m.End(i)][k];
  }

  /** A complete bitmap means the file is the source. */
  lemma CompleteIsSource(m: Manifest, source: Bytes, file: Bytes, marked: set<nat>)
    requires m.Valid() && |source| == m.size && |file| <= m.size
    requires Holds(m, source, file, marked) && marked == Bitmap.UpTo(m.Chunks())
    ensures file == source
  {
    hide HasChunk, InChunk, Manifest.Chunks;
    var last := Tiling(m, m.size - 1);
    SameByte(m, source, file, last, m.size - 1);
    forall x | 0 <= x < m.size
      ensures x < |file| && file[x] == source[x]
    {
      var i := Tiling(m, x);
      assert i in marked && InChunk(m, x, i);
      SameByte(m, source, file, i, x);
    }
  }

  lemma AcceptKeeps(o: Offer, source: Bytes, p: Transfer, from: PeerId, c: Chunk)
    requires o.m.Valid() && |source| == o.m.size && Inv(o, source, p) && Genuine(o.m, source, c)
    requires c.index < U32
    ensures Inv(o, source, AcceptChunk(o, p, from, c))
    ensures var q := AcceptChunk(o, p, from, c);
      p.active && !q.active ==> q.file == source && (q.done <==> o.hash(source) == o.m.hash)
  {
    if Accepts(o, p, from, c) {
      Lengths(o.m, c.index);
      WriteHolds(o.m, source, p.file, c.index, p.marked);
      WriteHolds(o.m, source, p.file, c.index, p.stored);
      hide WriteAt, HasChunk;
      var q := Marked(o, p, c);
      if q.marked == Bitmap.UpTo(o.m.Chunks()) {
        CompleteIsSource(o.m, source, q.file, q.marked);
      }
    }
  }

  predicate Possible(m: Manifest, source: Bytes, e: Event) {
    e.Arrives? ==> e.chunk.index < U32 && Genuine(m, source, e.chunk)
  }

  /** In every reachable state each marked chunk, and each chunk marked in the store, is the sender's. */
  lemma {:induction false} RunSafe(o: Offer, source: Bytes, es: seq<Event>)
    requires o.m.Valid() && |source| == o.m.size && forall i :: 0 <= i < |es| ==> Possible(o.m, source, es[i])
    ensures Inv(o, source, Run(o, es))
  {
    if es != [] {
      RunSafe(o, source, es[..|es| - 1]);
      var p, e := Run(o, es[..|es| - 1]), es[|es| - 1];
      if e.Arrives? {
        AcceptKeeps(o, source, p, e.from, e.chunk);
      }
    }
  }

  /** A chunk that is accepted raises the count by one; any other changes nothing. */
  lemma AcceptedOnce(o: Offer, p: Transfer, from: PeerId, c: Chunk)
    requires o.m.chunkSize > 0
    ensures var q := AcceptChunk(o, p, from, c);
      if Accepts(o, p, from, c) then |q.marked| == |p.marked| + 1 && !Accepts(o, q, from, c)
      else q == p
  {
  }

  // ----- order does not matter -----

  function DeliverAll(o: Offer, p: Transfer, cs: seq<Chunk>): Transfer
    requires o.m.chunkSize > 0
  {
    if cs == [] then p
    else AcceptChunk(o, DeliverAll(o, p, cs[..|cs| - 1]), o.peer, cs[|cs| - 1])
  }

  /** cs are chunks of the source, in any order and any number. */
  predicate ChunksOf(m: Manifest, source: Bytes, cs: seq<Chunk>)
    requires m.chunkSize > 0
  {
    forall k :: 0 <= k < |cs| ==>
      cs[k].index < m.Chunks() && m.End(cs[k].index) <= |source| && cs[k] == ChunkOf(m, source, cs[k].index)
  }

  function Indexes(cs: seq<Chunk>): set<nat> {
    set c | c in cs :: c.index
  }

  /** The pull ends exactly when everything is marked, and marks depend only on what was delivered. */
  lemma {:induction false} AnyOrder(o: Offer, source: Bytes, p: Transfer, cs: seq<Chunk>)
    requires o.m.Valid() && |source| == o.m.size && Inv(o, source, p) && ChunksOf(o.m, source, cs)
    requires p.active && p.marked != Bitmap.UpTo(o.m.Chunks())
    ensures var q := DeliverAll(o, p, cs);
      && Inv(o, source, q)
      && q.marked == p.marked + Indexes(cs)
      && (q.active <==> q.marked != Bitmap.UpTo(o.m.Chunks()))
      && (!q.active ==> q.file == source && (q.done <==> o.hash(source) == o.m.hash))
  {
    if cs == [] {
      assert Indexes(cs) == {};
    } else {
      hide AcceptChunk, Inv, Genuine, ChunksOf, Indexes, Manifest.Chunks, Manifest.ChunkLen;
      var init, c := cs[..|cs| - 1], cs[|cs| - 1];
      SplitLast(o.m, source, cs);
      AnyOrder(o, source, p, init);
      var q := DeliverAll(o, p, init);
      AcceptKeeps(o, source, q, o.peer, c);
      AcceptMarks(o, source, q, c);
    }
  }

  lemma SplitLast(m: Manifest, source: Bytes, cs: seq<Chunk>)
    requires m.Valid() && cs != [] && ChunksOf(m, source, cs)
    ensures ChunksOf(m, source, cs[..|cs| - 1])
    ensures var c := cs[|cs| - 1];
      && c.index < m.Chunks() && m.End(c.index) <= |source| && c == ChunkOf(m, source, c.index)
      && Genuine(m, source, c) && Indexes(cs) == Indexes(cs[..|cs| - 1]) + {c.index}
  {
    var init, c := cs[..|cs| - 1], cs[|cs| - 1];
    assert cs == init + [c];
    forall i | i in Indexes(init) + {c.index}
      ensures i in Indexes(cs)
    {
      if i in Indexes(init) {
        var d :| d in init && d.index == i;
        assert d in cs;
      } else {
        assert c in cs;
      }
    }
  }

  lemma AcceptMarks(o: Offer, source: Bytes, p: Transfer, c: Chunk)
    requires o.m.Valid() && Inv(o, source, p)
    requires p.active <==> p.marked != Bitmap.UpTo(o.m.Chunks())
    requires c.index < o.m.Chunks() && o.m.End(c.index) <= |source| && c == ChunkOf(o.m, source, c.index)
    ensures var q := AcceptChunk(o, p, o.peer, c);
      q.marked == p.marked + {c.index} && (q.active <==> q.marked != Bitmap.UpTo(o.m.Chunks()))
  {
    Lengths(o.m, c.index);
  }

  // ----- rounds of one request and its answer -----

  /** k rounds in which the last request is answered in full. */
  function Rounds(o: Offer, source: Bytes, p: Transfer, k: nat): Transfer
    requires o.m.chunkSize > 0
  {
    if k == 0 then p
    else
      var q := Rounds(o, source, p, k - 1);
      DeliverAll(o, q, Served(o.m, source, q.window))
  }

  /** The current window is what a fresh request would ask for, and is not empty. */
  predicate Asking(o: Offer, p: Transfer)
    requires o.m.chunkSize > 0
  {
    && p.active && p.window != []
    && p.window == Bitmap.Missing(p.marked, o.m.Chunks(), WINDOW)
  }

  lemma AcceptAsks(o: Offer, source: Bytes, p: Transfer, c: Chunk)
    requires o.m.Valid() && p.active && c.index < o.m.Chunks() && c.index !in p.marked
    requires o.m.End(c.index) <= |source| && c == ChunkOf(o.m, source, c.index)
    ensures var q := AcceptChunk(o, p, o.peer, c);
      var missing := Bitmap.Missing(q.marked, o.m.Chunks(), WINDOW);
      q.active ==> q.window == if WindowDone(q.(window := p.window)) && missing != [] then missing else p.window
  {
    Lengths(o.m, c.index);
    hide WriteAt, Bitmap.Missing, Manifest.Chunks;
  }

  /** The window answered in part. */
  predicate Answers(o: Offer, source: Bytes, p: Transfer, cs: seq<Chunk>)
    requires o.m.chunkSize > 0
  {
    && ChunksOf(o.m, source, cs) && |cs| == |p.window|
    && forall i :: 0 <= i < |cs| ==> cs[i].index == p.window[i]
  }

  lemma MissingFacts(marked: set<nat>, n: nat, limit: nat)
    ensures var w := Bitmap.Missing(marked, n, limit);
      && (forall i :: 0 <= i < |w| ==> w[i] < n && w[i] !in marked)
      && (forall i, j :: 0 <= i < j < |w| ==> w[i] != w[j])
  {
    Bitmap.UnmarkedMeaning(marked, n);
    var all := Bitmap.Unmarked(marked, n);
    assert forall i :: 0 <= i < |all| ==> all[i] in all;
  }

  lemma PrefixIndexes(cs: seq<Chunk>, k: nat, w: seq<nat>)
    requires k <= |cs| == |w| && forall i :: 0 <= i < |cs| ==> cs[i].index == w[i]
    requires forall i, j :: 0 <= i < j < |w| ==> w[i] != w[j]
    ensures forall j :: 0 <= j < |w| ==> (w[j] in Indexes(cs[..k]) <==> j < k)
  {
    forall j | 0 <= j < |w|
      ensures w[j] in Indexes(cs[..k]) <==> j < k
    {
      if w[j] in Indexes(cs[..k]) {
        var c :| c in cs[..k] && c.index == w[j];
        var i :| 0 <= i < k && cs[i] == c;
      }
      if j < k {
        assert cs[j] in cs[..k];
      }
    }
  }

  lemma SomeMissing(o: Offer, source: Bytes, p: Transfer)
    requires o.m.Valid() && Inv(o, source, p) && p.marked != Bitmap.UpTo(o.m.Chunks())
    ensures Bitmap.Missing(p.marked, o.m.Chunks(), WINDOW) != []
  {
    Bitmap.AllOrMissing(p.marked, o.m.Chunks());
  }

  lemma WindowStep(o: Offer, source: Bytes, p: Transfer, r: Transfer, q: Transfer, cs: seq<Chunk>, k: nat)
    requires o.m.Valid() && Answers(o, source, p, cs) && 0 < k <= |cs|
    requires p.window == Bitmap.Missing(p.marked, o.m.Chunks(), WINDOW)
    requires r.active && r.window == p.window && r.marked == p.marked + Indexes(cs[..k - 1])
    requires q == AcceptChunk(o, r, o.peer, cs[k - 1]) && q.marked == p.marked + Indexes(cs[..k])
    requires Inv(o, source, q) && (q.active <==> q.marked != Bitmap.UpTo(o.m.Chunks()))
    ensures k < |cs| ==> q.active && q.window == p.window
    ensures k == |cs| && q.active ==> Asking(o, q)
  {
    MissingFacts(p.marked, o.m.Chunks(), WINDOW);
    PrefixIndexes(cs, k - 1, p.window);
    PrefixIndexes(cs, k, p.window);
    AcceptAsks(o, source, r, cs[k - 1]);
    hide AcceptChunk, Inv, Bitmap.Missing, Manifest.Chunks, Manifest.ChunkLen, Indexes, ChunksOf;
    if k < |cs| {
      assert p.window[k] !in q.marked;
    } else if q.active {
      SomeMissing(o, source, q);
    }
  }

  /** While a part of the window is delivered no new request goes out; with its end one does. */
  lemma {:induction false} WindowStays(o: Offer, source: Bytes, p: Transfer, cs: seq<Chunk>, k: nat)
    requires o.m.Valid() && |source| == o.m.size && Inv(o, source, p) && Asking(o, p)
    requires p.marked != Bitmap.UpTo(o.m.Chunks()) && Answers(o, source, p, cs) && k <= |cs|
    ensures var q := DeliverAll(o, p, cs[..k]);
      && (k < |cs| ==> q.active && q.window == p.window)
      && (k == |cs| && q.active ==> Asking(o, q))
  {
    hide AcceptChunk, Inv, Bitmap.Missing, Manifest.Chunks, Manifest.ChunkLen, Indexes;
    if k > 0 {
      WindowStays(o, source, p, cs, k - 1);
      AnyOrder(o, source, p, cs[..k - 1]);
      AnyOrder(o, source, p, cs[..k]);
      assert cs[..k][..k - 1] == cs[..k - 1] && cs[..k][k - 1] == cs[k - 1];
      WindowStep(o, source, p, DeliverAll(o, p, cs[..k - 1]), DeliverAll(o, p, cs[..k]), cs, k);
    }
  }

  /** A round either ends the transfer or marks a whole window. */
  lemma RoundProgress(o: Offer, source: Bytes, p: Transfer)
    requires o.m.Valid() && |source| == o.m.size && Inv(o, source, p) && Asking(o, p)
    requires p.marked != Bitmap.UpTo(o.m.Chunks())
    ensures var q := DeliverAll(o, p, Served(o.m, source, p.window));
      && Inv(o, source, q)
      && (q.active ==> Asking(o, q) && q.marked != Bitmap.UpTo(o.m.Chunks()) && |q.marked| == |p.marked| + WINDOW)
      && (!q.active ==> q.file == source && (q.done <==> o.hash(source) == o.m.hash))
  {
    hide DeliverAll, Served, AcceptChunk, Indexes, ChunksOf, Inv, HasChunk;
    hide Bitmap.Missing, Bitmap.UpTo, Manifest.Chunks, Manifest.ChunkLen;
    var cs := Served(o.m, source, p.window);
    ServedAnswers(o, source, p);
    assert cs[..|cs|] == cs;
    AnyOrder(o, source, p, cs);
    WindowStays(o, source, p, cs, |cs|);
    var q := DeliverAll(o, p, cs);
    MarkedBelow(o, source, q);
    if q.active {
      RoundCount(o, p, cs);
    }
  }

  lemma ServedAnswers(o: Offer, source: Bytes, p: Transfer)
    requires o.m.Valid() && |source| == o.m.size && Asking(o, p)
    ensures Answers(o, source, p, Served(o.m, source, p.window)) && ChunksOf(o.m, source, Served(o.m, source, p.window))
  {
    MissingFacts(p.marked, o.m.Chunks(), WINDOW);
    ServedAll(o.m, source, p.window);
  }

  lemma MarkedBelow(o: Offer, source: Bytes, p: Transfer)
    requires o.m.Valid() && Inv(o, source, p)
    ensures forall i :: i in p.marked ==> i < o.m.Chunks()
  {
  }

  lemma RoundCount(o: Offer, p: Transfer, cs: seq<Chunk>)
    requires o.m.Valid() && p.window == Bitmap.Missing(p.marked, o.m.Chunks(), WINDOW) && |cs| == |p.window|
    requires forall i :: 0 <= i < |cs| ==> cs[i].index == p.window[i]
    requires forall i :: i in p.marked + Indexes(cs) ==> i < o.m.Chunks()
    requires p.marked + Indexes(cs) != Bitmap.UpTo(o.m.Chunks())
    ensures |p.marked + Indexes(cs)| == |p.marked| + WINDOW
  {
    var w := p.window;
    MissingFacts(p.marked, o.m.Chunks(), WINDOW);
    assert cs[..|cs|] == cs;
    PrefixIndexes(cs, |cs|, w);
    ShortWindow(o, p, Indexes(cs));
    IndexCount(cs, w, |cs|);
    assert p.marked !! Indexes(cs);
    hide Bitmap.Missing, Bitmap.UpTo, Indexes;
    Disjoint(p.marked, Indexes(cs));
  }

  lemma Disjoint(a: set<nat>, b: set<nat>)
    requires a !! b
    ensures |a + b| == |a| + |b|
  {
  }

  lemma {:induction false} IndexCount(cs: seq<Chunk>, w: seq<nat>, k: nat)
    requires k <= |cs| == |w| && forall i :: 0 <= i < |cs| ==> cs[i].index == w[i]
    requires forall i, j :: 0 <= i < j < |w| ==> w[i] != w[j]
    ensures |Indexes(cs[..k])| == k
  {
    if k == 0 {
      assert Indexes(cs[..0]) == {};
    } else {
      IndexCount(cs, w, k - 1);
      PrefixIndexes(cs, k - 1, w);
      assert cs[..k] == cs[..k - 1] + [cs[k - 1]];
      assert Indexes(cs[..k]) == Indexes(cs[..k - 1]) + {w[k - 1]};
    }
  }

  /** A window that is not full holds all that is missing. */
  lemma ShortWindow(o: Offer, p: Transfer, delivered: set<nat>)
    requires o.m.Valid() && p.window == Bitmap.Missing(p.marked, o.m.Chunks(), WINDOW)
    requires forall j :: 0 <= j < |p.window| ==> p.window[j] in delivered
    requires forall i :: i in p.marked + delivered ==> i < o.m.Chunks()
    ensures |p.window| < WINDOW ==> p.marked + delivered == Bitmap.UpTo(o.m.Chunks())
    ensures |p.window| <= WINDOW
  {
    var n := o.m.Chunks();
    Bitmap.UnmarkedMeaning(p.marked, n);
    if |p.window| < WINDOW {
      forall i | i in Bitmap.UpTo(n)
        ensures i in p.marked + delivered
      {
        if i !in p.marked {
          assert i in p.window;
        }
      }
    }
  }

  /** When every request is answered in full, as many rounds as there are windows are enough. */
  lemma {:induction false} TransferCompletes(o: Offer, source: Bytes, p: Transfer, k: nat)
    requires o.m.Valid() && |source| == o.m.size && Inv(o, source, p) && Asking(o, p)
    requires p.marked != Bitmap.UpTo(o.m.Chunks())
    ensures var q := Rounds(o, source, p, k);
      && Inv(o, source, q)
      && (q.active ==> Asking(o, q) && q.marked != Bitmap.UpTo(o.m.Chunks()))
      && (q.active ==> |q.marked| == |p.marked| + k * WINDOW)
      && (|p.marked| + k * WINDOW >= o.m.Chunks() ==> !q.active)
      && (!q.active ==> q.file == source && (q.done <==> o.hash(source) == o.m.hash))
  {
    if k > 0 {
      TransferCompletes(o, source, p, k - 1);
      var q := Rounds(o, source, p, k - 1);
      if q.active {
        RoundProgress(o, source, q);
      } else {
        Ignored(o, q, Served(o.m, source, q.window));
      }
    }
    var q := Rounds(o, source, p, k);
    if q.active {
      Bitmap.AllOrMissing(q.marked, o.m.Chunks());
    }
  }

  lemma {:induction false} Ignored(o: Offer, p: Transfer, cs: seq<Chunk>)
    requires o.m.chunkSize > 0 && !p.active
    ensures DeliverAll(o, p, cs) == p
  {
    if cs != [] {
      Ignored(o, p, cs[..|cs| - 1]);
    }
  }

  /** Once started again and asked again, a pull that is not over waits for a window. */
  lemma Resumed(o: Offer, source: Bytes, p: Transfer)
    requires o.m.Valid() && |source| == o.m.size && Inv(o, source, p) && o.hash(source) == o.m.hash
    ensures var q := Step(o, Step(o, p, Starts), TimesOut);
      && Inv(o, source, q)
      && (if p.done then q == p else Asking(o, q) && q.marked != Bitmap.UpTo(o.m.Chunks()))
  {
    if !p.done {
      var q := StartPull(o, p);
      SomeMissing(o, source, if p.active then p else p.(active := true, marked := p.stored, window := [], dirty := 0));
      SomeMissing(o, source, q);
    }
  }

  /** Whatever happened before, the file arrives whole once enough requests are answered in full. */
  lemma ArrivesWhole(o: Offer, source: Bytes, es: seq<Event>, k: nat)
    requires o.m.Valid() && |source| == o.m.size && forall i :: 0 <= i < |es| ==> Possible(o.m, source, es[i])
    requires o.hash(source) == o.m.hash && k * WINDOW >= o.m.Chunks()
    ensures var q := Rounds(o, source, Step(o, Step(o, Run(o, es), Starts), TimesOut), k);
      q.done && q.file == source
  {
    RunSafe(o, source, es);
    Resumed(o, source, Run(o, es));
    var q := Step(o, Step(o, Run(o, es), Starts), TimesOut);
    if q.done {
      DoneStays(o, source, q, k);
    } else {
      TransferCompletes(o, source, q, k);
    }
  }

  lemma {:induction false} DoneStays(o: Offer, source: Bytes, p: Transfer, k: nat)
    requires o.m.Valid() && !p.active
    ensures Rounds(o, source, p, k) == p
  {
    if k > 0 {
      DoneStays(o, source, p, k - 1);
      Ignored(o, p, Served(o.m, source, p.window));
    }
  }
}
