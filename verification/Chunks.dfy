/** How a file is split into chunks, sealed, served and written back. */
module Chunks {
  import opened Prelude

  const CHUNK_SIZE: nat := 61440
  const MAX_FILE_SIZE: nat := 0x1_0000_0000
  const MAX_CHUNKS: nat := 0x10_0000

  type FileKey = nat

  /** hash is the digest the sender promises for the whole file. */
  datatype Manifest = Manifest(id: Bytes, size: nat, chunkSize: nat, key: FileKey, hash: Bytes) {
    predicate Valid() {
      1 <= size <= MAX_FILE_SIZE && 1 <= chunkSize <= CHUNK_SIZE && Chunks() <= MAX_CHUNKS
    }

    /** In 64-bit words. */
    function Chunks(): nat
      requires chunkSize > 0
    {
      (size + chunkSize - 1) % U64 / chunkSize
    }

    /** Length of chunk index, the last one shorter; 0 beyond the file. In 64-bit words. */
    function ChunkLen(index: nat): nat {
      var off := index * chunkSize % U64;
      if off >= size then 0
      else if size - off > chunkSize then chunkSize
      else size - off
    }

    function Start(index: nat): nat {
      index * chunkSize
    }

    function End(index: nat): nat {
      Start(index) + ChunkLen(index)
    }
  }

  lemma MulLe(a: nat, b: nat, c: nat)
    requires a <= b
    ensures a * c <= b * c
  {
    assert b * c == a * c + (b - a) * c;
  }

  lemma StartFits(m: Manifest, i: nat)
    requires m.Valid() && i < U32
    ensures m.Start(i) < U64 && m.Start(i) % U64 == m.Start(i)
  {
    MulLe(i, U32, m.chunkSize);
  }

  /** A chunk has bytes exactly when its index is below Chunks; none but the last is short. */
  lemma Lengths(m: Manifest, i: nat)
    requires m.Valid() && i < U32
    ensures m.ChunkLen(i) > 0 <==> i < m.Chunks()
    ensures i < m.Chunks() ==> m.End(i) <= m.size
    ensures i < m.Chunks() ==> m.ChunkLen(i) == if i + 1 < m.Chunks() then m.chunkSize else m.size - m.Start(i)
  {
    StartFits(m, i);
    ChunksRound(m, i);
    ChunksRound(m, i + 1);
    assert m.Start(i + 1) == m.Start(i) + m.chunkSize;
  }

  lemma ChunksRound(m: Manifest, i: nat)
    requires m.Valid()
    ensures i < m.Chunks() <==> m.Start(i) < m.size
  {
    var q := m.Chunks();
    var r := (m.size + m.chunkSize - 1) % m.chunkSize;
    assert m.size + m.chunkSize - 1 == q * m.chunkSize + r;
    if i < q {
      MulLe(i + 1, q, m.chunkSize);
      assert (i + 1) * m.chunkSize == i * m.chunkSize + m.chunkSize;
    } else {
      MulLe(q, i, m.chunkSize);
    }
  }

  lemma Order(size: nat, x: nat, q: nat, r: nat, i: nat)
    requires x == q * size + r && r < size
    ensures i * size <= x < i * size + size <==> i == q
  {
    if i < q {
      MulLe(i + 1, q, size);
    } else if i > q {
      MulLe(q + 1, i, size);
    }
    assert (i + 1) * size == i * size + size && (q + 1) * size == q * size + size;
  }

  lemma InOwnChunk(m: Manifest, x: nat, q: nat, r: nat, i: nat)
    requires m.Valid() && x < m.size && i < m.Chunks() && r < m.chunkSize
    requires x == m.Start(q) + r
    ensures q < m.Chunks()
    ensures InChunk(m, x, i) <==> i == q
  {
    ChunksRound(m, q);
    ChunksRound(m, i + 1);
    Lengths(m, i);
    hide Manifest.Chunks, Manifest.ChunkLen;
    Order(m.chunkSize, x, q, r, i);
    assert m.Start(i + 1) == m.Start(i) + m.chunkSize;
  }

  lemma Divide(x: nat, c: nat) returns (q: nat, r: nat)
    requires c > 0
    ensures x == q * c + r && r < c
  {
    q, r := x / c, x % c;
  }

  predicate InChunk(m: Manifest, x: nat, i: nat) {
    m.Start(i) <= x < m.End(i)
  }

  /** Every byte of the file lies in exactly one chunk. */
  lemma Tiling(m: Manifest, x: nat) returns (i: nat)
    requires m.Valid() && x < m.size
    ensures i < m.Chunks()
    ensures forall j: nat :: j < m.Chunks() ==> (InChunk(m, x, j) <==> j == i)
  {
    var q, r := Divide(x, m.chunkSize);
    ChunksRound(m, q);
    i := q;
    forall j: nat | j < m.Chunks()
      ensures InChunk(m, x, j) <==> j == i
    {
      InOwnChunk(m, x, q, r, j);
    }
  }

  // ----- on the wire -----

  /** An AEAD box under a file key, bound to the file and the position. */
  datatype Payload = Sealed(key: FileKey, id: Bytes, index: nat, plain: Bytes) | Junk(raw: Bytes)

  datatype Chunk = Chunk(id: Bytes, index: nat, payload: Payload)

  function OpenChunk(m: Manifest, index: nat, p: Payload): Option<Bytes> {
    if p.Sealed? && p.key == m.key && p.id == m.id && p.index == index then Some(p.plain) else None
  }

  function ChunkOf(m: Manifest, f: Bytes, i: nat): Chunk
    requires m.End(i) <= |f|
  {
    Chunk(m.id, i, Sealed(m.key, m.id, i, f[m.Start(i)..m.End(i)]))
  }

  /** The answer to a request: chunks of the file in order, up to the first that is not there. */
  function Served(m: Manifest, f: Bytes, indexes: seq<nat>): seq<Chunk> {
    if indexes == [] || m.ChunkLen(indexes[0]) == 0 || m.End(indexes[0]) > |f| then []
    else [ChunkOf(m, f, indexes[0])] + Served(m, f, indexes[1..])
  }

  /** Only the peer the file was offered to is served. */
  method ServeRequest(m: Manifest, f: Bytes, offeredTo: PeerId, from: PeerId, indexes: seq<nat>)
    returns (out: seq<Chunk>)
    ensures out == if from == offeredTo then Served(m, f, indexes) else []
  {
    out := [];
    if from != offeredTo {
      return;
    }
    for k := 0 to |indexes|
      invariant Served(m, f, indexes) == out + Served(m, f, indexes[k..])
    {
      var i := indexes[k];
      assert indexes[k..][1..] == indexes[k + 1..];
      var n := m.ChunkLen(i);
      if n == 0 || m.Start(i) + n > |f| {
        return;
      }
      out := out + [ChunkOf(m, f, i)];
    }
  }

  /** Valid requests for the sender's file are answered in full. */
  lemma {:induction false} ServedAll(m: Manifest, f: Bytes, indexes: seq<nat>)
    requires m.Valid() && |f| == m.size && forall k :: 0 <= k < |indexes| ==> indexes[k] < m.Chunks()
    ensures |Served(m, f, indexes)| == |indexes|
    ensures forall k :: 0 <= k < |indexes| ==> m.End(indexes[k]) <= |f|
    ensures forall k :: 0 <= k < |indexes| ==> Served(m, f, indexes)[k] == ChunkOf(m, f, indexes[k])
  {
    if indexes != [] {
      Lengths(m, indexes[0]);
      ServedAll(m, f, indexes[1..]);
    }
  }

  // ----- the file being written -----

  function Zeros(n: nat): (z: Bytes)
    ensures |z| == n
  {
    if n == 0 then [] else Zeros(n - 1) + [0]
  }

  /** A write beyond the end leaves a hole of zeros. */
  function WriteAt(f: Bytes, off: nat, data: Bytes): (g: Bytes)
    ensures data != [] ==> |g| == if |f| < off + |data| then off + |data| else |f|
    ensures data != [] ==> forall k :: 0 <= k < |data| ==> g[off + k] == data[k]
    ensures data != [] ==> forall x :: 0 <= x < |f| && !(off <= x < off + |data|) ==> g[x] == f[x]
  {
    if data == [] then f
    else
      var h := if |f| < off then f + Zeros(off - |f|) else f;
      h[..off] + data + if off + |data| < |h| then h[off + |data|..] else []
  }
}
