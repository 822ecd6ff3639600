/** How uploadFile cuts a file into chunks: chunk `i` is the byte range
    `[i * CHUNK_SIZE, min(i * CHUNK_SIZE + CHUNK_SIZE, size))`, read with `File.slice`. */
module Chunking {
  import opened VaultTypes

  /** CHUNK_SIZE: one mebibyte. */
  const CHUNK_SIZE: nat := 1_048_576

  function Min(a: int, b: int): int
  {
    if a <= b then a else b
  }

  /** `Blob.slice(start, end)` for non-negative offsets: both offsets are clamped
      to the size of the blob, and an end at or before the start gives an empty blob. */
  function BlobSlice(s: seq<byte>, start: nat, end: nat): (r: seq<byte>)
    ensures |r| <= |s|
    ensures start <= end <= |s| ==> r == s[start..end]
    ensures |s| <= start || end <= start ==> r == []
    ensures start <= |s| <= end ==> r == s[start..]
  {
    var from := Min(start, |s|);
    var to := Min(end, |s|);
    if to <= from then [] else s[from..to]
  }

  /** `start` for chunk `i`. */
  function ChunkStart(i: nat): nat
  {
    i * CHUNK_SIZE
  }

  /** `end` for chunk `i` of a file of `size` bytes. */
  function ChunkEnd(i: nat, size: nat): nat
  {
    Min(ChunkStart(i) + CHUNK_SIZE, size)
  }

  /** The bytes uploadFile reads for chunk `i`. */
  function Chunk(content: seq<byte>, i: nat): (r: seq<byte>)
    ensures |r| <= CHUNK_SIZE
    ensures ChunkStart(i) < |content| ==> r == content[ChunkStart(i)..ChunkEnd(i, |content|)]
    ensures |content| <= ChunkStart(i) ==> r == []
  {
    BlobSlice(content, ChunkStart(i), ChunkEnd(i, |content|))
  }

  /** `ceil(size / CHUNK_SIZE)`: the number of chunks a file of `size` bytes needs. */
  function ChunkCount(size: nat): (n: nat)
    ensures size <= n * CHUNK_SIZE
    ensures 0 < n ==> (n - 1) * CHUNK_SIZE < size
    ensures n == 0 <==> size == 0
  {
    (size + CHUNK_SIZE - 1) / CHUNK_SIZE
  }

  /** `new Blob(parts)`: the parts laid end to end. */
  function Concat(parts: seq<seq<byte>>): seq<byte>
  {
    if |parts| == 0 then [] else Concat(parts[..|parts| - 1]) + parts[|parts| - 1]
  }

  /** The first `n` chunks of a file, in index order. */
  function Chunks(content: seq<byte>, n: nat): seq<seq<byte>>
  {
    seq(n, i requires 0 <= i => Chunk(content, i))
  }

  /** Consecutive chunks of a file of ChunkCount(size) chunks meet exactly: each
      chunk before the last is full, ends where the next starts and is non-empty,
      and a chunk never reaches past a later chunk's start. */
  lemma ChunksAreContiguous(size: nat, i: nat, j: nat)
    requires i < j < ChunkCount(size)
    ensures ChunkEnd(i, size) == ChunkStart(i + 1) == ChunkStart(i) + CHUNK_SIZE
    ensures ChunkEnd(i, size) <= ChunkStart(j) < size
  {
    assert ChunkStart(i + 1) <= ChunkStart(j);
    assert (ChunkCount(size) - 1) * CHUNK_SIZE < size;
  }

  /** The chunk at index `i` extends the first `i` chunks by exactly the next
      bytes of the file. */
  lemma ChunkExtendsPrefix(content: seq<byte>, i: nat)
    ensures content[..Min(ChunkStart(i), |content|)] + Chunk(content, i)
         == content[..Min(ChunkStart(i + 1), |content|)]
  {
    var size := |content|;
    if ChunkStart(i) < size {
      assert ChunkEnd(i, size) == Min(ChunkStart(i + 1), size);
      assert content[..ChunkStart(i)] + content[ChunkStart(i)..ChunkEnd(i, size)]
          == content[..ChunkEnd(i, size)];
    }
  }

  /** The first `k` chunks, laid end to end, are the first `min(k * CHUNK_SIZE, size)` bytes. */
  lemma {:induction false} ChunksFormPrefix(content: seq<byte>, k: nat)
    ensures Concat(Chunks(content, k)) == content[..Min(ChunkStart(k), |content|)]
  {
    if k == 0 {
      assert Chunks(content, 0) == [];
    } else {
      ChunksFormPrefix(content, k - 1);
      assert Chunks(content, k)[..k - 1] == Chunks(content, k - 1);
      ChunkExtendsPrefix(content, k - 1);
    }
  }

  /** With `ChunkCount(size)` chunks, the chunks laid end to end are the whole file. */
  lemma ChunksCoverFile(content: seq<byte>)
    ensures Concat(Chunks(content, ChunkCount(|content|))) == content
  {
    ChunksFormPrefix(content, ChunkCount(|content|));
    assert content[..|content|] == content;
  }

  /** A file of two and a half chunks is cut into two full chunks and a half one. */
  lemma TwoAndAHalfChunks(content: seq<byte>)
    requires |content| == 2 * CHUNK_SIZE + CHUNK_SIZE / 2
    ensures ChunkCount(|content|) == 3
    ensures |Chunk(content, 0)| == CHUNK_SIZE && |Chunk(content, 1)| == CHUNK_SIZE
    ensures |Chunk(content, 2)| == CHUNK_SIZE / 2
    ensures Chunk(content, 3) == []
  {
  }
}
