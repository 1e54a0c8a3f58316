/**
 * Row batching, the one self-contained algorithm of both scripts: the list
 * comprehension `[dataframe[i:i+chunk_size] for i in range(0, len(dataframe), chunk_size)]`
 * of `chunk_data` in main.py, repeated inline in `StoreAnalyzer.analyze_chunks`.
 * A table is a sequence of rows; a chunk ("lot") is a contiguous slice of it.
 */
module Batching {

  /** The chunk size `chunk_data` uses when none is given, and the one main.py passes. */
  const DefaultChunkSize: nat := 100

  function Min(a: int, b: int): int {
    if a <= b then a else b
  }

  /** ceil(n / c): how many starts `range(0, n, c)` yields. */
  function CeilDiv(n: nat, c: nat): (q: nat)
    requires c > 0
    ensures q * c - c < n <= q * c
  {
    var q := (n + c - 1) / c;
    assert (n + c - 1) == q * c + (n + c - 1) % c;
    q
  }

  /**
   * The slices `rows[i:i+c]` for i = start, start + c, start + 2c, ... below |rows|.
   * Python's slice stops at the end of the table, hence the `Min`.
   */
  function ChunksFrom<T>(rows: seq<T>, start: nat, c: nat): seq<seq<T>>
    requires c > 0
    decreases |rows| - start
  {
    if start >= |rows| then []
    else [rows[start..Min(start + c, |rows|)]] + ChunksFrom(rows, start + c, c)
  }

  /** `chunk_data(dataframe, chunk_size)`. */
  function ChunkData<T>(dataframe: seq<T>, chunkSize: nat := DefaultChunkSize): seq<seq<T>>
    requires chunkSize > 0
  {
    ChunksFrom(dataframe, 0, chunkSize)
  }

  /** Concatenation of a sequence of chunks, in order. */
  function Flatten<T>(chunks: seq<seq<T>>): seq<T> {
    if chunks == [] then [] else chunks[0] + Flatten(chunks[1..])
  }

  /** `chunk.head(n)`: the first n rows, or the whole chunk when it is shorter. */
  function Head<T>(chunk: seq<T>, n: nat): (r: seq<T>)
    ensures r <= chunk
    ensures |r| == Min(n, |chunk|)
  {
    chunk[..Min(n, |chunk|)]
  }

  // ---------------------------------------------------------------------
  // Properties of ChunkData

  lemma {:induction false} FlattenChunksFrom<T>(rows: seq<T>, start: nat, c: nat)
    requires c > 0 && start <= |rows|
    ensures Flatten(ChunksFrom(rows, start, c)) == rows[start..]
    decreases |rows| - start
  {
    if start < |rows| {
      var end := Min(start + c, |rows|);
      FlattenChunksFrom(rows, end, c);
      if start + c <= |rows| {
        assert ChunksFrom(rows, start + c, c) == ChunksFrom(rows, end, c);
      } else {
        assert ChunksFrom(rows, start + c, c) == [] == ChunksFrom(rows, end, c);
      }
      assert rows[start..] == rows[start..end] + rows[end..];
    }
  }

  /** Concatenating the chunks in order gives back exactly the table. */
  lemma FlattenChunkData<T>(rows: seq<T>, c: nat)
    requires c > 0
    ensures Flatten(ChunkData(rows, c)) == rows
  {
    FlattenChunksFrom(rows, 0, c);
  }

  lemma {:induction false} ChunksFromCount<T>(rows: seq<T>, start: nat, c: nat)
    requires c > 0 && start <= |rows|
    ensures |ChunksFrom(rows, start, c)| == CeilDiv(|rows| - start, c)
    decreases |rows| - start
  {
    var m := |rows| - start;
    if start < |rows| {
      if start + c <= |rows| {
        ChunksFromCount(rows, start + c, c);
        CeilDivStep(m, c);
      } else {
        CeilDivOne(m, c);
      }
    } else {
      CeilDivZero(c);
    }
  }

  lemma CeilDivZero(c: nat)
    requires c > 0
    ensures CeilDiv(0, c) == 0
  {
    CeilDivUnique(0, c, CeilDiv(0, c), 0);
  }

  lemma CeilDivOne(m: nat, c: nat)
    requires 0 < m <= c
    ensures CeilDiv(m, c) == 1
  {
    CeilDivUnique(m, c, CeilDiv(m, c), 1);
  }

  lemma CeilDivStep(m: nat, c: nat)
    requires 0 < c <= m
    ensures CeilDiv(m, c) == 1 + CeilDiv(m - c, c)
  {
    var p := CeilDiv(m - c, c);
    assert (p + 1) * c == p * c + c;
    CeilDivUnique(m, c, CeilDiv(m, c), p + 1);
  }

  /** Multiplying by a positive size keeps a strict order, with a gap of at least that size. */
  lemma MulStrict(a: int, b: int, c: nat)
    requires c > 0
    ensures a < b ==> a * c + c <= b * c
  {
    var d := b - a;
    assert b * c == a * c + d * c;
    if d >= 1 {
      assert d * c == (d - 1) * c + c;
      assert (d - 1) * c >= 0;
    }
  }

  /** Only one count lies in the window that `CeilDiv`'s contract describes. */
  lemma CeilDivUnique(n: nat, c: nat, q: int, q': int)
    requires c > 0
    requires q * c - c < n <= q * c
    requires q' * c - c < n <= q' * c
    ensures q == q'
  {
    MulStrict(q, q', c);
    MulStrict(q', q, c);
  }

  /** There are ceil(N / C) chunks; in particular an empty table gives none. */
  lemma ChunkDataCount<T>(rows: seq<T>, c: nat)
    requires c > 0
    ensures |ChunkData(rows, c)| == CeilDiv(|rows|, c)
    ensures |ChunkData(rows, c)| == 0 <==> rows == []
  {
    ChunksFromCount(rows, 0, c);
  }

  lemma {:induction false} ChunksFromAt<T>(rows: seq<T>, start: nat, c: nat, k: nat)
    requires c > 0
    requires k < |ChunksFrom(rows, start, c)|
    ensures start + k * c < |rows|
    ensures ChunksFrom(rows, start, c)[k] == rows[start + k * c..Min(start + k * c + c, |rows|)]
    decreases k
  {
    var chunks := ChunksFrom(rows, start, c);
    assert start < |rows|;
    if k > 0 {
      var next := start + c;
      assert chunks[k] == ChunksFrom(rows, next, c)[k - 1];
      ChunksFromAt(rows, next, c, k - 1);
      assert (k - 1) * c + c == k * c;
    }
  }

  /**
   * Chunk k holds rows [k C, min((k + 1) C, N)): it starts at row k C, every
   * chunk but the last has exactly C rows and the last has between 1 and C.
   */
  lemma ChunkDataAt<T>(rows: seq<T>, c: nat, k: nat)
    requires c > 0
    requires k < |ChunkData(rows, c)|
    ensures k * c < |rows|
    ensures ChunkData(rows, c)[k] == rows[k * c..Min(k * c + c, |rows|)]
    ensures 1 <= |ChunkData(rows, c)[k]| <= c
    ensures k + 1 < |ChunkData(rows, c)| ==> |ChunkData(rows, c)[k]| == c
    ensures k + 1 == |ChunkData(rows, c)| ==> |ChunkData(rows, c)[k]| == |rows| - k * c
  {
    ChunksFromAt(rows, 0, c, k);
    if k + 1 < |ChunkData(rows, c)| {
      ChunksFromAt(rows, 0, c, k + 1);
      assert (k + 1) * c == k * c + c;
    } else {
      ChunkDataCount(rows, c);
      var q := |ChunkData(rows, c)|;
      assert q * c - c == k * c;
    }
  }

  /** No chunk is empty. */
  lemma ChunkDataNonEmpty<T>(rows: seq<T>, c: nat)
    requires c > 0
    ensures forall k :: 0 <= k < |ChunkData(rows, c)| ==> ChunkData(rows, c)[k] != []
  {
    forall k | 0 <= k < |ChunkData(rows, c)|
      ensures ChunkData(rows, c)[k] != []
    {
      ChunkDataAt(rows, c, k);
    }
  }

  /** Row k C + i of the table, for i < C, is position i of chunk k. */
  lemma ChunkDataHolds<T>(rows: seq<T>, c: nat, k: nat, i: nat)
    requires c > 0 && i < c && k * c + i < |rows|
    ensures k < |ChunkData(rows, c)| && i < |ChunkData(rows, c)[k]|
    ensures ChunkData(rows, c)[k][i] == rows[k * c + i]
  {
    ChunkDataCount(rows, c);
    var q := |ChunkData(rows, c)|;
    MulStrict(q, k, c);
    ChunkDataAt(rows, c, k);
  }

  /** Row j of the table is at position j % C of chunk j / C. */
  lemma ChunkDataRowLocation<T>(rows: seq<T>, c: nat, j: nat)
    requires c > 0 && j < |rows|
    ensures j / c < |ChunkData(rows, c)| && j % c < |ChunkData(rows, c)[j / c]|
    ensures ChunkData(rows, c)[j / c][j % c] == rows[j]
  {
    var k, i := j / c, j % c;
    assert j == k * c + i;
    ChunkDataHolds(rows, c, k, i);
  }

  /** Position i of chunk k is row k C + i of the table. */
  lemma ChunkDataCellLocation<T>(rows: seq<T>, c: nat, k: nat, i: nat)
    requires c > 0 && k < |ChunkData(rows, c)| && i < |ChunkData(rows, c)[k]|
    ensures k * c + i < |rows| && i < c
    ensures ChunkData(rows, c)[k][i] == rows[k * c + i]
  {
    ChunkDataAt(rows, c, k);
  }

  /**
   * Chunks do not overlap: two positions of the chunking that hold the same
   * table row are the same position. (That every row is held by one of them
   * is `ChunkDataRowLocation`.)
   */
  lemma ChunkDataDisjoint<T>(rows: seq<T>, c: nat, k: nat, i: nat, k': nat, i': nat)
    requires c > 0
    requires k < |ChunkData(rows, c)| && i < |ChunkData(rows, c)[k]|
    requires k' < |ChunkData(rows, c)| && i' < |ChunkData(rows, c)[k']|
    ensures k * c + i == k' * c + i' <==> k == k' && i == i'
  {
    ChunkDataAt(rows, c, k);
    ChunkDataAt(rows, c, k');
    MulStrict(k, k', c);
    MulStrict(k', k, c);
  }

  /** The sizes of the chunks add up to N. */
  lemma {:induction false} FlattenLength<T>(chunks: seq<seq<T>>)
    ensures |Flatten(chunks)| == SumOfLengths(chunks)
  {
    if chunks != [] {
      FlattenLength(chunks[1..]);
    }
  }

  function SumOfLengths<T>(chunks: seq<seq<T>>): nat {
    if chunks == [] then 0 else |chunks[0]| + SumOfLengths(chunks[1..])
  }

  lemma ChunkDataSizes<T>(rows: seq<T>, c: nat)
    requires c > 0
    ensures SumOfLengths(ChunkData(rows, c)) == |rows|
  {
    FlattenChunkData(rows, c);
    FlattenLength(ChunkData(rows, c));
  }

  /** The run main.py makes on a 250-row table with the default size: lots of 100, 100 and 50 rows. */
  lemma TwoHundredFiftyRows<T>(rows: seq<T>)
    requires |rows| == 250
    ensures |ChunkData(rows)| == 3
    ensures |ChunkData(rows)[0]| == 100 && |ChunkData(rows)[1]| == 100 && |ChunkData(rows)[2]| == 50
  {
    ChunkDataCount(rows, DefaultChunkSize);
    CeilDivUnique(250, 100, CeilDiv(250, 100), 3);
    ChunkDataAt(rows, DefaultChunkSize, 0);
    ChunkDataAt(rows, DefaultChunkSize, 1);
    ChunkDataAt(rows, DefaultChunkSize, 2);
  }
}
