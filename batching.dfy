/**
 * Batch arithmetic shared by the admin engine, the two WP-CLI commands and the
 * unit-test double: the batch-size clamp, ceiling division, offset paging of an
 * ordered id list (WP_Query with `posts_per_page` and `offset`/`paged`) and
 * PHP's `array_chunk`.
 */
module Batching {

  const MinBatchSize := 1
  const MaxBatchSize := 100
  const DefaultBatchSize := 10

  /** `max( 1, min( 100, $batch_size ) )`: any requested size is pulled into [1, 100]. */
  function ClampBatchSize(requested: int): (b: int)
    ensures MinBatchSize <= b <= MaxBatchSize
    ensures MinBatchSize <= requested <= MaxBatchSize ==> b == requested
    ensures requested < MinBatchSize ==> b == MinBatchSize
    ensures requested > MaxBatchSize ==> b == MaxBatchSize
  {
    if requested < MinBatchSize then MinBatchSize
    else if requested > MaxBatchSize then MaxBatchSize
    else requested
  }

  /** Number of batches of size `b` needed to cover `n` items. */
  function CeilDiv(n: int, b: int): (k: nat)
    requires b >= 1
    decreases n
  {
    if n <= 0 then 0 else 1 + CeilDiv(n - b, b)
  }

  /** `CeilDiv` is the least k with n <= k * b. */
  lemma {:induction false} CeilDivBounds(n: nat, b: int)
    requires b >= 1
    ensures CeilDiv(n, b) * b >= n
    ensures n > 0 ==> (CeilDiv(n, b) - 1) * b < n
  {
    if n > b {
      CeilDivBounds(n - b, b);
      var k := CeilDiv(n - b, b);
      assert CeilDiv(n, b) == k + 1;
      assert (k + 1) * b == k * b + b;
    } else if n > 0 {
      assert CeilDiv(n - b, b) == 0;
    }
  }

  /** Any j with (j - 1) * b < n <= j * b is the batch count. */
  lemma {:induction false} CeilDivUnique(n: int, b: int, j: int)
    requires b >= 1 && j >= 1
    requires (j - 1) * b < n <= j * b
    ensures CeilDiv(n, b) == j
  {
    if j > 1 {
      assert (j - 2) * b == (j - 1) * b - b;
      assert (j - 1) * b == j * b - b;
      CeilDivUnique(n - b, b, j - 1);
    } else {
      assert n - b <= 0;
    }
  }

  /** The last of the `CeilDiv(n, b)` batches starts inside the list and reaches its end. */
  lemma LastBatchOffset(n: int, b: int)
    requires n > 0 && b >= 1
    ensures CeilDiv(n, b) >= 1
    ensures (CeilDiv(n, b) - 1) * b < n <= (CeilDiv(n, b) - 1) * b + b
  {
    CeilDivBounds(n, b);
    var k := CeilDiv(n, b);
    assert (k - 1) * b + b == k * b;
  }

  /** Fewer than `CeilDiv(n, b)` batches leave items uncovered, and only then. */
  lemma {:induction false} CeilDivBelow(n: int, b: int, j: int)
    requires b >= 1 && j >= 0
    ensures j < CeilDiv(n, b) <==> j * b < n
    decreases j
  {
    if n <= 0 {
      assert j * b >= 0;
    } else if j > 0 {
      CeilDivBelow(n - b, b, j - 1);
      assert (j - 1) * b == j * b - b;
    }
  }

  /**
   * The page WP_Query returns for `posts_per_page => limit, offset => offset`
   * over the ordered result list `ids`.
   */
  function Page(ids: seq<int>, offset: int, limit: int): (page: seq<int>)
    requires offset >= 0 && limit >= 1
    ensures |page| <= limit
    ensures offset + limit <= |ids| ==> |page| == limit
    ensures offset < |ids| <= offset + limit ==> |page| == |ids| - offset
    ensures offset >= |ids| ==> page == []
    ensures forall i :: 0 <= i < |page| ==> offset + i < |ids| && page[i] == ids[offset + i]
  {
    if offset >= |ids| then []
    else if offset + limit <= |ids| then ids[offset..offset + limit]
    else ids[offset..]
  }

  /** The offset WP_Query skips for `paged => paged` with `posts_per_page => limit`. */
  function PageOffset(paged: int, limit: int): int
  {
    (paged - 1) * limit
  }

  /** The next page starts one page further on. */
  lemma PageOffsetNext(paged: int, limit: int)
    ensures PageOffset(paged + 1, limit) == PageOffset(paged, limit) + limit
  {
  }

  /** PHP's `array_chunk( $xs, $size )`. */
  function Chunk<T>(xs: seq<T>, size: int): (chunks: seq<seq<T>>)
    requires size >= 1
    ensures forall i :: 0 <= i < |chunks| ==> 1 <= |chunks[i]| <= size
    ensures forall i :: 0 <= i < |chunks| - 1 ==> |chunks[i]| == size
    decreases |xs|
  {
    if |xs| == 0 then []
    else if |xs| <= size then [xs]
    else [xs[..size]] + Chunk(xs[size..], size)
  }

  /** Concatenation of a list of lists. */
  function Flatten<T>(chunks: seq<seq<T>>): seq<T>
  {
    if |chunks| == 0 then [] else chunks[0] + Flatten(chunks[1..])
  }

  lemma {:induction false} FlattenSnoc<T>(chunks: seq<seq<T>>, c: seq<T>)
    ensures Flatten(chunks + [c]) == Flatten(chunks) + c
  {
    if |chunks| == 0 {
      assert chunks + [c] == [c];
    } else {
      assert (chunks + [c])[1..] == chunks[1..] + [c];
      FlattenSnoc(chunks[1..], c);
    }
  }

  /** Concatenating the chunks gives back the original list. */
  lemma {:induction false} ChunkFlatten<T>(xs: seq<T>, size: int)
    requires size >= 1
    ensures Flatten(Chunk(xs, size)) == xs
    decreases |xs|
  {
    if |xs| == 0 {
    } else if |xs| <= size {
      assert Flatten([xs]) == xs + Flatten([xs][1..]);
    } else {
      var rest := Chunk(xs[size..], size);
      ChunkFlatten(xs[size..], size);
      assert ([xs[..size]] + rest)[1..] == rest;
      assert xs[..size] + xs[size..] == xs;
    }
  }

  /** `array_chunk` produces exactly ceil(|xs| / size) chunks. */
  lemma {:induction false} ChunkCount<T>(xs: seq<T>, size: int)
    requires size >= 1
    ensures |Chunk(xs, size)| == CeilDiv(|xs|, size)
    decreases |xs|
  {
    if |xs| == 0 {
    } else if |xs| <= size {
      assert CeilDiv(|xs| - size, size) == 0;
    } else {
      ChunkCount(xs[size..], size);
    }
  }
}
