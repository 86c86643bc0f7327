/** How `main` divides the ordinals [0, total) among the worker threads:
    equal chunks of `total / numThreads`, the last thread taking the
    remainder as well. */
module Chunking {
  /** The half-open ordinal range [start, end) of one thread. */
  datatype Range = Range(start: nat, end: nat)

  ghost predicate InRange(r: Range, i: nat)
  {
    r.start <= i < r.end
  }

  /** The ranges are non-empty in number, start at 0, end at total, and
      each starts where the previous one ends. */
  ghost predicate Tiles(ranges: seq<Range>, total: nat)
  {
    |ranges| >= 1 && ranges[0].start == 0 && ranges[|ranges| - 1].end == total &&
    (forall t :: 0 <= t < |ranges| ==> ranges[t].start <= ranges[t].end) &&
    (forall t :: 0 <= t < |ranges| - 1 ==> ranges[t].end == ranges[t + 1].start)
  }

  lemma MulMono(a: nat, b: nat, c: nat)
    requires a <= b
    ensures a * c <= b * c
  {
  }

  lemma MulSucc(t: nat, c: nat)
    ensures (t + 1) * c == t * c + c
  {
  }

  /** The equal chunks fit: `t * chunk + chunk <= total` for every thread t. */
  lemma ChunksFit(total: nat, numThreads: nat, t: nat)
    requires numThreads >= 1 && t < numThreads
    ensures t * (total / numThreads) + total / numThreads <= total
  {
    var c := total / numThreads;
    MulMono(t + 1, numThreads, c);
    MulSucc(t, c);
  }

  /** The last thread's range, from `(numThreads - 1) * chunk` to total,
      holds a chunk plus the remainder. */
  lemma LastChunk(total: nat, numThreads: nat)
    requires numThreads >= 1
    ensures total - (numThreads - 1) * (total / numThreads) == total / numThreads + total % numThreads
  {
    MulSucc(numThreads - 1, total / numThreads);
  }

  /** Thread t's range: [t * chunk, t * chunk + chunk), except that the
      last thread's range ends at total. */
  ghost function Chunk(total: nat, numThreads: nat, t: nat): Range
    requires numThreads >= 1
  {
    var chunkSize := total / numThreads;
    Range(t * chunkSize, if t == numThreads - 1 then total else t * chunkSize + chunkSize)
  }

  /** The partition loop of `main`, producing each thread's range in
      thread order. */
  method Partition(total: nat, numThreads: nat) returns (ranges: seq<Range>)
    requires numThreads >= 1
    ensures |ranges| == numThreads
    ensures Tiles(ranges, total)
    ensures forall t :: 0 <= t < numThreads - 1 ==> ranges[t].end - ranges[t].start == total / numThreads
    ensures ranges[numThreads - 1].end - ranges[numThreads - 1].start == total / numThreads + total % numThreads
  {
    var chunkSize := total / numThreads;
    ranges := [];
    for t := 0 to numThreads
      invariant |ranges| == t
      invariant forall u :: 0 <= u < t ==> ranges[u] == Chunk(total, numThreads, u)
    {
      var start := t * chunkSize;
      var end := if t == numThreads - 1 then total else start + chunkSize;
      ranges := ranges + [Range(start, end)];
    }
    ChunksTile(total, numThreads, ranges);
  }

  /** The chunks of all threads, in thread order, tile [0, total): each
      holds `total / numThreads` ordinals, the last one also the remainder. */
  lemma ChunksTile(total: nat, numThreads: nat, ranges: seq<Range>)
    requires numThreads >= 1 && |ranges| == numThreads
    requires forall u :: 0 <= u < numThreads ==> ranges[u] == Chunk(total, numThreads, u)
    ensures Tiles(ranges, total)
    ensures forall t :: 0 <= t < numThreads - 1 ==> ranges[t].end - ranges[t].start == total / numThreads
    ensures ranges[numThreads - 1].end - ranges[numThreads - 1].start == total / numThreads + total % numThreads
  {
    var chunkSize := total / numThreads;
    forall t | 0 <= t < numThreads
      ensures ranges[t].start <= ranges[t].end
    {
      ChunksFit(total, numThreads, t);
    }
    forall t | 0 <= t < numThreads - 1
      ensures ranges[t].end == ranges[t + 1].start
    {
      MulSucc(t, chunkSize);
    }
    LastChunk(total, numThreads);
  }

  /** Ranges that tile are ordered: an earlier range ends no later than a
      later one starts. */
  lemma {:induction false} TilesOrdered(ranges: seq<Range>, total: nat, t: nat, u: nat)
    requires Tiles(ranges, total) && t < u < |ranges|
    ensures ranges[t].end <= ranges[u].start
    decreases u - t
  {
    if t + 1 < u {
      TilesOrdered(ranges, total, t + 1, u);
    }
  }

  /** Ordinal i lies in some range exactly when i < total. */
  lemma {:induction false} TilesCover(ranges: seq<Range>, total: nat, i: nat)
    requires Tiles(ranges, total)
    ensures (exists t :: 0 <= t < |ranges| && InRange(ranges[t], i)) <==> i < total
  {
    if i < total {
      CoverPrefix(ranges, total, i, |ranges| - 1);
    } else {
      forall t | 0 <= t < |ranges|
        ensures !InRange(ranges[t], i)
      {
        if t < |ranges| - 1 {
          TilesOrdered(ranges, total, t, |ranges| - 1);
        }
      }
    }
  }

  /** Below the end of range u, i lies in one of the ranges up to u. */
  lemma {:induction false} CoverPrefix(ranges: seq<Range>, total: nat, i: nat, u: nat)
    requires Tiles(ranges, total) && u < |ranges| && i < ranges[u].end
    ensures exists t :: 0 <= t <= u && InRange(ranges[t], i)
    decreases u
  {
    if i < ranges[u].start {
      CoverPrefix(ranges, total, i, u - 1);
    } else {
      assert InRange(ranges[u], i);
    }
  }

  /** No ordinal lies in two ranges. */
  lemma TilesDisjoint(ranges: seq<Range>, total: nat, i: nat, t: nat, u: nat)
    requires Tiles(ranges, total) && t < |ranges| && u < |ranges|
    requires InRange(ranges[t], i) && InRange(ranges[u], i)
    ensures t == u
  {
    if t < u {
      TilesOrdered(ranges, total, t, u);
    } else if u < t {
      TilesOrdered(ranges, total, u, t);
    }
  }
}
