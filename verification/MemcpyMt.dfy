/**
 The multi-threaded memcpy: the partition into chunks, and threads that copy theirs byte by byte
 while the main thread is still starting or already joining others.
 */
module MemcpyMt {
  import opened Basics

  datatype Config = Config(threads: nat, warmups: nat, iterations: nat, src: seq<Byte>)

  /** The division by n_threads needs one. */
  predicate Valid(k: Config) { k.threads >= 1 }

  // ---------------------------------------------------------------- the partition

  function ChunkSize(size: nat, threads: nat): nat
    requires threads >= 1
  {
    size / threads
  }

  function ChunkStart(size: nat, threads: nat, t: nat): nat
    requires threads >= 1
  {
    t * ChunkSize(size, threads)
  }

  function ChunkEnd(size: nat, threads: nat, t: nat): nat
    requires threads >= 1
  {
    if t == threads - 1 then size else ChunkStart(size, threads, t) + ChunkSize(size, threads)
  }

  lemma Times(a: nat, b: nat, c: nat)
    requires a <= b
    ensures a * c <= b * c
  {
  }

  lemma Quotient(size: nat, threads: nat)
    requires threads >= 1
    ensures threads * (size / threads) <= size
  {
  }

  /** Neither end of a chunk lies beyond the data, so no product or sum here exceeds data_size. */
  lemma ChunkInside(size: nat, threads: nat, t: nat)
    requires t < threads
    ensures ChunkStart(size, threads, t) <= ChunkEnd(size, threads, t) <= size
    ensures t < threads - 1 ==> ChunkEnd(size, threads, t) == ChunkStart(size, threads, t + 1)
  {
    var c := ChunkSize(size, threads);
    Quotient(size, threads);
    Times(t, threads, c);
    if t < threads - 1 {
      Times(t + 1, threads, c);
      assert (t + 1) * c == t * c + c;
    }
  }

  /** Chunks are as large as an equal share can be: c bytes each, with threads * c but not
      threads * (c + 1) bytes in the data, and the last one takes what is left. */
  lemma ChunksAre(size: nat, threads: nat) returns (c: nat)
    requires threads >= 1
    ensures threads * c <= size < threads * (c + 1)
    ensures forall t :: 0 <= t < threads - 1 ==>
      ChunkEnd(size, threads, t) == ChunkStart(size, threads, t) + c
    ensures ChunkStart(size, threads, 0) == 0
    ensures ChunkStart(size, threads, threads - 1) == size - c - size % threads
    ensures ChunkEnd(size, threads, threads - 1) == size
  {
    c := ChunkSize(size, threads);
    Shares(size, threads, c);
  }

  lemma Shares(size: nat, threads: nat, c: nat)
    requires threads >= 1 && c == size / threads
    ensures threads * c + size % threads == size && threads * (c + 1) == threads * c + threads
    ensures (threads - 1) * c == threads * c - c
  {
  }

  predicate InChunk(size: nat, threads: nat, t: nat, p: nat)
    requires threads >= 1
  {
    t < threads && ChunkStart(size, threads, t) <= p < ChunkEnd(size, threads, t)
  }

  /** The thread that copies byte p. With more threads than bytes it is the last one. */
  function Owner(size: nat, threads: nat, p: nat): (t: nat)
    requires threads >= 1
  {
    var c := ChunkSize(size, threads);
    if c == 0 || p / c >= threads then threads - 1 else p / c
  }

  lemma OwnerCopies(size: nat, threads: nat, p: nat)
    requires threads >= 1 && p < size
    ensures InChunk(size, threads, Owner(size, threads, p), p)
  {
    var c := ChunkSize(size, threads);
    if c > 0 {
      DivMod(p, c);
      if p / c >= threads - 1 {
        Times(threads - 1, p / c, c);
      } else {
        assert (p / c + 1) * c == p / c * c + c;
      }
    }
  }

  lemma DivMod(p: nat, c: nat)
    requires c > 0
    ensures p / c * c <= p < p / c * c + c
  {
  }

  lemma OnlyOwnerCopies(size: nat, threads: nat, t: nat, p: nat)
    requires t < threads && InChunk(size, threads, t, p)
    ensures t == Owner(size, threads, p)
  {
    ChunkInside(size, threads, t);
    OwnerCopies(size, threads, p);
    var o := Owner(size, threads, p);
    if t < o {
      ChunksInOrder(size, threads, t, o);
    } else if o < t {
      ChunksInOrder(size, threads, o, t);
    }
  }

  lemma ChunksInOrder(size: nat, threads: nat, s: nat, t: nat)
    requires s < t < threads
    ensures ChunkEnd(size, threads, s) <= ChunkStart(size, threads, t)
  {
    ChunkInside(size, threads, s);
    Times(s + 1, t, ChunkSize(size, threads));
  }

  /** The chunks cover the data, and no byte lies in two of them. */
  lemma ChunksPartition(size: nat, threads: nat, p: nat)
    requires threads >= 1
    ensures p < size <==> exists t :: InChunk(size, threads, t, p)
    ensures forall s, t :: InChunk(size, threads, s, p) && InChunk(size, threads, t, p) ==> s == t
  {
    if p < size {
      OwnerCopies(size, threads, p);
    }
    forall t | InChunk(size, threads, t, p)
      ensures p < size && t == Owner(size, threads, p)
    {
      ChunkInside(size, threads, t);
      OnlyOwnerCopies(size, threads, t, p);
    }
  }
}
