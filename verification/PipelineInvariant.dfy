/**
 The pipeline's invariant. The sender is never more than two chunks ahead of the receiver, so the
 slot it fills is not the slot the receiver empties.
 */
module PipelineInvariant {
  import opened Basics
  import opened PipelineClient

  // ---------------------------------------------------------------- chunks

  /** Where chunk i of the data starts: every chunk is as long as the buffer and the data allow. */
  function Offset(k: Config, i: nat): (o: nat)
    requires Valid(k)
    ensures o <= |k.data|
  {
    if i == 0 then 0 else
      var before := Offset(k, i - 1);
      before + Min(|k.data| - before, k.bufferSize)
  }

  /** Chunks -1 and -2 stand for the slots before anything was sent. */
  function ChunkStart(k: Config, i: int): nat
    requires Valid(k)
  {
    if i < 0 then 0 else Offset(k, i)
  }

  function ChunkSize(k: Config, i: int): (n: nat)
    requires Valid(k)
    ensures n <= k.bufferSize && ChunkStart(k, i) + n <= |k.data|
    ensures i >= -1 ==> ChunkStart(k, i) + n == ChunkStart(k, i + 1)
  {
    if i < 0 then 0 else Offset(k, i + 1) - Offset(k, i)
  }

  predicate Shape(k: Config, b: Buffer) {
    |b.sizes| == 2 && |b.bytes| == 2 * k.bufferSize
  }

  function SlotOf(k: Config, i: int): nat { if i % 2 == 0 then 0 else k.bufferSize }

  /** The first n bytes of chunk i are in its slot. */
  predicate HoldsBytes(k: Config, b: Buffer, i: int, n: nat)
    requires Valid(k) && Shape(k, b)
  {
    && n <= ChunkSize(k, i)
    && b.bytes[SlotOf(k, i)..SlotOf(k, i) + n] == k.data[ChunkStart(k, i)..ChunkStart(k, i) + n]
  }

  /** The slot of chunk i holds it, and says how long it is. */
  predicate Holds(k: Config, b: Buffer, i: int)
    requires Valid(k) && Shape(k, b)
  {
    b.sizes[i % 2] == ChunkSize(k, i) && HoldsBytes(k, b, i, ChunkSize(k, i))
  }

  predicate Blank(b: Buffer) {
    && |b.sizes| == 2 && b.sizes[0] == 0 && b.sizes[1] == 0
    && forall x :: 0 <= x < |b.bytes| ==> b.bytes[x] == 0
  }

  /** memset has come to cell j. */
  predicate ZeroedTo(b: Buffer, j: nat) {
    && |b.sizes| == 2 && (j > 0 ==> b.sizes[0] == 0) && (j > 1 ==> b.sizes[1] == 0)
    && forall x :: 0 <= x < |b.bytes| && x + 2 < j ==> b.bytes[x] == 0
  }

  // ---------------------------------------------------------------- local invariants

  predicate SenderOk(k: Config, s: Sender)
    requires Valid(k)
  {
    && s.iter <= k.iterations
    && (s.pc.SDone? ==> s.iter == k.iterations)
    && (s.pc.SBoot? ==> s.iter == 0)
    && (!(s.pc.SBoot? || s.pc.SHead? || s.pc.SDone?) ==> s.iter < k.iterations)
    && (s.pc.SBoot? || s.pc.STruncate? || s.pc.SResize? || s.pc.SZero? ==> k.bench.MmapBench?)
    && (s.pc.SAttach? ==> k.bench.ShmBench?)
    && (s.pc.SZero? ==> s.j <= 2 + 2 * k.bufferSize)
    && (s.pc.SLoop? || s.pc.SBody? || s.pc.SCopy? || s.pc.SPublish? ==>
          s.i <= Pipeline(k) && s.sent == Offset(k, s.i))
    && (s.pc.SBody? || s.pc.SCopy? || s.pc.SPublish? ==> s.i < Pipeline(k))
    && (s.pc.SCopy? || s.pc.SPublish? ==> s.size == ChunkSize(k, s.i) && s.j <= s.size)
    && (s.pc.SPublish? ==> s.j == s.size)
    && (s.pc.SFinish? ==> s.i == Pipeline(k))
  }

  predicate Prefix(k: Config, received: seq<Byte>, n: nat) {
    |received| == |k.data| && n <= |k.data| && received[..n] == k.data[..n]
  }

  predicate ReceiverOk(k: Config, r: Receiver)
    requires Valid(k)
  {
    && r.iter <= k.iterations
    && (r.pc.RDone? ==> r.iter == k.iterations)
    && (r.pc.RBoot? ==> r.iter == 0)
    && (!(r.pc.RBoot? || r.pc.RHead? || r.pc.RDone?) ==> r.iter < k.iterations)
    && (r.pc.RBoot? || r.pc.RAttach? ==> k.bench.MmapBench?)
    && (r.pc.RCreate? || r.pc.RZero? || r.pc.RAlloc? ==> k.bench.ShmBench?)
    && (r.pc.RZero? ==> r.j <= 2 + 2 * k.bufferSize)
    && (r.pc.RBegin? ==> |r.received| == |k.data|)
    && (r.pc.RLoop? || r.pc.RBody? || r.pc.RCopy? || r.pc.RTally? ==>
          && r.i <= Pipeline(k)
          && r.got == ChunkStart(k, r.i - 1)
          && Prefix(k, r.received, r.got))
    && (r.pc.RBody? || r.pc.RCopy? || r.pc.RTally? ==> r.i < Pipeline(k))
    && (r.pc.RCopy? || r.pc.RTally? ==>
          && r.size == ChunkSize(k, r.i - 1) && r.j <= r.size
          && Prefix(k, r.received, r.got + r.j))
    && (r.pc.RTally? ==> r.j == r.size)
    && (r.pc.RFinish? ==> r.received == k.data)
    && |r.delivered| == r.iter
    && (forall t :: 0 <= t < |r.delivered| ==> r.delivered[t] == k.data)
  }

  // ---------------------------------------------------------------- shared memory

  predicate SenderLive(pc: SenderPC) {
    pc.SBegin? || pc.SLoop? || pc.SBody? || pc.SCopy? || pc.SPublish? || pc.SFinish?
  }

  predicate ReceiverLive(pc: ReceiverPC) {
    pc.RAlloc? || pc.RBegin? || pc.RLoop? || pc.RBody? || pc.RCopy? || pc.RTally?
  }

  /** Both sides are in the pipeline of the same iteration. */
  predicate Sharing(c: Client) { SenderLive(c.s.pc) && c.s.iter == c.r.iter }

  /** What the two slots hold, by the sender's progress. */
  predicate Slots(k: Config, b: Buffer, s: Sender)
    requires Valid(k)
  {
    && Shape(k, b)
    && (s.pc.SBegin? || ((s.pc.SLoop? || s.pc.SBody?) && s.i == 0) ==> Blank(b))
    && (!s.pc.SBegin? ==> Holds(k, b, s.i - 1))
    && (s.pc.SLoop? || s.pc.SBody? || s.pc.SFinish? ==> Holds(k, b, s.i - 2))
    && (s.pc.SCopy? || s.pc.SPublish? ==> HoldsBytes(k, b, s.i, s.j))
  }

  predicate Memory(k: Config, c: Client)
    requires Valid(k)
  {
    && (Sharing(c) ==> c.s.map_ < |c.objs| && Slots(k, c.objs[c.s.map_], c.s))
    && (ReceiverLive(c.r.pc) ==> c.r.map_ < |c.objs| && Shape(k, c.objs[c.r.map_]))
    && (Sharing(c) && ReceiverLive(c.r.pc) ==> c.s.map_ == c.r.map_)
  }

  /** The shared memory object of one iteration is created and zeroed by the receiver. */
  predicate ShmNames(k: Config, c: Client)
    requires Valid(k)
  {
    && (c.r.pc.RZero? || ReceiverLive(c.r.pc) ==> c.name == Some(c.r.map_))
    && (c.r.pc.RHead? || c.r.pc.RCreate? || c.r.pc.RDone? ==> c.name == None)
    && (c.r.pc.RZero? ==>
          && c.r.map_ < |c.objs| && Shape(k, c.objs[c.r.map_])
          && ZeroedTo(c.objs[c.r.map_], c.r.j))
    && ((c.r.pc.RAlloc? || c.r.pc.RBegin?) && !Sharing(c) ==>
          c.r.map_ < |c.objs| && Blank(c.objs[c.r.map_]))
  }

  /** The file is one object for all iterations; the sender truncates, resizes and zeroes it. */
  predicate MmapNames(k: Config, c: Client)
    requires Valid(k)
  {
    && c.objs == (if c.name == None then [] else c.objs)
    && (c.name != None ==> c.name == Some(0) && |c.objs| == 1)
    && (c.s.pc.SResize? || c.s.pc.SZero? || SenderLive(c.s.pc) ==> c.name == Some(0) && c.s.map_ == 0)
    && (c.s.pc.SZero? ==> Shape(k, c.objs[0]) && ZeroedTo(c.objs[0], c.s.j))
    && (ReceiverLive(c.r.pc) ==> c.r.map_ == 0)
  }

  predicate Names(k: Config, c: Client)
    requires Valid(k)
  {
    if k.bench.ShmBench? then ShmNames(k, c) else MmapNames(k, c)
  }

  predicate ClientOk(k: Config, c: Client)
    requires Valid(k)
  {
    SenderOk(k, c.s) && ReceiverOk(k, c.r) && Memory(k, c) && Names(k, c) && !c.fault
  }

  // ---------------------------------------------------------------- alignment

  lemma {:induction false} BaseMonotone(k: Config, t: nat, u: nat)
    requires Valid(k) && t < u
    ensures Base(k, t) + Waits(k) <= Base(k, u)
  {
    if t + 1 < u {
      BaseMonotone(k, t, u - 1);
    }
  }

  /** Calls made so far say which iteration a side is in. */
  lemma Align(k: Config, c: Client)
    requires Valid(k) && SenderOk(k, c.s) && ReceiverOk(k, c.r) && Close(k, c)
    ensures c.r.iter < c.s.iter ==>
      SenderCalls(k, c.s) <= Base(k, c.s.iter) + 1 && ReceiverCalls(k, c.r) <= Base(k, c.s.iter)
    ensures c.s.iter < c.r.iter ==>
      ReceiverCalls(k, c.r) <= Base(k, c.r.iter) + 1 && SenderCalls(k, c.s) <= Base(k, c.r.iter)
    ensures c.r.iter < c.s.iter ==> SenderCalls(k, c.s) >= Base(k, c.s.iter)
    ensures c.s.iter < c.r.iter ==> ReceiverCalls(k, c.r) >= Base(k, c.r.iter)
  {
    if c.r.iter < c.s.iter {
      BaseMonotone(k, c.r.iter, c.s.iter);
    } else if c.s.iter < c.r.iter {
      BaseMonotone(k, c.s.iter, c.r.iter);
    }
  }

  /** While the receiver works on body i, the sender is in body i too or has finished it: chunk i - 1
      is in its slot and stays there. */
  lemma ReadReady(k: Config, c: Client)
    requires Valid(k) && SenderOk(k, c.s) && ReceiverOk(k, c.r) && Memory(k, c) && Close(k, c)
    requires ReceiverCalls(k, c.r) <= SenderCalls(k, c.s)
    requires c.r.pc.RBody? || c.r.pc.RCopy? || c.r.pc.RTally?
    ensures Sharing(c) && c.s.map_ == c.r.map_ < |c.objs|
    ensures Shape(k, c.objs[c.r.map_]) && Holds(k, c.objs[c.r.map_], c.r.i - 1)
    ensures c.s.i == c.r.i || (c.s.i == c.r.i + 1 && (c.s.pc.SLoop? || c.s.pc.SBody? || c.s.pc.SFinish?))
  {
    Align(k, c);
    SameIteration(k, c);
  }

  lemma SameIteration(k: Config, c: Client)
    requires Valid(k) && SenderOk(k, c.s) && ReceiverOk(k, c.r) && Close(k, c)
    requires ReceiverCalls(k, c.r) <= SenderCalls(k, c.s)
    requires c.r.pc.RBody? || c.r.pc.RCopy? || c.r.pc.RTally?
    ensures c.s.iter == c.r.iter
  {
    Align(k, c);
    if c.r.iter < c.s.iter {
      BaseMonotone(k, c.r.iter, c.s.iter);
    }
  }
}
