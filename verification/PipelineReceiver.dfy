/** Every step of the receiver keeps the pipeline's invariant. */
module PipelineReceiver {
  import opened Basics
  import opened BarrierClient
  import opened PipelineClient
  import opened PipelineInvariant
  import opened PipelineSteps

  predicate Reading(pc: ReceiverPC) { pc.RBody? || pc.RCopy? || pc.RTally? }

  /** The receiver's program counter says how many Waits it has called. */
  lemma ReceiverCounts(k: Config, c: Client)
    requires Valid(k) && ReceiverOk(k, c.r)
    ensures var (c', call) := ReceiverStep(k, c);
      && c'.s == c.s
      && ReceiverCalls(k, c'.r) == ReceiverCalls(k, c.r) + (if call.DoWait? then 1 else 0)
  {
    if Reading(c.r.pc) {
      ReadingCounts(k, c);
    } else {
      OtherCounts(k, c);
    }
  }

  lemma ReadingCounts(k: Config, c: Client)
    requires Valid(k) && Reading(c.r.pc)
    ensures var (c', call) := ReceiverStep(k, c);
      c'.s == c.s && call.Stay? && ReceiverCalls(k, c'.r) == ReceiverCalls(k, c.r)
  {
  }

  lemma OtherCounts(k: Config, c: Client)
    requires Valid(k) && ReceiverOk(k, c.r) && !Reading(c.r.pc)
    ensures var (c', call) := ReceiverStep(k, c);
      && c'.s == c.s
      && ReceiverCalls(k, c'.r) == ReceiverCalls(k, c.r) + (if call.DoWait? then 1 else 0)
  {
  }

  lemma ReceiverWaits(k: Config, c: Client)
    requires Valid(k) && ReceiverOk(k, c.r)
    ensures var (c', call) := ReceiverStep(k, c);
      && (call.DoWait? ==> ReceiverLands(c'.r) && ReceiverCalls(k, c.r) < Base(k, k.iterations))
      && (call.DoLeave? <==> c'.r.pc.RDone? && !c.r.pc.RDone?)
  {
    if c.r.iter < k.iterations {
      BaseMonotone(k, c.r.iter, k.iterations);
    }
  }

  // ---------------------------------------------------------------- before the loop

  lemma ReceiverIdleStep(k: Config, c: Client)
    requires Valid(k) && ClientOk(k, c)
    requires c.r.pc.RBoot? || c.r.pc.RHead? || c.r.pc.RAlloc? || c.r.pc.RBegin? || c.r.pc.RDone?
    ensures ClientOk(k, ReceiverStep(k, c).0)
  {
  }

  /** Before its first Wait of an iteration the receiver has the new buffer to itself. */
  lemma CreateAlone(k: Config, c: Client)
    requires Valid(k) && SenderOk(k, c.s) && ReceiverOk(k, c.r) && Close(k, c)
    requires c.r.pc.RCreate? || c.r.pc.RZero?
    ensures !Sharing(c)
  {
  }

  lemma CreateStep(k: Config, c: Client)
    requires Valid(k) && ClientOk(k, c) && Close(k, c) && c.r.pc.RCreate?
    ensures ClientOk(k, ReceiverStep(k, c).0)
  {
    CreateAlone(k, c);
  }

  lemma ZeroStep(k: Config, c: Client)
    requires Valid(k) && ClientOk(k, c) && Close(k, c) && c.r.pc.RZero?
    ensures ClientOk(k, ReceiverStep(k, c).0)
  {
    CreateAlone(k, c);
    if c.r.j < 2 + 2 * k.bufferSize {
      ZeroCellOk(k, c, c.r.map_, c.r.j);
    }
  }

  /** When the receiver maps the file, the sender has resized it and may be zeroing it. */
  lemma AttachSafe(k: Config, c: Client)
    requires Valid(k) && SenderOk(k, c.s) && ReceiverOk(k, c.r) && Close(k, c)
    requires ReceiverCalls(k, c.r) <= SenderCalls(k, c.s) && c.r.pc.RAttach?
    ensures (c.s.pc.SZero? || c.s.pc.SBegin?) && c.s.iter == c.r.iter
  {
    if c.r.iter < c.s.iter {
      BaseMonotone(k, c.r.iter, c.s.iter);
    } else if c.s.iter < c.r.iter {
      BaseMonotone(k, c.s.iter, c.r.iter);
    }
  }

  lemma AttachStep(k: Config, c: Client)
    requires Valid(k) && ClientOk(k, c) && Close(k, c) && ReceiverCalls(k, c.r) <= SenderCalls(k, c.s)
    requires c.r.pc.RAttach?
    ensures ClientOk(k, ReceiverStep(k, c).0)
  {
    AttachSafe(k, c);
  }

  // ---------------------------------------------------------------- the loop

  /** A step of the receiver inside the loop keeps the memory and the names. */
  lemma ReceiverLoopFrame(k: Config, c: Client, r: Receiver)
    requires Valid(k) && Memory(k, c) && Names(k, c)
    requires r.iter == c.r.iter && r.map_ == c.r.map_
    requires ReceiverLive(c.r.pc)
    requires r.pc.RLoop? || r.pc.RBody? || r.pc.RCopy? || r.pc.RTally? || r.pc.RFinish?
    ensures Memory(k, c.(r := r)) && Names(k, c.(r := r))
  {
  }

  lemma LoopStep(k: Config, c: Client)
    requires Valid(k) && ReceiverOk(k, c.r) && c.r.pc.RLoop?
    ensures var c' := ReceiverStep(k, c).0;
      && c' == c.(r := c'.r) && ReceiverOk(k, c'.r) && c'.r.iter == c.r.iter && c'.r.map_ == c.r.map_
      && (c'.r.pc.RBody? || c'.r.pc.RFinish?)
  {
    PipelineCovers(k);
    assert c.r.received[..|k.data|] == c.r.received && k.data[..|k.data|] == k.data;
  }

  lemma BodyStep(k: Config, c: Client)
    requires Valid(k) && ReceiverOk(k, c.r) && c.r.pc.RBody?
    requires c.r.map_ < |c.objs| && Shape(k, c.objs[c.r.map_])
    requires c.objs[c.r.map_].sizes[(c.r.i - 1) % 2] == ChunkSize(k, c.r.i - 1)
    ensures var c' := ReceiverStep(k, c).0;
      && c' == c.(r := c'.r) && ReceiverOk(k, c'.r) && c'.r.iter == c.r.iter && c'.r.map_ == c.r.map_
      && c'.r.pc.RCopy?
  {
    assert (c.r.i - 1) % 2 == (c.r.i + 1) % 2;
  }

  lemma PrefixGrows(k: Config, received: seq<Byte>, n: nat)
    requires Prefix(k, received, n) && n < |k.data|
    ensures Prefix(k, received[n := k.data[n]], n + 1)
  {
    SliceGrows(received, 0, n, k.data[n]);
    SliceNext(k.data, 0, n);
    assert received[n := k.data[n]][0..n + 1] == received[n := k.data[n]][..n + 1];
    assert received[0..n] == received[..n] && k.data[0..n] == k.data[..n];
    assert k.data[0..n + 1] == k.data[..n + 1];
  }

  lemma SlotByte(k: Config, b: Buffer, i: int, j: nat)
    requires Valid(k) && Shape(k, b) && HoldsBytes(k, b, i, ChunkSize(k, i)) && j < ChunkSize(k, i)
    ensures b.bytes[SlotOf(k, i) + j] == k.data[ChunkStart(k, i) + j]
  {
    var n := ChunkSize(k, i);
    assert b.bytes[SlotOf(k, i)..SlotOf(k, i) + n][j] == k.data[ChunkStart(k, i)..ChunkStart(k, i) + n][j];
  }

  lemma ReadEffect(k: Config, c: Client, x: Byte)
    requires Valid(k) && c.r.pc.RCopy? && c.r.j < c.r.size
    requires c.r.map_ < |c.objs| && Shape(k, c.objs[c.r.map_]) && c.r.size <= k.bufferSize
    requires c.objs[c.r.map_].bytes[SlotOf(k, c.r.i - 1) + c.r.j] == x
    requires c.r.got + c.r.size <= |c.r.received|
    ensures var r := c.r;
      ReceiverStep(k, c) == (c.(r := r.(received := r.received[r.got + r.j := x], j := r.j + 1)), Stay)
  {
    assert SlotStart(k, c.r.i + 1) == SlotOf(k, c.r.i - 1);
  }

  lemma CopyLocal(k: Config, r: Receiver)
    requires Valid(k) && ReceiverOk(k, r) && r.pc.RCopy? && r.j < r.size
    ensures r.got + r.j < |k.data| == |r.received| && ReceiverOk(k, Copied(k, r))
  {
    PrefixGrows(k, r.received, r.got + r.j);
    PrefixKept(k, r.received, r.got, r.got + r.j);
  }

  function Copied(k: Config, r: Receiver): Receiver
    requires r.got + r.j < |k.data| == |r.received|
  {
    r.(received := r.received[r.got + r.j := k.data[r.got + r.j]], j := r.j + 1)
  }

  lemma CopyStep(k: Config, c: Client)
    requires Valid(k) && c.r.pc.RCopy? && c.r.j < c.r.size <= k.bufferSize
    requires |c.r.received| == |k.data| && c.r.got + c.r.size <= |k.data|
    requires c.r.map_ < |c.objs| && Shape(k, c.objs[c.r.map_])
    requires c.objs[c.r.map_].bytes[SlotOf(k, c.r.i - 1) + c.r.j] == k.data[c.r.got + c.r.j]
    ensures ReceiverStep(k, c).0 == c.(r := Copied(k, c.r))
  {
    ReadEffect(k, c, k.data[c.r.got + c.r.j]);
  }

  lemma PrefixKept(k: Config, received: seq<Byte>, m: nat, n: nat)
    requires Prefix(k, received, m) && m <= n < |k.data|
    ensures Prefix(k, received[n := k.data[n]], m)
  {
    assert received[n := k.data[n]][..m] == received[..m];
  }

  lemma TallyStep(k: Config, c: Client)
    requires Valid(k) && ReceiverOk(k, c.r)
    requires c.r.pc.RTally? || (c.r.pc.RCopy? && c.r.j == c.r.size)
    requires c.r.map_ < |c.objs| && Shape(k, c.objs[c.r.map_])
    requires c.objs[c.r.map_].sizes[(c.r.i - 1) % 2] == ChunkSize(k, c.r.i - 1)
    ensures var c' := ReceiverStep(k, c).0;
      && c' == c.(r := c'.r) && ReceiverOk(k, c'.r) && c'.r.iter == c.r.iter && c'.r.map_ == c.r.map_
      && (c'.r.pc.RLoop? || c'.r.pc.RTally?)
  {
    assert (c.r.i - 1) % 2 == (c.r.i + 1) % 2;
  }

  lemma FinishStep(k: Config, c: Client)
    requires Valid(k) && ClientOk(k, c) && Close(k, c) && c.r.pc.RFinish?
    ensures ClientOk(k, ReceiverStep(k, c).0)
  {
    FinishApart(k, c);
  }

  /** A sender in the pipeline of the next iteration would be too far ahead. */
  lemma FinishApart(k: Config, c: Client)
    requires Valid(k) && SenderOk(k, c.s) && ReceiverOk(k, c.r) && Close(k, c) && c.r.pc.RFinish?
    ensures SenderLive(c.s.pc) ==> c.s.iter != c.r.iter + 1
  {
  }

  /** One step of the receiver inside the loop, seen from itself: it changes nothing else. */
  predicate OwnStep(k: Config, c: Client, c': Client)
    requires Valid(k)
  {
    && c' == c.(r := c'.r) && ReceiverOk(k, c'.r) && c'.r.iter == c.r.iter && c'.r.map_ == c.r.map_
    && (c'.r.pc.RLoop? || Reading(c'.r.pc))
  }

  lemma CopyingStep(k: Config, c: Client)
    requires Valid(k) && ReceiverOk(k, c.r) && c.r.pc.RCopy? && c.r.j < c.r.size
    requires c.r.map_ < |c.objs| && Shape(k, c.objs[c.r.map_]) && c.r.got + c.r.j < |k.data|
    requires c.objs[c.r.map_].bytes[SlotOf(k, c.r.i - 1) + c.r.j] == k.data[c.r.got + c.r.j]
    ensures OwnStep(k, c, ReceiverStep(k, c).0)
  {
    CopyLocal(k, c.r);
    CopyStep(k, c);
  }

  lemma OwnReadingStep(k: Config, c: Client)
    requires Valid(k) && ReceiverOk(k, c.r) && Reading(c.r.pc)
    requires c.r.map_ < |c.objs| && Shape(k, c.objs[c.r.map_]) && Holds(k, c.objs[c.r.map_], c.r.i - 1)
    ensures OwnStep(k, c, ReceiverStep(k, c).0)
  {
    if c.r.pc.RBody? {
      BodyStep(k, c);
    } else if c.r.pc.RCopy? && c.r.j < c.r.size {
      SlotByte(k, c.objs[c.r.map_], c.r.i - 1, c.r.j);
      CopyingStep(k, c);
    } else {
      TallyStep(k, c);
    }
  }

  lemma ReadingStep(k: Config, c: Client)
    requires Valid(k) && ClientOk(k, c) && Close(k, c) && ReceiverCalls(k, c.r) <= SenderCalls(k, c.s)
    requires Reading(c.r.pc)
    ensures ClientOk(k, ReceiverStep(k, c).0)
  {
    ReadReady(k, c);
    OwnReadingStep(k, c);
    ReceiverLoopFrame(k, c, ReceiverStep(k, c).0.r);
  }

  lemma ReceiverOkStep(k: Config, c: Client)
    requires Valid(k) && ClientOk(k, c) && Close(k, c) && ReceiverCalls(k, c.r) <= SenderCalls(k, c.s)
    ensures ClientOk(k, ReceiverStep(k, c).0)
  {
    match c.r.pc
    case RCreate => CreateStep(k, c);
    case RZero => ZeroStep(k, c);
    case RAttach => AttachStep(k, c);
    case RLoop => LoopStep(k, c); ReceiverLoopFrame(k, c, ReceiverStep(k, c).0.r);
    case RBody => ReadingStep(k, c);
    case RCopy => ReadingStep(k, c);
    case RTally => ReadingStep(k, c);
    case RFinish => FinishStep(k, c);
    case _ => ReceiverIdleStep(k, c);
  }
}
