/** Every step of the sender and of the receiver keeps the pipeline's invariant. */
module PipelineSteps {
  import opened Basics
  import opened BarrierClient
  import opened PipelineClient
  import opened PipelineInvariant

  // ---------------------------------------------------------------- chunks add up

  /** Chunk i starts i buffers into the data, or at its end. */
  lemma {:induction false} OffsetIs(k: Config, i: nat)
    requires Valid(k)
    ensures Offset(k, i) == Min(i * k.bufferSize, |k.data|)
  {
    if i > 0 {
      OffsetIs(k, i - 1);
      assert i * k.bufferSize == (i - 1) * k.bufferSize + k.bufferSize;
    }
  }

  lemma DivisionBounds(a: nat, b: nat)
    requires b > 0
    ensures (a / b) * b <= a < (a / b) * b + b
  {
  }

  /** The loop makes one round more than there are chunks: q chunks of a buffer each hold the data, and
      q - 1 do not. */
  lemma PipelineIs(k: Config) returns (q: nat)
    requires Valid(k)
    ensures Pipeline(k) == q + 1
    ensures |k.data| <= q * k.bufferSize
    ensures |k.data| > 0 ==> q > 0 && (q - 1) * k.bufferSize < |k.data|
    ensures |k.data| == 0 ==> q == 0
  {
    q := (|k.data| + k.bufferSize - 1) / k.bufferSize;
    DivisionBounds(|k.data| + k.bufferSize - 1, k.bufferSize);
    assert (q - 1) * k.bufferSize == q * k.bufferSize - k.bufferSize;
  }

  /** All but the last body of the pipeline carry the whole data between them. */
  lemma PipelineCovers(k: Config)
    requires Valid(k)
    ensures Pipeline(k) >= 1 && ChunkStart(k, Pipeline(k) - 1) == |k.data|
  {
    var a, b := |k.data| + k.bufferSize - 1, k.bufferSize;
    assert a == (a / b) * b + a % b;
    OffsetIs(k, a / b);
  }

  // ---------------------------------------------------------------- the sender alone

  lemma SenderLocal(k: Config, c: Client)
    requires Valid(k) && SenderOk(k, c.s)
    ensures SenderStep(k, c).0.r == c.r && SenderOk(k, SenderStep(k, c).0.s)
  {
    SenderSparesReceiver(k, c);
    if c.s.pc.SLoop? || c.s.pc.SBody? || c.s.pc.SCopy? || c.s.pc.SPublish? {
      SenderLocalInLoop(k, c);
    } else {
      SenderLocalOutside(k, c);
    }
  }

  lemma SenderSparesReceiver(k: Config, c: Client)
    requires Valid(k)
    ensures SenderStep(k, c).0.r == c.r
  {
  }

  lemma SenderLocalInLoop(k: Config, c: Client)
    requires Valid(k) && SenderOk(k, c.s)
    requires c.s.pc.SLoop? || c.s.pc.SBody? || c.s.pc.SCopy? || c.s.pc.SPublish?
    ensures SenderOk(k, SenderStep(k, c).0.s)
  {
  }

  lemma SenderLocalOutside(k: Config, c: Client)
    requires Valid(k) && SenderOk(k, c.s)
    requires !c.s.pc.SLoop? && !c.s.pc.SBody? && !c.s.pc.SCopy? && !c.s.pc.SPublish?
    ensures SenderOk(k, SenderStep(k, c).0.s)
  {
  }

  /** The sender's program counter says how many Waits it has called. */
  lemma SenderCounts(k: Config, c: Client)
    requires Valid(k) && SenderOk(k, c.s)
    ensures var (c', call) := SenderStep(k, c);
      && SenderCalls(k, c'.s) == SenderCalls(k, c.s) + (if call.DoWait? then 1 else 0)
      && (call.DoWait? ==> SenderLands(c'.s) && SenderCalls(k, c.s) < Base(k, k.iterations))
      && (call.DoLeave? <==> c'.s.pc.SDone? && !c.s.pc.SDone?)
  {
    SenderCallsOne(k, c);
    SenderWaits(k, c);
  }

  lemma SenderCallsOne(k: Config, c: Client)
    requires Valid(k) && SenderOk(k, c.s)
    ensures var (c', call) := SenderStep(k, c);
      SenderCalls(k, c'.s) == SenderCalls(k, c.s) + (if call.DoWait? then 1 else 0)
  {
  }

  lemma SenderWaits(k: Config, c: Client)
    requires Valid(k) && SenderOk(k, c.s)
    ensures var (c', call) := SenderStep(k, c);
      && (call.DoWait? ==> SenderLands(c'.s) && SenderCalls(k, c.s) < Base(k, k.iterations))
      && (call.DoLeave? <==> c'.s.pc.SDone? && !c.s.pc.SDone?)
  {
    if c.s.iter < k.iterations {
      BaseMonotone(k, c.s.iter, k.iterations);
    }
  }

  // ---------------------------------------------------------------- the sender and the memory

  lemma SliceGrows<T>(a: seq<T>, o: nat, j: nat, x: T)
    requires o + j < |a|
    ensures a[o + j := x][o..o + j + 1] == a[o..o + j] + [x]
  {
  }

  lemma SliceStays<T>(a: seq<T>, at: nat, x: T, o: nat, n: nat)
    requires at < |a| && o + n <= |a| && (at < o || o + n <= at)
    ensures a[at := x][o..o + n] == a[o..o + n]
  {
  }

  lemma SliceNext<T>(a: seq<T>, o: nat, j: nat)
    requires o + j < |a|
    ensures a[o..o + j + 1] == a[o..o + j] + [a[o + j]]
  {
  }

  lemma OtherSlot(k: Config, i: int)
    ensures SlotOf(k, i) + SlotOf(k, i - 1) == k.bufferSize
    ensures (i - 1) % 2 == 1 - i % 2
  {
  }

  function PutByte(b: Buffer, at: nat, x: Byte): Buffer
    requires at < |b.bytes|
  {
    b.(bytes := b.bytes[at := x])
  }

  lemma CopyGrows(k: Config, b: Buffer, i: nat, j: nat)
    requires Valid(k) && Shape(k, b) && HoldsBytes(k, b, i, j) && j < ChunkSize(k, i)
    ensures HoldsBytes(k, PutByte(b, SlotOf(k, i) + j, k.data[ChunkStart(k, i) + j]), i, j + 1)
  {
    SliceGrows(b.bytes, SlotOf(k, i), j, k.data[ChunkStart(k, i) + j]);
    SliceNext(k.data, ChunkStart(k, i), j);
  }

  lemma CopySpares(k: Config, b: Buffer, i: nat, at: nat, x: Byte)
    requires Valid(k) && Shape(k, b) && Holds(k, b, i - 1)
    requires SlotOf(k, i) <= at < SlotOf(k, i) + k.bufferSize
    ensures Holds(k, PutByte(b, at, x), i - 1)
  {
    OtherSlot(k, i);
    SliceStays(b.bytes, at, x, SlotOf(k, i - 1), ChunkSize(k, i - 1));
  }

  /** Copying byte j of chunk i into its slot disturbs neither the bytes before it nor the other slot. */
  lemma CopyByte(k: Config, b: Buffer, i: nat, j: nat)
    requires Valid(k) && Shape(k, b) && Holds(k, b, i - 1) && HoldsBytes(k, b, i, j) && j < ChunkSize(k, i)
    ensures var b' := PutByte(b, SlotOf(k, i) + j, k.data[ChunkStart(k, i) + j]);
      Shape(k, b') && Holds(k, b', i - 1) && HoldsBytes(k, b', i, j + 1)
  {
    CopyGrows(k, b, i, j);
    CopySpares(k, b, i, SlotOf(k, i) + j, k.data[ChunkStart(k, i) + j]);
  }

  /** Publishing the size of chunk i completes it and leaves chunk i - 1 alone. */
  lemma PublishSize(k: Config, b: Buffer, i: nat)
    requires Valid(k) && Shape(k, b) && Holds(k, b, i - 1) && HoldsBytes(k, b, i, ChunkSize(k, i))
    ensures var b' := b.(sizes := b.sizes[i % 2 := ChunkSize(k, i)]);
      Shape(k, b') && Holds(k, b', i) && Holds(k, b', i - 1)
  {
  }

  lemma BlankHolds(k: Config, b: Buffer)
    requires Valid(k) && Shape(k, b) && Blank(b)
    ensures Holds(k, b, -1) && Holds(k, b, -2)
  {
  }

  /** The sender replaces its buffer, and with it moves on inside the pipeline. */
  lemma MemorySet(k: Config, c: Client, b: Buffer, s: Sender)
    requires Valid(k) && Memory(k, c) && Sharing(c)
    requires SenderLive(s.pc) && s.iter == c.s.iter && s.map_ == c.s.map_ && Slots(k, b, s)
    ensures var c' := c.(objs := c.objs[s.map_ := b], s := s);
      Memory(k, c') && Sharing(c')
  {
  }

  /** The sender is in the pipeline, and so is the receiver, in the same iteration. */
  lemma WriteReady(k: Config, c: Client)
    requires Valid(k) && SenderOk(k, c.s) && ReceiverOk(k, c.r) && Close(k, c)
    requires SenderCalls(k, c.s) <= ReceiverCalls(k, c.r)
    requires SenderLive(c.s.pc) && !c.s.pc.SFinish?
    ensures Sharing(c) && !c.r.pc.RAttach?
    ensures c.s.pc.SCopy? || c.s.pc.SPublish? ==> !c.r.pc.RAlloc? && !c.r.pc.RBegin?
  {
    Align(k, c);
    if c.r.iter < c.s.iter {
      BaseMonotone(k, c.r.iter, c.s.iter);
    } else if c.s.iter < c.r.iter {
      BaseMonotone(k, c.s.iter, c.r.iter);
    }
  }

  /** One step of the sender inside the loop, seen from its buffer. */
  predicate InBuffer(k: Config, c: Client, c': Client)
    requires Valid(k) && c.s.map_ < |c.objs|
  {
    && |c'.objs| == |c.objs|
    && c' == c.(s := c'.s, objs := c.objs[c.s.map_ := c'.objs[c.s.map_]])
    && SenderLive(c'.s.pc) && c'.s.iter == c.s.iter && c'.s.map_ == c.s.map_
    && Slots(k, c'.objs[c.s.map_], c'.s)
  }

  lemma CopyEffect(k: Config, c: Client)
    requires Valid(k) && c.s.pc.SCopy? && c.s.j < c.s.size
    requires c.s.map_ < |c.objs| && Shape(k, c.objs[c.s.map_])
    requires c.s.size <= k.bufferSize && c.s.sent + c.s.size <= |k.data|
    ensures var s, b := c.s, c.objs[c.s.map_];
      SenderStep(k, c) ==
      (c.(objs := c.objs[s.map_ := PutByte(b, SlotOf(k, s.i) + s.j, k.data[s.sent + s.j])],
          s := s.(j := s.j + 1)), Stay)
  {
    assert SlotStart(k, c.s.i) == SlotOf(k, c.s.i);
  }

  lemma CopyInBuffer(k: Config, c: Client)
    requires Valid(k) && c.s.pc.SCopy? && c.s.j < c.s.size
    requires c.s.sent == ChunkStart(k, c.s.i) && c.s.size == ChunkSize(k, c.s.i)
    requires c.s.map_ < |c.objs| && Slots(k, c.objs[c.s.map_], c.s)
    ensures InBuffer(k, c, SenderStep(k, c).0)
  {
    var s, b := c.s, c.objs[c.s.map_];
    CopyEffect(k, c);
    var b', s' := PutByte(b, SlotOf(k, s.i) + s.j, k.data[s.sent + s.j]), s.(j := s.j + 1);
    CopySlots(k, b, s, b', s');
    MakeInBuffer(k, c, b', s');
  }

  lemma CopySlots(k: Config, b: Buffer, s: Sender, b': Buffer, s': Sender)
    requires Valid(k) && s.pc.SCopy? && s.j < ChunkSize(k, s.i) && Slots(k, b, s)
    requires b' == PutByte(b, SlotOf(k, s.i) + s.j, k.data[ChunkStart(k, s.i) + s.j])
    requires s'.pc.SCopy? && s'.i == s.i && s'.j == s.j + 1
    ensures Slots(k, b', s')
  {
    CopyByte(k, b, s.i, s.j);
    InCopy(k, b', s');
  }

  lemma InCopy(k: Config, b: Buffer, s: Sender)
    requires Valid(k) && s.pc.SCopy? && Shape(k, b) && Holds(k, b, s.i - 1) && HoldsBytes(k, b, s.i, s.j)
    ensures Slots(k, b, s)
  {
  }

  lemma MakeInBuffer(k: Config, c: Client, b: Buffer, s: Sender)
    requires Valid(k) && c.s.map_ < |c.objs|
    requires SenderLive(s.pc) && s.iter == c.s.iter && s.map_ == c.s.map_ && Slots(k, b, s)
    ensures InBuffer(k, c, c.(objs := c.objs[c.s.map_ := b], s := s))
  {
  }

  lemma PublishEffect(k: Config, c: Client)
    requires Valid(k) && c.s.pc.SPublish? && c.s.map_ < |c.objs| && Shape(k, c.objs[c.s.map_])
    ensures var s, b := c.s, c.objs[c.s.map_];
      SenderStep(k, c).0 ==
      c.(objs := c.objs[s.map_ := b.(sizes := b.sizes[s.i % 2 := s.size])],
         s := s.(pc := SLoop, sent := s.sent + s.size, i := s.i + 1))
  {
  }

  lemma PublishInBuffer(k: Config, c: Client)
    requires Valid(k) && c.s.pc.SPublish? && c.s.j == c.s.size == ChunkSize(k, c.s.i)
    requires c.s.map_ < |c.objs| && Slots(k, c.objs[c.s.map_], c.s)
    ensures InBuffer(k, c, SenderStep(k, c).0)
  {
    var s, b := c.s, c.objs[c.s.map_];
    PublishEffect(k, c);
    var b', s' := b.(sizes := b.sizes[s.i % 2 := s.size]), s.(pc := SLoop, sent := s.sent + s.size, i := s.i + 1);
    PublishSlots(k, b, s, b', s');
    MakeInBuffer(k, c, b', s');
  }

  lemma PublishSlots(k: Config, b: Buffer, s: Sender, b': Buffer, s': Sender)
    requires Valid(k) && s.pc.SPublish? && s.j == s.size == ChunkSize(k, s.i) && Slots(k, b, s)
    requires b' == b.(sizes := b.sizes[s.i % 2 := s.size])
    requires s'.pc.SLoop? && s'.i == s.i + 1
    ensures Slots(k, b', s')
  {
    PublishSize(k, b, s.i);
  }

  /** Steps inside the loop that leave the buffer alone. */
  lemma LocalEffect(k: Config, c: Client)
    requires Valid(k) && SenderOk(k, c.s)
    requires c.s.pc.SBegin? || c.s.pc.SLoop? || c.s.pc.SBody? || (c.s.pc.SCopy? && c.s.j == c.s.size)
    ensures var c' := SenderStep(k, c).0;
      c' == c.(s := c'.s) && SenderLive(c'.s.pc) && c'.s.iter == c.s.iter && c'.s.map_ == c.s.map_
  {
  }

  lemma LocalSlots(k: Config, c: Client, b: Buffer)
    requires Valid(k) && SenderOk(k, c.s) && Slots(k, b, c.s)
    requires c.s.pc.SLoop? || c.s.pc.SBody? || (c.s.pc.SCopy? && c.s.j == c.s.size)
    ensures Slots(k, b, SenderStep(k, c).0.s)
  {
  }

  lemma BeginSlots(k: Config, c: Client, b: Buffer)
    requires Valid(k) && c.s.pc.SBegin? && Slots(k, b, c.s)
    ensures Slots(k, b, SenderStep(k, c).0.s)
  {
    BlankHolds(k, b);
  }

  lemma LocalInBuffer(k: Config, c: Client)
    requires Valid(k) && SenderOk(k, c.s)
    requires c.s.pc.SBegin? || c.s.pc.SLoop? || c.s.pc.SBody? || (c.s.pc.SCopy? && c.s.j == c.s.size)
    requires c.s.map_ < |c.objs| && Slots(k, c.objs[c.s.map_], c.s)
    ensures InBuffer(k, c, SenderStep(k, c).0)
  {
    var b, c' := c.objs[c.s.map_], SenderStep(k, c).0;
    LocalEffect(k, c);
    if c.s.pc.SBegin? {
      BeginSlots(k, c, b);
    } else {
      LocalSlots(k, c, b);
    }
    MakeInBuffer(k, c, b, c'.s);
    assert c' == c.(objs := c.objs[c.s.map_ := b], s := c'.s);
  }

  lemma NamesInBuffer(k: Config, c: Client, c': Client)
    requires Valid(k) && Names(k, c) && Sharing(c) && c.s.map_ < |c.objs| && InBuffer(k, c, c')
    requires k.bench.ShmBench? && c.r.pc.RZero? ==> c.r.map_ != c.s.map_
    ensures Names(k, c')
  {
  }

  lemma SenderPipelineStep(k: Config, c: Client)
    requires Valid(k) && ClientOk(k, c) && Close(k, c) && SenderCalls(k, c.s) <= ReceiverCalls(k, c.r)
    requires SenderLive(c.s.pc) && !c.s.pc.SFinish?
    ensures var c' := SenderStep(k, c).0; Memory(k, c') && Names(k, c') && !c'.fault
  {
    WriteReady(k, c);
    SenderInBuffer(k, c);
    var c' := SenderStep(k, c).0;
    MemorySet(k, c, c'.objs[c.s.map_], c'.s);
    NamesInBuffer(k, c, c');
  }

  lemma SenderInBuffer(k: Config, c: Client)
    requires Valid(k) && SenderOk(k, c.s) && SenderLive(c.s.pc) && !c.s.pc.SFinish?
    requires c.s.map_ < |c.objs| && Slots(k, c.objs[c.s.map_], c.s)
    ensures InBuffer(k, c, SenderStep(k, c).0)
  {
    match c.s.pc
    case SCopy =>
      if c.s.j < c.s.size {
        CopyInBuffer(k, c);
      } else {
        LocalInBuffer(k, c);
      }
    case SPublish => PublishInBuffer(k, c);
    case _ => LocalInBuffer(k, c);
  }

  // ---------------------------------------------------------------- the sender outside the loop

  /** Steps that leave the buffers alone and end outside the pipeline. */
  lemma SenderIdleStep(k: Config, c: Client)
    requires Valid(k) && ClientOk(k, c) && Close(k, c) && SenderCalls(k, c.s) <= ReceiverCalls(k, c.r)
    requires c.s.pc.SBoot? || c.s.pc.SHead? || c.s.pc.SFinish? || c.s.pc.SDone?
    ensures var c' := SenderStep(k, c).0; Memory(k, c') && Names(k, c') && !c'.fault
  {
    if c.s.pc.SFinish? && Sharing(c) {
      FinishLate(k, c);
    }
  }

  /** When the sender finishes an iteration, the receiver is past its first look at the buffer. */
  lemma FinishLate(k: Config, c: Client)
    requires Valid(k) && SenderOk(k, c.s) && ReceiverOk(k, c.r) && Close(k, c)
    requires c.s.pc.SFinish? && Sharing(c)
    ensures !c.r.pc.RAlloc? && !c.r.pc.RBegin?
  {
  }

  /** The file is truncated and resized only while the receiver has no use for it. */
  lemma TruncateAlone(k: Config, c: Client)
    requires Valid(k) && SenderOk(k, c.s) && ReceiverOk(k, c.r) && Close(k, c)
    requires SenderCalls(k, c.s) <= ReceiverCalls(k, c.r)
    requires c.s.pc.STruncate? || c.s.pc.SResize?
    ensures !ReceiverLive(c.r.pc)
  {
    if c.r.iter < c.s.iter {
      BaseMonotone(k, c.r.iter, c.s.iter);
    } else if c.s.iter < c.r.iter {
      BaseMonotone(k, c.s.iter, c.r.iter);
    }
  }

  lemma FileStep(k: Config, c: Client)
    requires Valid(k) && ClientOk(k, c) && Close(k, c) && SenderCalls(k, c.s) <= ReceiverCalls(k, c.r)
    requires c.s.pc.STruncate? || c.s.pc.SResize?
    ensures var c' := SenderStep(k, c).0; Memory(k, c') && Names(k, c') && !c'.fault
  {
    TruncateAlone(k, c);
  }

  lemma ZeroCellOk(k: Config, c: Client, id: nat, j: nat)
    requires Valid(k) && id < |c.objs| && Shape(k, c.objs[id]) && ZeroedTo(c.objs[id], j) && j < 2 + 2 * k.bufferSize
    ensures var c' := ZeroCell(c, id, j);
      && |c'.objs| == |c.objs| && c' == c.(objs := c.objs[id := c'.objs[id]])
      && Shape(k, c'.objs[id]) && ZeroedTo(c'.objs[id], j + 1)
  {
  }

  lemma FileZeroStep(k: Config, c: Client)
    requires Valid(k) && ClientOk(k, c) && Close(k, c) && c.s.pc.SZero?
    ensures var c' := SenderStep(k, c).0; Memory(k, c') && Names(k, c') && !c'.fault
  {
    if c.s.j < 2 + 2 * k.bufferSize {
      ZeroCellOk(k, c, c.s.map_, c.s.j);
    }
  }

  lemma AttachReady(k: Config, c: Client)
    requires Valid(k) && SenderOk(k, c.s) && ReceiverOk(k, c.r) && Close(k, c)
    requires SenderCalls(k, c.s) <= ReceiverCalls(k, c.r) && c.s.pc.SAttach?
    ensures (c.r.pc.RAlloc? || c.r.pc.RBegin?) && c.r.iter == c.s.iter
  {
    if c.r.iter < c.s.iter {
      BaseMonotone(k, c.r.iter, c.s.iter);
    } else if c.s.iter < c.r.iter {
      BaseMonotone(k, c.s.iter, c.r.iter);
    }
  }

  lemma AttachStep(k: Config, c: Client)
    requires Valid(k) && ClientOk(k, c) && Close(k, c) && SenderCalls(k, c.s) <= ReceiverCalls(k, c.r)
    requires c.s.pc.SAttach?
    ensures var c' := SenderStep(k, c).0; Memory(k, c') && Names(k, c') && !c'.fault
  {
    AttachReady(k, c);
  }

  lemma SenderOkStep(k: Config, c: Client)
    requires Valid(k) && ClientOk(k, c) && Close(k, c) && SenderCalls(k, c.s) <= ReceiverCalls(k, c.r)
    ensures ClientOk(k, SenderStep(k, c).0)
  {
    SenderLocal(k, c);
    match c.s.pc
    case STruncate => FileStep(k, c);
    case SResize => FileStep(k, c);
    case SZero => FileZeroStep(k, c);
    case SAttach => AttachStep(k, c);
    case SBegin => SenderPipelineStep(k, c);
    case SLoop => SenderPipelineStep(k, c);
    case SBody => SenderPipelineStep(k, c);
    case SCopy => SenderPipelineStep(k, c);
    case SPublish => SenderPipelineStep(k, c);
    case _ => SenderIdleStep(k, c);
  }
}
