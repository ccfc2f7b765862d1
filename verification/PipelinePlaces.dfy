/**
 Where the two sides of the pipeline stand, in plain numbers: how many Waits they have made at each
 program point, which bytes go where, and which accesses count as faults.
 */
module PipelinePlaces {
  import opened Basics
  import opened Barrier
  import opened BarrierClient
  import opened PipelineClient
  import opened PipelineInvariant
  import opened PipelineSteps
  import opened PipelineSystem
  import BarrierPlaces

  // ---------------------------------------------------------------- how many Waits

  /** Between two Waits the sender has made, in the current iteration: none before and while it
      prepares the file, one before it zeroes or attaches, two before its loop, and one more in each
      round; the receiver likewise. Before the first iteration of mmap there is one. */
  lemma WaitPlaces(k: Config, schedule: seq<nat>) returns (chunks: nat)
    requires Valid(k)
    ensures |k.data| <= chunks * k.bufferSize
    ensures |k.data| > 0 ==> chunks > 0 && (chunks - 1) * k.bufferSize < |k.data|
    ensures |k.data| == 0 ==> chunks == 0
    ensures SidesAt(k, SysRun(k, PipelineSystem.Start(k), schedule), chunks)
  {
    chunks := PipelineIs(k);
    StartOk(k);
    SysRunOk(k, PipelineSystem.Start(k), schedule);
    BothPlaces(k, SysRun(k, PipelineSystem.Start(k), schedule), chunks);
  }

  predicate SidesAt(k: Config, y: System, chunks: nat) {
    && |y.w.users| == 2
    && (y.w.users[SENDER].pc.Ready? ==> SenderAt(k, y.c.s, y.w.users[SENDER].round, chunks))
    && (y.w.users[RECEIVER].pc.Ready? ==> ReceiverAt(k, y.c.r, y.w.users[RECEIVER].round, chunks))
  }

  lemma BothPlaces(k: Config, y: System, chunks: nat)
    requires Valid(k) && SysOk(k, y) && Pipeline(k) == chunks + 1
    ensures SidesAt(k, y, chunks)
  {
    SenderPlace(k, y.c.s, chunks);
    ReceiverPlace(k, y.c.r, chunks);
  }

  /** The Waits made since the iteration began, by program point; `made` counts all. */
  predicate SenderAt(k: Config, s: Sender, made: nat, chunks: nat) {
    var before := (if k.bench.MmapBench? then 1 else 0) + s.iter * (4 + chunks);
    match s.pc
    case SBoot => made == 0
    case SHead => made == before
    case STruncate => made == before
    case SResize => made == before
    case SZero => made == before + 1
    case SAttach => made == before + 1
    case SBegin => made == before + 2
    case SLoop => made == before + 2 + s.i && s.i <= chunks + 1
    case SBody => made == before + 3 + s.i && s.i <= chunks
    case SCopy => made == before + 3 + s.i && s.i <= chunks
    case SPublish => made == before + 3 + s.i && s.i <= chunks
    case SFinish => made == before + 4 + chunks
    case SDone => true
  }

  predicate ReceiverAt(k: Config, r: Receiver, made: nat, chunks: nat) {
    var before := (if k.bench.MmapBench? then 1 else 0) + r.iter * (4 + chunks);
    match r.pc
    case RBoot => made == 0
    case RHead => made == before
    case RCreate => made == before
    case RZero => made == before
    case RAlloc => made == before + 1
    case RAttach => made == before + 1
    case RBegin => made == before + 2
    case RLoop => made == before + 2 + r.i && r.i <= chunks + 1
    case RBody => made == before + 3 + r.i && r.i <= chunks
    case RCopy => made == before + 3 + r.i && r.i <= chunks
    case RTally => made == before + 3 + r.i && r.i <= chunks
    case RFinish => made == before + 4 + chunks
    case RDone => true
  }

  lemma SenderPlace(k: Config, s: Sender, chunks: nat)
    requires Valid(k) && SenderOk(k, s) && Pipeline(k) == chunks + 1
    ensures SenderAt(k, s, SenderCalls(k, s), chunks)
  {
    BaseIs(k, s.iter);
  }

  lemma ReceiverPlace(k: Config, r: Receiver, chunks: nat)
    requires Valid(k) && ReceiverOk(k, r) && Pipeline(k) == chunks + 1
    ensures ReceiverAt(k, r, ReceiverCalls(k, r), chunks)
  {
    BaseIs(k, r.iter);
  }

  // ---------------------------------------------------------------- which bytes

  /** In round i the sender copies the bytes from i * bufferSize on, as many as fit into a buffer. */
  predicate SenderChunk(k: Config, s: Sender) {
    s.pc.SCopy? || s.pc.SPublish? ==>
      && s.sent == Min(s.i * k.bufferSize, |k.data|)
      && s.size == Min(k.bufferSize, |k.data| - s.sent)
  }

  /** In round i the receiver takes those of round i - 1. */
  predicate ReceiverChunk(k: Config, r: Receiver) {
    r.pc.RCopy? || r.pc.RTally? ==>
      if r.i == 0 then r.got == 0 == r.size
      else
        && r.got == Min((r.i - 1) * k.bufferSize, |k.data|)
        && r.size == Min(k.bufferSize, |k.data| - r.got)
  }

  lemma ChunkPlaces(k: Config, schedule: seq<nat>)
    requires Valid(k)
    ensures SenderChunk(k, SysRun(k, PipelineSystem.Start(k), schedule).c.s)
    ensures ReceiverChunk(k, SysRun(k, PipelineSystem.Start(k), schedule).c.r)
  {
    StartOk(k);
    SysRunOk(k, PipelineSystem.Start(k), schedule);
    SenderChunkIs(k, SysRun(k, PipelineSystem.Start(k), schedule).c.s);
    ReceiverChunkIs(k, SysRun(k, PipelineSystem.Start(k), schedule).c.r);
  }

  lemma SenderChunkIs(k: Config, s: Sender)
    requires Valid(k) && SenderOk(k, s)
    ensures SenderChunk(k, s)
  {
    OffsetIs(k, s.i);
  }

  lemma ReceiverChunkIs(k: Config, r: Receiver)
    requires Valid(k) && ReceiverOk(k, r)
    ensures ReceiverChunk(k, r)
  {
    if r.i > 0 {
      OffsetIs(k, r.i - 1);
    }
  }

  /** One step of the sender's copy: byte j of the chunk goes to place j of the slot. */
  lemma CopyPlaces(k: Config, c: Client)
    requires Valid(k) && c.s.pc.SCopy? && c.s.j < c.s.size
    requires c.s.map_ < |c.objs| && c.s.sent + c.s.j < |k.data|
    requires |c.objs[c.s.map_].bytes| == 2 * k.bufferSize && c.s.j < k.bufferSize
    ensures var c' := SenderStep(k, c).0; var at := (if c.s.i % 2 == 0 then 0 else k.bufferSize) + c.s.j;
      && |c'.objs| == |c.objs| && |c'.objs[c.s.map_].bytes| == 2 * k.bufferSize
      && c'.objs[c.s.map_].bytes[at] == k.data[c.s.sent + c.s.j]
      && forall x :: 0 <= x < 2 * k.bufferSize && x != at ==>
           c'.objs[c.s.map_].bytes[x] == c.objs[c.s.map_].bytes[x]
  {
    assert SlotStart(k, c.s.i) == if c.s.i % 2 == 0 then 0 else k.bufferSize;
  }

  /** received_data starts as data_size zeros. */
  lemma ReceivedStartsZero(k: Config, c: Client)
    requires Valid(k) && (c.r.pc.RAlloc? || c.r.pc.RAttach?) && ReceiverStep(k, c).1.DoWait?
    ensures var received := ReceiverStep(k, c).0.r.received;
      |received| == |k.data| && forall x :: 0 <= x < |received| ==> received[x] == 0
  {
  }

  // ---------------------------------------------------------------- faults

  /** An access outside the buffer, or to none, sets the fault flag, and an access inside does not. */
  lemma WriteFaults(c: Client, id: nat, at: nat, b: Byte, n: nat)
    ensures WriteByte(c, id, at, b).fault <==> c.fault || id >= |c.objs| || at >= |c.objs[id].bytes|
    ensures WriteSize(c, id, at, n).fault <==> c.fault || id >= |c.objs| || at >= |c.objs[id].sizes|
  {
  }

  lemma SendingFaults(k: Config, c: Client)
    requires Valid(k) && c.s.pc.SCopy? && c.s.j < c.s.size
    ensures SenderStep(k, c).0.fault <==>
      || c.fault || c.s.sent + c.s.j >= |k.data| || c.s.map_ >= |c.objs|
      || (if c.s.i % 2 == 0 then 0 else k.bufferSize) + c.s.j >= |c.objs[c.s.map_].bytes|
  {
    SlotStarts(k, c.s.i);
    SendingAt(k, c, SlotStart(k, c.s.i) + c.s.j);
  }

  lemma SendingAt(k: Config, c: Client, at: nat)
    requires Valid(k) && c.s.pc.SCopy? && c.s.j < c.s.size && at == SlotStart(k, c.s.i) + c.s.j
    ensures SenderStep(k, c).0.fault <==>
      c.fault || c.s.sent + c.s.j >= |k.data| || c.s.map_ >= |c.objs| || at >= |c.objs[c.s.map_].bytes|
  {
  }

  lemma SlotStarts(k: Config, i: nat)
    ensures SlotStart(k, i) == if i % 2 == 0 then 0 else k.bufferSize
  {
  }

  lemma ReceivingFaults(k: Config, c: Client)
    requires Valid(k) && c.r.pc.RCopy? && c.r.j < c.r.size
    ensures ReceiverStep(k, c).0.fault <==>
      || c.fault || c.r.got + c.r.j >= |c.r.received| || c.r.map_ >= |c.objs|
      || (if c.r.i % 2 == 0 then k.bufferSize else 0) + c.r.j >= |c.objs[c.r.map_].bytes|
  {
    SlotStarts(k, c.r.i + 1);
    ReceivingAt(k, c, SlotStart(k, c.r.i + 1) + c.r.j);
  }

  lemma ReceivingAt(k: Config, c: Client, at: nat)
    requires Valid(k) && c.r.pc.RCopy? && c.r.j < c.r.size && at == SlotStart(k, c.r.i + 1) + c.r.j
    ensures ReceiverStep(k, c).0.fault <==>
      c.fault || c.r.got + c.r.j >= |c.r.received| || c.r.map_ >= |c.objs| || at >= |c.objs[c.r.map_].bytes|
  {
  }

  /** So do the accesses to the size words, and looking for a buffer that has no name. */
  lemma WordFaults(k: Config, c: Client)
    requires Valid(k)
    ensures c.s.pc.SPublish? ==>
      (SenderStep(k, c).0.fault <==> c.fault || c.s.map_ >= |c.objs| || c.s.i % 2 >= |c.objs[c.s.map_].sizes|)
    ensures c.r.pc.RBody? ==>
      (ReceiverStep(k, c).0.fault <==> c.fault || c.r.map_ >= |c.objs| || (c.r.i + 1) % 2 >= |c.objs[c.r.map_].sizes|)
    ensures c.s.pc.SAttach? ==> (SenderStep(k, c).0.fault <==> c.fault || c.name == None)
    ensures c.r.pc.RAttach? && c.name == None ==> ReceiverStep(k, c).0.fault
  {
  }

  // ---------------------------------------------------------------- blocking

  /** Between two calls neither side ever waits for the other. */
  lemma SenderGoesOn(k: Config, c: Client)
    requires Valid(k) && !c.fault && !c.s.pc.SDone?
    ensures SenderStep(k, c).0 != c
  {
    if c.s.pc.SCopy? || c.s.pc.SZero? {
      assert SenderStep(k, c).0.fault || SenderStep(k, c).0.s != c.s;
    }
  }

  lemma ReceiverGoesOn(k: Config, c: Client)
    requires Valid(k) && !c.fault && !c.r.pc.RDone?
    ensures ReceiverStep(k, c).0 != c
  {
    if c.r.pc.RCopy? || c.r.pc.RZero? {
      assert ReceiverStep(k, c).0.fault || ReceiverStep(k, c).0.r != c.r;
    }
  }

  /** A process that has not exited is blocked only in sem_wait, while the other one is in a critical
      section of the barrier. */
  lemma BlockedIff(k: Config, y: System, p: nat)
    requires Valid(k) && SysOk(k, y) && p < 2
    ensures SysStep(k, y, p) == y <==>
      || y.w.users[p].pc == Gone
      || (y.w.users[p].pc.Want? && exists q :: 0 <= q < 2 && Critical(y.w.users[q].pc))
  {
    if y.w.users[p].pc.Ready? {
      NotDone(k, y);
      ReadyGoesOn(k, y, p);
    } else {
      BarrierPlaces.BlockedIff(y.w, p);
    }
  }

  lemma NotDone(k: Config, y: System)
    requires Valid(k) && SysOk(k, y)
    ensures !y.c.fault
    ensures y.w.users[SENDER].pc.Ready? ==> !y.c.s.pc.SDone?
    ensures y.w.users[RECEIVER].pc.Ready? ==> !y.c.r.pc.RDone?
  {
  }

  lemma ReadyGoesOn(k: Config, y: System, p: nat)
    requires Valid(k) && p < |y.w.users| == 2 && y.w.users[p].pc.Ready? && !y.c.fault
    requires if p == SENDER then !y.c.s.pc.SDone? else !y.c.r.pc.RDone?
    ensures SysStep(k, y, p) != y
  {
    if p == SENDER {
      SenderReady(k, y);
    } else {
      ReceiverReady(k, y);
    }
  }

  lemma SenderReady(k: Config, y: System)
    requires Valid(k) && |y.w.users| == 2 && y.w.users[SENDER].pc.Ready? && !y.c.fault && !y.c.s.pc.SDone?
    ensures SysStep(k, y, SENDER) != y
  {
    SenderGoesOn(k, y.c);
  }

  lemma ReceiverReady(k: Config, y: System)
    requires Valid(k) && |y.w.users| == 2 && y.w.users[RECEIVER].pc.Ready? && !y.c.fault && !y.c.r.pc.RDone?
    ensures SysStep(k, y, RECEIVER) != y
  {
    ReceiverGoesOn(k, y.c);
  }
}
