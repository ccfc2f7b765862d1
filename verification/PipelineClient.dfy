/**
 The double-buffered pipeline of the shm and mmap benchmarks: what the sender and the receiver do
 between two calls of the barrier.

 Each step makes at most one access to shared memory, and copies go byte by byte. The barrier
 enters only through Close: nobody is more than one Wait ahead, and whoever is ahead has not
 touched anything since its call.
 */
module PipelineClient {
  import opened Basics
  import opened Barrier
  import opened BarrierClient

  datatype Benchmark = ShmBench | MmapBench

  /** `iterations` counts warm-ups too; `data` is data_to_send. */
  datatype Config = Config(bench: Benchmark, iterations: nat, data: seq<Byte>, bufferSize: nat)

  /** The sizes the program accepts: no empty buffer, and no 64-bit sum wraps around. */
  predicate Valid(k: Config) {
    && k.bufferSize > 0
    && |k.data| + k.bufferSize - 1 <= MAX_UINT64
    && 16 + 2 * k.bufferSize <= MAX_UINT64
  }

  function Pipeline(k: Config): nat
    requires Valid(k)
  {
    (|k.data| + k.bufferSize - 1) / k.bufferSize + 1
  }

  /** Where the slot of pipeline index i starts. */
  function SlotStart(k: Config, i: nat): nat { (i % 2) * k.bufferSize }

  /** A mapped buffer: the two size words, then two slots of bytes. */
  datatype Buffer = Buffer(sizes: seq<nat>, bytes: seq<Byte>)

  function Zeroed(k: Config): Buffer { Buffer([0, 0], seq(2 * k.bufferSize, _ => 0)) }

  // ---------------------------------------------------------------- local states

  datatype SenderPC =
    | SBoot | SHead
    | STruncate | SResize | SZero // mmap
    | SAttach // shm
    | SBegin | SLoop | SBody | SCopy | SPublish | SFinish | SDone

  datatype Sender = Sender(pc: SenderPC, iter: nat, i: nat, sent: nat, size: nat, j: nat, map_: nat)

  datatype ReceiverPC =
    | RBoot | RHead
    | RCreate | RZero | RAlloc // shm
    | RAttach // mmap
    | RBegin | RLoop | RBody | RCopy | RTally | RFinish | RDone

  /** `delivered` is history: what VerifyDataReceived was given in each iteration. */
  datatype Receiver = Receiver(
    pc: ReceiverPC, iter: nat, i: nat, got: nat, size: nat, j: nat, map_: nat,
    received: seq<Byte>, delivered: seq<seq<Byte>>)

  /** `name` is the shared memory object or the file; `fault` records an access outside a buffer. */
  datatype Client = Client(
    s: Sender, r: Receiver, objs: seq<Buffer>, name: Option<nat>, fault: bool)

  function InitClient(k: Config): Client {
    var boot := k.bench.MmapBench?;
    Client(Sender(if boot then SBoot else SHead, 0, 0, 0, 0, 0, 0),
           Receiver(if boot then RBoot else RHead, 0, 0, 0, 0, 0, 0, [], []),
           [], None, false)
  }

  // ---------------------------------------------------------------- memory accesses

  function Fault(c: Client): Client { c.(fault := true) }

  function WriteByte(c: Client, id: nat, at: nat, b: Byte): Client {
    if id < |c.objs| && at < |c.objs[id].bytes| then
      c.(objs := c.objs[id := c.objs[id].(bytes := c.objs[id].bytes[at := b])])
    else Fault(c)
  }

  function WriteSize(c: Client, id: nat, slot: nat, n: nat): Client {
    if id < |c.objs| && slot < |c.objs[id].sizes| then
      c.(objs := c.objs[id := c.objs[id].(sizes := c.objs[id].sizes[slot := n])])
    else Fault(c)
  }

  /** memset, cell by cell: the size words come first. */
  function ZeroCell(c: Client, id: nat, j: nat): Client {
    if j < 2 then WriteSize(c, id, j, 0) else WriteByte(c, id, j - 2, 0)
  }

  function SizeAt(c: Client, id: nat, slot: nat): Option<nat> {
    if id < |c.objs| && slot < |c.objs[id].sizes| then Some(c.objs[id].sizes[slot]) else None
  }

  function ByteAt(c: Client, id: nat, at: nat): Option<Byte> {
    if id < |c.objs| && at < |c.objs[id].bytes| then Some(c.objs[id].bytes[at]) else None
  }

  // ---------------------------------------------------------------- the sender

  function SenderStep(k: Config, c: Client): (Client, Call)
    requires Valid(k)
  {
    var s := c.s;
    match s.pc
    case SBoot => (c.(s := s.(pc := SHead)), DoWait)
    case SHead =>
      if s.iter >= k.iterations then (c.(s := s.(pc := SDone)), DoLeave)
      else if k.bench.ShmBench? then (c.(s := s.(pc := SAttach)), DoWait)
      else (c.(s := s.(pc := STruncate)), Stay)
    // open with O_CREAT and O_TRUNC
    case STruncate =>
      (match c.name
       case None =>
         c.(objs := c.objs + [Buffer([], [])], name := Some(|c.objs|), s := s.(pc := SResize, map_ := |c.objs|))
       case Some(id) =>
         if id < |c.objs| then c.(objs := c.objs[id := Buffer([], [])], s := s.(pc := SResize, map_ := id))
         else Fault(c),
       Stay)
    // ftruncate and mmap
    case SResize =>
      if s.map_ < |c.objs| then
        (c.(objs := c.objs[s.map_ := Zeroed(k)], s := s.(pc := SZero, j := 0)), DoWait)
      else (Fault(c), Stay)
    case SZero =>
      if s.j < 2 + 2 * k.bufferSize then (ZeroCell(c, s.map_, s.j).(s := s.(j := s.j + 1)), Stay)
      else (c.(s := s.(pc := SBegin)), DoWait)
    case SAttach =>
      (match c.name
       case None => (Fault(c), Stay)
       case Some(id) => (c.(s := s.(pc := SBegin, map_ := id)), DoWait))
    case SBegin => (c.(s := s.(pc := SLoop, sent := 0, i := 0)), Stay)
    case SLoop => (c.(s := s.(pc := if s.i < Pipeline(k) then SBody else SFinish)), DoWait)
    case SBody =>
      if s.sent <= |k.data| then
        (c.(s := s.(pc := SCopy, size := Min(|k.data| - s.sent, k.bufferSize), j := 0)), Stay)
      else (Fault(c), Stay)
    case SCopy =>
      if s.j >= s.size then (c.(s := s.(pc := SPublish)), Stay)
      else if s.sent + s.j < |k.data| then
        (WriteByte(c, s.map_, SlotStart(k, s.i) + s.j, k.data[s.sent + s.j]).(s := s.(j := s.j + 1)), Stay)
      else (Fault(c), Stay)
    case SPublish =>
      (WriteSize(c, s.map_, s.i % 2, s.size).(s := s.(pc := SLoop, sent := s.sent + s.size, i := s.i + 1)), Stay)
    case SFinish => (c.(s := s.(pc := SHead, iter := s.iter + 1)), Stay)
    case SDone => (c, Stay)
  }

  // ---------------------------------------------------------------- the receiver

  /** shm_open with O_CREAT, ftruncate and mmap. */
  function CreateBuffer(k: Config, c: Client): Client {
    match c.name
    case None =>
      c.(objs := c.objs + [Zeroed(k)], name := Some(|c.objs|),
         r := c.r.(pc := RZero, j := 0, map_ := |c.objs|))
    case Some(id) =>
      if id < |c.objs| && |c.objs[id].sizes| == 2 && |c.objs[id].bytes| == 2 * k.bufferSize then
        c.(r := c.r.(pc := RZero, j := 0, map_ := id))
      else Fault(c)
  }

  function ReceiverStep(k: Config, c: Client): (Client, Call)
    requires Valid(k)
  {
    var r := c.r;
    match r.pc
    case RBoot => (c.(r := r.(pc := RHead)), DoWait)
    case RHead =>
      if r.iter >= k.iterations then (c.(r := r.(pc := RDone)), DoLeave)
      else if k.bench.ShmBench? then (c.(r := r.(pc := RCreate)), Stay)
      else (c.(r := r.(pc := RAttach)), DoWait)
    case RCreate => (CreateBuffer(k, c), Stay)
    case RZero =>
      if r.j < 2 + 2 * k.bufferSize then (ZeroCell(c, r.map_, r.j).(r := r.(j := r.j + 1)), Stay)
      else (c.(r := r.(pc := RAlloc)), DoWait)
    case RAlloc =>
      (c.(r := r.(pc := RBegin, received := seq(|k.data|, _ => 0))), DoWait)
    // open, fstat and mmap: an empty file cannot be mapped
    case RAttach =>
      (match c.name
       case None => (Fault(c), Stay)
       case Some(id) =>
         if id < |c.objs| && |c.objs[id].sizes| == 2 then
           (c.(r := r.(pc := RBegin, map_ := id, received := seq(|k.data|, _ => 0))), DoWait)
         else (Fault(c), Stay))
    case RBegin => (c.(r := r.(pc := RLoop, got := 0, i := 0)), Stay)
    case RLoop => (c.(r := r.(pc := if r.i < Pipeline(k) then RBody else RFinish)), DoWait)
    case RBody =>
      (match SizeAt(c, r.map_, (r.i + 1) % 2)
       case None => (Fault(c), Stay)
       case Some(n) => (c.(r := r.(pc := RCopy, size := n, j := 0)), Stay))
    case RCopy =>
      if r.j >= r.size then (c.(r := r.(pc := RTally)), Stay)
      else
        (match ByteAt(c, r.map_, SlotStart(k, r.i + 1) + r.j)
         case None => (Fault(c), Stay)
         case Some(b) =>
           if r.got + r.j < |r.received| then
             (c.(r := r.(received := r.received[r.got + r.j := b], j := r.j + 1)), Stay)
           else (Fault(c), Stay))
    // shm reads the size word a second time, mmap kept it in a local
    case RTally =>
      (match if k.bench.ShmBench? then SizeAt(c, r.map_, (r.i + 1) % 2) else Some(r.size)
       case None => (Fault(c), Stay)
       case Some(n) => (c.(r := r.(pc := RLoop, got := r.got + n, i := r.i + 1)), Stay))
    // verify, munmap and, for shm, shm_unlink
    case RFinish =>
      (c.(r := r.(pc := RHead, iter := r.iter + 1, delivered := r.delivered + [r.received]),
          name := if k.bench.ShmBench? then None else c.name), Stay)
    case RDone => (c, Stay)
  }

  // ---------------------------------------------------------------- how many Waits come before

  function Waits(k: Config): nat
    requires Valid(k)
  {
    3 + Pipeline(k)
  }

  /** The number of Waits before iteration t. */
  function Base(k: Config, t: nat): nat
    requires Valid(k)
  {
    if t == 0 then (if k.bench.MmapBench? then 1 else 0) else Base(k, t - 1) + Waits(k)
  }

  function SenderCalls(k: Config, s: Sender): nat
    requires Valid(k)
  {
    match s.pc
    case SBoot => 0
    case SZero => Base(k, s.iter) + 1
    case SAttach => Base(k, s.iter) + 1
    case SBegin => Base(k, s.iter) + 2
    case SLoop => Base(k, s.iter) + 2 + s.i
    case SBody => Base(k, s.iter) + 3 + s.i
    case SCopy => Base(k, s.iter) + 3 + s.i
    case SPublish => Base(k, s.iter) + 3 + s.i
    case SFinish => Base(k, s.iter) + Waits(k)
    case _ => Base(k, s.iter)
  }

  function ReceiverCalls(k: Config, r: Receiver): nat
    requires Valid(k)
  {
    match r.pc
    case RBoot => 0
    case RAlloc => Base(k, r.iter) + 1
    case RAttach => Base(k, r.iter) + 1
    case RBegin => Base(k, r.iter) + 2
    case RLoop => Base(k, r.iter) + 2 + r.i
    case RBody => Base(k, r.iter) + 3 + r.i
    case RCopy => Base(k, r.iter) + 3 + r.i
    case RTally => Base(k, r.iter) + 3 + r.i
    case RFinish => Base(k, r.iter) + Waits(k)
    case _ => Base(k, r.iter)
  }

  /** The points at which a Wait returns. */
  predicate SenderLands(s: Sender) {
    || s.pc.SAttach? || s.pc.SBegin? || s.pc.SBody? || s.pc.SFinish?
    || (s.pc.SZero? && s.j == 0) || (s.pc.SHead? && s.iter == 0)
  }

  predicate ReceiverLands(r: Receiver) {
    || r.pc.RAttach? || r.pc.RAlloc? || r.pc.RBegin? || r.pc.RBody? || r.pc.RFinish?
    || (r.pc.RHead? && r.iter == 0)
  }

  /** What the barrier gives: nobody is more than one Wait ahead, and then it is still waiting. */
  predicate Close(k: Config, c: Client)
    requires Valid(k)
  {
    var a, b := SenderCalls(k, c.s), ReceiverCalls(k, c.r);
    && a <= b + 1 && b <= a + 1
    && (a == b + 1 ==> SenderLands(c.s))
    && (b == a + 1 ==> ReceiverLands(c.r))
  }
}
