/**
 The streaming benchmarks: a pipe shared by all iterations, a FIFO opened and closed in each, and a
 message queue. What the sender and the receiver do between two Waits.

 Reads and writes may be short; how short is up to the scheduler. The receivers ask for a whole
 buffer, never for the bytes still missing, so only the position of the barrier keeps one
 iteration's bytes from the next.
 */
module StreamClient {
  import opened Basics
  import opened BarrierClient

  datatype Channel = PipeChannel | FifoChannel | QueueChannel

  /** `bufferSize` is what both sides are given (for the queue already cut down to the message
      size); `capacity` bounds the bytes in a pipe or the messages in a queue. */
  datatype Config = Config(channel: Channel, iterations: nat, data: seq<Byte>, bufferSize: nat, capacity: nat)

  predicate Valid(k: Config) {
    k.bufferSize > 0 && k.capacity > 0
  }

  const MAX_MESSAGES: nat := 10
  const MAX_MESSAGE_SIZE: nat := 8192

  /** The configuration RunMqBandwidthBenchmark sets up. */
  function QueueConfig(iterations: nat, data: seq<Byte>, bufferSize: nat): Config {
    Config(QueueChannel, iterations, data, Min(bufferSize, MAX_MESSAGE_SIZE), MAX_MESSAGES)
  }

  datatype SenderPC = SHead | SOpening | SBegin | SLoop | SClose | SDone

  datatype Sender = Sender(pc: SenderPC, iter: nat, total: nat)

  datatype ReceiverPC = RHead | ROpening | RBegin | RLoop | RFinish | RDone

  /** `delivered` is history: what VerifyDataReceived was given in each iteration. */
  datatype Receiver = Receiver(pc: ReceiverPC, iter: nat, got: seq<Byte>, delivered: seq<seq<Byte>>)

  /** `bytes` are in transit; for the queue, `marks` are the lengths of the messages they form.
      `fault` records a write without a reader or a message that is too long. */
  datatype Client = Client(
    s: Sender, r: Receiver, bytes: seq<Byte>, marks: seq<nat>, writers: nat, readers: nat, fault: bool)

  function InitClient(k: Config): Client {
    var ends := if k.channel.PipeChannel? then 1 else 0;
    Client(Sender(SHead, 0, 0), Receiver(RHead, 0, [], []), [], [], ends, ends, false)
  }

  // ---------------------------------------------------------------- the channel

  /** What is in transit is lost when the last end is closed. */
  function Settle(k: Config, c: Client): Client {
    if !k.channel.QueueChannel? && c.writers == 0 && c.readers == 0 then c.(bytes := []) else c
  }

  function CloseWriter(k: Config, c: Client): Client {
    Settle(k, c.(writers := if c.writers > 0 then c.writers - 1 else 0))
  }

  function CloseReader(k: Config, c: Client): Client {
    Settle(k, c.(readers := if c.readers > 0 then c.readers - 1 else 0))
  }

  predicate Full(k: Config, c: Client) {
    if k.channel.QueueChannel? then |c.marks| >= k.capacity else |c.bytes| >= k.capacity
  }

  predicate Empty(k: Config, c: Client) {
    if k.channel.QueueChannel? then c.marks == [] else c.bytes == []
  }

  /** A short count: `amount`, but at least one and at most `most`. */
  function Clamp(amount: nat, most: nat): nat {
    if amount == 0 then Min(1, most) else Min(amount, most)
  }

  /** How much a write of `ask` bytes takes. A message goes whole. */
  function Written(k: Config, c: Client, ask: nat, amount: nat): nat
    requires !Full(k, c)
  {
    if k.channel.QueueChannel? then ask
    else Clamp(amount, Min(ask, k.capacity - |c.bytes|))
  }

  /** How much a read gets. A message comes whole. */
  function Taken(k: Config, c: Client, amount: nat): nat {
    if k.channel.QueueChannel? then (if c.marks == [] then 0 else c.marks[0])
    else Clamp(amount, Min(k.bufferSize, |c.bytes|))
  }

  // ---------------------------------------------------------------- the sender

  /** write or mq_send of the next bytes. A full channel blocks. */
  function Write(k: Config, c: Client, amount: nat): Client
    requires c.s.total < |k.data|
  {
    var ask := Min(k.bufferSize, |k.data| - c.s.total);
    if !k.channel.QueueChannel? && c.readers == 0 then c.(fault := true)
    else if Full(k, c) then c
    else
      var n := Written(k, c, ask, amount);
      if c.s.total + n > |k.data| then c.(fault := true)
      else
        c.(s := c.s.(total := c.s.total + n),
           bytes := c.bytes + k.data[c.s.total..c.s.total + n],
           marks := if k.channel.QueueChannel? then c.marks + [n] else c.marks)
  }

  function SenderStep(k: Config, c: Client, amount: nat): (Client, Call) {
    var s := c.s;
    match s.pc
    case SHead =>
      if s.iter >= k.iterations then
        var c' := c.(s := s.(pc := SDone));
        (if k.channel.PipeChannel? then CloseWriter(k, c') else c', DoLeave)
      else if k.channel.FifoChannel? then (c.(s := s.(pc := SOpening), writers := c.writers + 1), Stay)
      else (c.(s := s.(pc := SBegin)), DoWait)
    // open with O_WRONLY blocks until there is a reader
    case SOpening =>
      if c.readers == 0 then (c, Stay) else (c.(s := s.(pc := SBegin)), DoWait)
    case SBegin => (c.(s := s.(pc := SLoop, total := 0)), Stay)
    case SLoop =>
      if s.total >= |k.data| then (c.(s := s.(pc := SClose)), Stay)
      else (Write(k, c, amount), Stay)
    case SClose =>
      var c' := c.(s := s.(pc := SHead, iter := s.iter + 1));
      (if k.channel.FifoChannel? then CloseWriter(k, c') else c', Stay)
    case SDone => (c, Stay)
  }

  // ---------------------------------------------------------------- the receiver

  /** read or mq_receive. An empty channel blocks, unless no writer is left: then it is the end. */
  function Read(k: Config, c: Client, amount: nat): Client {
    if Empty(k, c) then
      if !k.channel.QueueChannel? && c.writers == 0 then c.(r := c.r.(pc := RFinish)) else c
    else
      var n := Taken(k, c, amount);
      if n > |c.bytes| || n > k.bufferSize then c.(fault := true)
      else if n == 0 then c.(r := c.r.(pc := RFinish), marks := if c.marks == [] then [] else c.marks[1..])
      else
        c.(r := c.r.(got := c.r.got + c.bytes[..n]),
           bytes := c.bytes[n..],
           marks := if c.marks == [] then [] else c.marks[1..])
  }

  function ReceiverStep(k: Config, c: Client, amount: nat): (Client, Call) {
    var r := c.r;
    match r.pc
    case RHead =>
      if r.iter >= k.iterations then
        var c' := c.(r := r.(pc := RDone));
        (if k.channel.PipeChannel? then CloseReader(k, c') else c', DoLeave)
      else if k.channel.FifoChannel? then (c.(r := r.(pc := ROpening), readers := c.readers + 1), Stay)
      else (c.(r := r.(pc := RBegin)), DoWait)
    // open with O_RDONLY blocks until there is a writer
    case ROpening =>
      if c.writers == 0 then (c, Stay) else (c.(r := r.(pc := RBegin)), DoWait)
    case RBegin => (c.(r := r.(pc := RLoop, got := [])), Stay)
    case RLoop =>
      if |r.got| >= |k.data| then (c.(r := r.(pc := RFinish)), Stay)
      else (Read(k, c, amount), Stay)
    case RFinish =>
      var c' := c.(r := r.(pc := RHead, iter := r.iter + 1, delivered := r.delivered + [r.got]));
      (if k.channel.FifoChannel? then CloseReader(k, c') else c', Stay)
    case RDone => (c, Stay)
  }

  // ---------------------------------------------------------------- how many Waits come before

  function SenderCalls(s: Sender): nat {
    if s.pc.SBegin? || s.pc.SLoop? || s.pc.SClose? then s.iter + 1 else s.iter
  }

  function ReceiverCalls(r: Receiver): nat {
    if r.pc.RBegin? || r.pc.RLoop? || r.pc.RFinish? then r.iter + 1 else r.iter
  }

  /** What the barrier gives: nobody is more than one Wait ahead, and then it is still waiting. */
  predicate Close(c: Client) {
    var a, b := SenderCalls(c.s), ReceiverCalls(c.r);
    && a <= b + 1 && b <= a + 1
    && (a == b + 1 ==> c.s.pc.SBegin?)
    && (b == a + 1 ==> c.r.pc.RBegin?)
  }
}
