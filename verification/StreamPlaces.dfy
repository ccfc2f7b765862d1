/**
 What single reads, writes, opens and closes can do, in plain numbers: which counts a read or a write
 may return, when it blocks, and how many Waits either side has made at each program point.
 */
module StreamPlaces {
  import opened Basics
  import opened Barrier
  import opened BarrierClient
  import opened StreamClient
  import opened StreamInvariant
  import opened StreamSteps
  import opened StreamSystem
  import BarrierPlaces

  // ---------------------------------------------------------------- which counts

  /** The bytes that a write asks for. */
  predicate AsksFor(k: Config, c: Client, ask: nat) {
    && c.s.pc.SLoop? && c.s.total < |k.data|
    && (if k.bufferSize <= |k.data| - c.s.total then ask == k.bufferSize else ask == |k.data| - c.s.total)
  }

  /** A write has taken exactly the next n bytes. */
  predicate Sends(k: Config, c: Client, c': Client, n: nat) {
    && c.s.total + n <= |k.data|
    && c' == c.(s := c.s.(total := c.s.total + n), bytes := c.bytes + k.data[c.s.total..c.s.total + n],
                marks := c'.marks)
    && (k.channel.QueueChannel? ==> c'.marks == c.marks + [n])
    && (!k.channel.QueueChannel? ==> c'.marks == c.marks)
  }

  /** A write to a pipe or FIFO with a reader and with space may take any count from one up to what was
      asked for and fits. */
  lemma AnyWriteCount(k: Config, c: Client, ask: nat, n: nat) returns (amount: nat)
    requires !k.channel.QueueChannel? && c.readers > 0 && AsksFor(k, c, ask)
    requires 1 <= n <= ask && |c.bytes| + n <= k.capacity
    ensures SenderStep(k, c, amount).1 == Stay && Sends(k, c, SenderStep(k, c, amount).0, n)
  {
    amount := n;
  }

  /** And no other. */
  lemma OnlyWriteCounts(k: Config, c: Client, ask: nat, amount: nat) returns (n: nat)
    requires Valid(k) && !k.channel.QueueChannel? && c.readers > 0 && AsksFor(k, c, ask)
    requires |c.bytes| < k.capacity
    ensures 1 <= n <= ask && |c.bytes| + n <= k.capacity
    ensures SenderStep(k, c, amount).1 == Stay && Sends(k, c, SenderStep(k, c, amount).0, n)
  {
    n := Written(k, c, ask, amount);
  }

  /** A message goes whole, whatever the scheduler would like. */
  lemma WholeMessageSent(k: Config, c: Client, ask: nat, amount: nat)
    requires k.channel.QueueChannel? && |c.marks| < k.capacity && AsksFor(k, c, ask)
    ensures SenderStep(k, c, amount).1 == Stay && Sends(k, c, SenderStep(k, c, amount).0, ask)
  {
  }

  /** In the queue that the benchmark sets up there is room for ten messages of up to 8192 bytes. */
  lemma RoomForTen(iterations: nat, data: seq<Byte>, bufferSize: nat, c: Client, n: nat, amount: nat)
    requires c.s.pc.SLoop? && c.s.total < |data| && |c.marks| < 10
    requires n <= bufferSize && n <= 8192 && n <= |data| - c.s.total
    requires n == bufferSize || n == 8192 || n == |data| - c.s.total
    ensures var k := QueueConfig(iterations, data, bufferSize);
      SenderStep(k, c, amount).1 == Stay && Sends(k, c, SenderStep(k, c, amount).0, n)
  {
    WholeMessageSent(QueueConfig(iterations, data, bufferSize), c, n, amount);
  }

  /** A read has taken exactly the first n bytes. */
  predicate Receives(k: Config, c: Client, c': Client, n: nat) {
    && n <= |c.bytes|
    && c' == c.(r := c.r.(got := c.r.got + c.bytes[..n]), bytes := c.bytes[n..], marks := c'.marks)
    && (k.channel.QueueChannel? ==> |c.marks| > 0 && c.marks == [n] + c'.marks)
    && (!k.channel.QueueChannel? ==> c'.marks == c.marks)
  }

  predicate WantsMore(k: Config, c: Client) {
    c.r.pc.RLoop? && |c.r.got| < |k.data|
  }

  /** A read from a pipe or FIFO may return any count from one up to a whole buffer and what is there,
      even more than the receiver still needs. */
  lemma AnyReadCount(k: Config, c: Client, n: nat) returns (amount: nat)
    requires !k.channel.QueueChannel? && WantsMore(k, c) && c.marks == []
    requires 1 <= n <= k.bufferSize && n <= |c.bytes|
    ensures ReceiverStep(k, c, amount).1 == Stay && Receives(k, c, ReceiverStep(k, c, amount).0, n)
  {
    amount := n;
  }

  /** And no other. */
  lemma OnlyReadCounts(k: Config, c: Client, amount: nat) returns (n: nat)
    requires Valid(k) && !k.channel.QueueChannel? && WantsMore(k, c) && c.marks == [] && c.bytes != []
    ensures 1 <= n <= k.bufferSize && n <= |c.bytes|
    ensures ReceiverStep(k, c, amount).1 == Stay && Receives(k, c, ReceiverStep(k, c, amount).0, n)
  {
    n := Taken(k, c, amount);
  }

  /** A message comes whole. */
  lemma WholeMessageReceived(k: Config, c: Client, amount: nat)
    requires k.channel.QueueChannel? && WantsMore(k, c) && Messages(k, c) && c.marks != []
    ensures ReceiverStep(k, c, amount).1 == Stay && Receives(k, c, ReceiverStep(k, c, amount).0, c.marks[0])
  {
    assert Sum(c.marks) == c.marks[0] + Sum(c.marks[1..]);
    assert c.marks == [c.marks[0]] + c.marks[1..];
  }

  // ---------------------------------------------------------------- blocking

  /** A write to a full channel and a read from an empty one wait. Without a reader a write faults;
      without a writer an empty pipe or FIFO is at its end. */
  lemma WriteBlocks(k: Config, c: Client, amount: nat)
    requires c.s.pc.SLoop? && c.s.total < |k.data|
    ensures !k.channel.QueueChannel? && c.readers == 0 ==> SenderStep(k, c, amount) == (c.(fault := true), Stay)
    ensures !k.channel.QueueChannel? && c.readers > 0 && |c.bytes| >= k.capacity ==> SenderStep(k, c, amount) == (c, Stay)
    ensures k.channel.QueueChannel? && |c.marks| >= k.capacity ==> SenderStep(k, c, amount) == (c, Stay)
  {
  }

  lemma ReadBlocks(k: Config, c: Client, amount: nat)
    requires WantsMore(k, c)
    ensures k.channel.QueueChannel? && c.marks == [] ==> ReceiverStep(k, c, amount) == (c, Stay)
    ensures !k.channel.QueueChannel? && c.bytes == [] && c.writers > 0 ==> ReceiverStep(k, c, amount) == (c, Stay)
    ensures !k.channel.QueueChannel? && c.bytes == [] && c.writers == 0 ==>
      ReceiverStep(k, c, amount) == (c.(r := c.r.(pc := RFinish)), Stay)
  {
  }

  /** Each open of the FIFO waits for the other one. */
  lemma OpensMeet(k: Config, c: Client, amount: nat)
    ensures c.s.pc.SOpening? ==> (SenderStep(k, c, amount).1.DoWait? <==> c.readers > 0)
    ensures c.r.pc.ROpening? ==> (ReceiverStep(k, c, amount).1.DoWait? <==> c.writers > 0)
    ensures c.s.pc.SHead? && c.s.iter < k.iterations && k.channel.FifoChannel? ==>
      SenderStep(k, c, amount) == (c.(s := c.s.(pc := SOpening), writers := c.writers + 1), Stay)
    ensures c.r.pc.RHead? && c.r.iter < k.iterations && k.channel.FifoChannel? ==>
      ReceiverStep(k, c, amount) == (c.(r := c.r.(pc := ROpening), readers := c.readers + 1), Stay)
  {
  }

  /** Closing the last end of a pipe or FIFO loses what is in it; otherwise it stays. */
  lemma ClosingLoses(k: Config, c: Client, amount: nat)
    requires k.channel.FifoChannel? && c.writers == 1 && c.readers <= 1
    ensures c.s.pc.SClose? ==>
      SenderStep(k, c, amount).0.writers == 0 && SenderStep(k, c, amount).0.bytes == if c.readers == 0 then [] else c.bytes
    ensures c.r.pc.RFinish? && c.readers == 1 ==>
      ReceiverStep(k, c, amount).0.readers == 0 && ReceiverStep(k, c, amount).0.bytes == c.bytes
  {
  }

  // ---------------------------------------------------------------- how many Waits

  predicate SidesAt(y: System) {
    && |y.w.users| == 2
    && (y.w.users[SENDER].pc.Ready? ==> SenderAt(y.c.s, y.w.users[SENDER].round))
    && (y.w.users[RECEIVER].pc.Ready? ==> ReceiverAt(y.c.r, y.w.users[RECEIVER].round))
  }

  predicate SenderAt(s: Sender, made: nat) {
    match s.pc
    case SHead => made == s.iter
    case SOpening => made == s.iter
    case SBegin => made == s.iter + 1
    case SLoop => made == s.iter + 1
    case SClose => made == s.iter + 1
    case SDone => true
  }

  predicate ReceiverAt(r: Receiver, made: nat) {
    match r.pc
    case RHead => made == r.iter
    case ROpening => made == r.iter
    case RBegin => made == r.iter + 1
    case RLoop => made == r.iter + 1
    case RFinish => made == r.iter + 1
    case RDone => true
  }

  /** One Wait an iteration, after the open and before the first byte. */
  lemma WaitPlaces(k: Config, schedule: seq<Choice>)
    requires Valid(k)
    ensures SidesAt(SysRun(k, StreamSystem.Start(k), schedule))
  {
    StartOk(k);
    SysRunOk(k, StreamSystem.Start(k), schedule);
    var y := SysRun(k, StreamSystem.Start(k), schedule);
    SenderPlace(y.w.users[SENDER], y.c.s);
    ReceiverPlace(y.w.users[RECEIVER], y.c.r);
  }

  lemma SenderPlace(u: User, s: Sender)
    requires SenderMatches(u, s)
    ensures u.pc.Ready? ==> SenderAt(s, u.round)
  {
  }

  lemma ReceiverPlace(u: User, r: Receiver)
    requires ReceiverMatches(u, r)
    ensures u.pc.Ready? ==> ReceiverAt(r, u.round)
  {
  }

  /** A process that has not exited is blocked only in sem_wait, while the other one is in a critical
      section of the barrier; or in the open of a FIFO that the other one has not opened; or in a write
      to a full channel or a read from an empty one. */
  lemma BlockedIff(k: Config, y: System, e: Choice)
    requires Valid(k) && SysOk(k, y) && e.pid < 2
    ensures SysStep(k, y, e) == y <==>
      || y.w.users[e.pid].pc == Gone
      || (y.w.users[e.pid].pc.Want? && exists q :: 0 <= q < 2 && Critical(y.w.users[q].pc))
      || (y.w.users[e.pid].pc.Ready? && if e.pid == SENDER then SenderWaits(k, y.c) else ReceiverWaits(k, y.c))
  {
    if y.w.users[e.pid].pc.Ready? {
      if e.pid == SENDER {
        SenderWaitsIff(k, y, e.amount);
        assert e == Choice(SENDER, e.amount);
      } else {
        ReceiverWaitsIff(k, y, e.amount);
        assert e == Choice(RECEIVER, e.amount);
      }
    } else {
      BarrierPlaces.BlockedIff(y.w, e.pid);
    }
  }

  predicate SenderWaits(k: Config, c: Client) {
    || (c.s.pc.SOpening? && c.readers == 0)
    || (c.s.pc.SLoop? && c.s.total < |k.data|
        && if k.channel.QueueChannel? then |c.marks| >= k.capacity else |c.bytes| >= k.capacity)
  }

  predicate ReceiverWaits(k: Config, c: Client) {
    || (c.r.pc.ROpening? && c.writers == 0)
    || (c.r.pc.RLoop? && |c.r.got| < |k.data| && c.bytes == [])
  }

  lemma SenderWaitsIff(k: Config, y: System, amount: nat)
    requires Valid(k) && SysOk(k, y) && y.w.users[SENDER].pc.Ready?
    ensures SysStep(k, y, Choice(SENDER, amount)) == y <==> SenderWaits(k, y.c)
  {
    SysClose(k, y);
    SenderStill(k, y.c, amount);
    PerformUser(y.w, SENDER, SenderStep(k, y.c, amount).1);
  }

  lemma SenderStill(k: Config, c: Client, amount: nat)
    requires Valid(k) && ClientOk(k, c) && Close(c) && !c.s.pc.SDone?
    ensures SenderStep(k, c, amount) == (c, Stay) <==> SenderWaits(k, c)
  {
    if SenderBlocked(k, c) {
      BlockedSenderStays(k, c, amount);
    } else if SenderStep(k, c, amount).1.Stay? {
      SenderWorks(k, c, amount);
    }
  }

  lemma ReceiverWaitsIff(k: Config, y: System, amount: nat)
    requires Valid(k) && SysOk(k, y) && y.w.users[RECEIVER].pc.Ready?
    ensures SysStep(k, y, Choice(RECEIVER, amount)) == y <==> ReceiverWaits(k, y.c)
  {
    SysClose(k, y);
    ReceiverStill(k, y.c, amount);
    PerformUser(y.w, RECEIVER, ReceiverStep(k, y.c, amount).1);
  }

  lemma ReceiverStill(k: Config, c: Client, amount: nat)
    requires Valid(k) && ClientOk(k, c) && Close(c) && !c.r.pc.RDone?
    ensures ReceiverStep(k, c, amount) == (c, Stay) <==> ReceiverWaits(k, c)
  {
    EmptyIs(k, c);
    if ReceiverBlocked(k, c) {
      BlockedReceiverStays(k, c, amount);
    } else if ReceiverStep(k, c, amount).1.Stay? {
      ReceiverWorks(k, c, amount);
    }
  }
}
