/** The streaming benchmarks on top of the real barrier, under any schedule and any short counts. */
module StreamSystem {
  import opened Basics
  import opened Barrier
  import opened BarrierClient
  import opened BarrierInvariant
  import opened BarrierProgress
  import opened StreamClient
  import opened StreamInvariant
  import opened StreamSteps

  const SENDER: nat := 0
  const RECEIVER: nat := 1

  datatype System = System(w: World, c: Client)

  /** Who moves, and how many bytes its read or write may transfer. */
  datatype Choice = Choice(pid: nat, amount: nat)

  function Start(k: Config): System { System(Init(2), InitClient(k)) }

  function SysStep(k: Config, y: System, e: Choice): System {
    if e.pid >= |y.w.users| then y
    else if !y.w.users[e.pid].pc.Ready? then y.(w := Step(y.w, e.pid))
    else
      var (c, call) :=
        if e.pid == SENDER then SenderStep(k, y.c, e.amount) else ReceiverStep(k, y.c, e.amount);
      System(Perform(y.w, e.pid, call), c)
  }

  function SysRun(k: Config, y: System, schedule: seq<Choice>): System
    decreases |schedule|
  {
    if schedule == [] then y else SysRun(k, SysStep(k, y, schedule[0]), schedule[1..])
  }

  // ---------------------------------------------------------------- the composed invariant

  predicate SenderMatches(u: User, s: Sender) {
    && Calls(u) == SenderCalls(s)
    && (InCall(u.pc) ==> s.pc.SBegin?)
    && (Leaving(u.pc) <==> s.pc.SDone?)
  }

  predicate ReceiverMatches(u: User, r: Receiver) {
    && Calls(u) == ReceiverCalls(r)
    && (InCall(u.pc) ==> r.pc.RBegin?)
    && (Leaving(u.pc) <==> r.pc.RDone?)
  }

  predicate SysOk(k: Config, y: System) {
    && Inv(y.w) && |y.w.users| == 2
    && ClientOk(k, y.c)
    && SenderMatches(y.w.users[SENDER], y.c.s)
    && ReceiverMatches(y.w.users[RECEIVER], y.c.r)
  }

  lemma SysClose(k: Config, y: System)
    requires SysOk(k, y)
    ensures Close(y.c)
    ensures y.w.users[SENDER].pc.Ready? ==> SenderCalls(y.c.s) == y.w.phase <= ReceiverCalls(y.c.r)
    ensures y.w.users[RECEIVER].pc.Ready? ==> ReceiverCalls(y.c.r) == y.w.phase <= SenderCalls(y.c.s)
  {
    CallsClose(y.w, SENDER);
    CallsClose(y.w, RECEIVER);
  }

  lemma BarrierStepOk(k: Config, y: System, p: nat)
    requires SysOk(k, y) && p < 2
    ensures SysOk(k, y.(w := Step(y.w, p)))
  {
    StepInv(y.w, p);
    StepCalls(y.w, p);
  }

  lemma SenderStepOk(k: Config, y: System, amount: nat)
    requires Valid(k) && SysOk(k, y) && y.w.users[SENDER].pc.Ready?
    ensures SysOk(k, SysStep(k, y, Choice(SENDER, amount)))
  {
    SysClose(k, y);
    SenderOkStep(k, y.c, amount);
    SenderCounts(k, y.c, amount);
    PerformInv(y.w, SENDER, SenderStep(k, y.c, amount).1);
    PerformOk(y.w, SENDER, SenderStep(k, y.c, amount).1);
  }

  lemma ReceiverStepOk(k: Config, y: System, amount: nat)
    requires Valid(k) && SysOk(k, y) && y.w.users[RECEIVER].pc.Ready?
    ensures SysOk(k, SysStep(k, y, Choice(RECEIVER, amount)))
  {
    SysClose(k, y);
    ReceiverOkStep(k, y.c, amount);
    ReceiverCounts(k, y.c, amount);
    PerformInv(y.w, RECEIVER, ReceiverStep(k, y.c, amount).1);
    PerformOk(y.w, RECEIVER, ReceiverStep(k, y.c, amount).1);
  }

  lemma SysStepOk(k: Config, y: System, e: Choice)
    requires Valid(k) && SysOk(k, y)
    ensures SysOk(k, SysStep(k, y, e))
  {
    if e.pid < 2 {
      if !y.w.users[e.pid].pc.Ready? {
        BarrierStepOk(k, y, e.pid);
      } else if e.pid == SENDER {
        SenderStepOk(k, y, e.amount);
      } else {
        ReceiverStepOk(k, y, e.amount);
      }
    }
  }

  lemma StartOk(k: Config)
    ensures SysOk(k, Start(k))
  {
    InitInv(2);
  }

  lemma {:induction false} SysRunOk(k: Config, y: System, schedule: seq<Choice>)
    requires Valid(k) && SysOk(k, y)
    ensures SysOk(k, SysRun(k, y, schedule))
    decreases |schedule|
  {
    if schedule != [] {
      SysStepOk(k, y, schedule[0]);
      SysRunOk(k, SysStep(k, y, schedule[0]), schedule[1..]);
    }
  }

  // ---------------------------------------------------------------- what arrives

  /** Whatever the schedule and the short counts: nobody writes without a reader, every iteration
      hands the verifier exactly the bytes that were sent, and at every moment what has been received,
      what is in transit and what is unsent make up the data. */
  lemma StreamDelivers(k: Config, schedule: seq<Choice>)
    requires Valid(k)
    ensures var c := SysRun(k, Start(k), schedule).c;
      && !c.fault
      && |c.r.delivered| == c.r.iter
      && (forall t :: 0 <= t < |c.r.delivered| ==> c.r.delivered[t] == k.data)
      && (c.r.pc.RFinish? ==> c.r.got == k.data)
      && Conserved(k, c)
  {
    StartOk(k);
    SysRunOk(k, Start(k), schedule);
    ReachedConserved(k, SysRun(k, Start(k), schedule));
  }

  /** GotUpTo and SentUpTo are places in the data of the iteration that the two sides share or, when
      one side is an iteration ahead, of the one that the other is still in. */
  predicate Conserved(k: Config, c: Client) {
    && GotUpTo(k, c) <= SentUpTo(k, c) <= |k.data|
    && k.data[..GotUpTo(k, c)] + c.bytes + k.data[SentUpTo(k, c)..] == k.data
    && (c.r.pc.RLoop? || c.r.pc.RFinish? ==> c.r.got == k.data[..GotUpTo(k, c)])
    && (c.s.pc.SLoop? && c.r.iter <= c.s.iter ==>
          SentUpTo(k, c) == if c.s.iter == c.r.iter then c.s.total else |k.data|)
  }

  lemma TransitConserved(k: Config, c: Client)
    requires Transit(k, c)
    ensures k.data[..GotUpTo(k, c)] + c.bytes + k.data[SentUpTo(k, c)..] == k.data
  {
    var got, sent := GotUpTo(k, c), SentUpTo(k, c);
    assert k.data == k.data[..got] + k.data[got..sent] + k.data[sent..];
  }

  lemma ReachedConserved(k: Config, y: System)
    requires Valid(k) && SysOk(k, y)
    ensures Conserved(k, y.c)
  {
    SysClose(k, y);
    TransitConserved(k, y.c);
    GotIsPrefix(k, y.c);
  }

  /** A receiver in its loop is never an iteration ahead of the sender. */
  lemma GotIsPrefix(k: Config, c: Client)
    requires ReceiverOk(k, c.r) && SenderOk(k, c.s) && Close(c)
    ensures c.r.pc.RLoop? || c.r.pc.RFinish? ==>
      c.r.iter <= c.s.iter && |c.r.got| <= |k.data| && c.r.got == k.data[..GotUpTo(k, c)]
  {
    assert k.data[..|k.data|] == k.data;
  }

  /** When the barrier lets the sender into an iteration, nothing of an earlier one is left. */
  lemma EmptyAtRelease(k: Config, schedule: seq<Choice>)
    requires Valid(k)
    ensures var y := SysRun(k, Start(k), schedule);
      |y.w.users| == 2 && (y.w.users[SENDER].pc.Ready? && y.c.s.pc.SBegin? ==> y.c.bytes == [] && y.c.marks == [])
  {
    StartOk(k);
    SysRunOk(k, Start(k), schedule);
    var y := SysRun(k, Start(k), schedule);
    if y.w.users[SENDER].pc.Ready? && y.c.s.pc.SBegin? {
      SysClose(k, y);
      assert y.c.s.iter <= y.c.r.iter;
      EmptyIs(k, y.c);
    }
  }

  /** The queue never holds more than ten messages, none of them empty or longer than the buffer the
      receiver offers. */
  lemma QueueBounded(iterations: nat, data: seq<Byte>, bufferSize: nat, schedule: seq<Choice>)
    requires bufferSize > 0
    ensures var k := QueueConfig(iterations, data, bufferSize);
      var c := SysRun(k, Start(k), schedule).c;
      && |c.marks| <= 10 && Sum(c.marks) == |c.bytes|
      && forall i :: 0 <= i < |c.marks| ==> 1 <= c.marks[i] <= Min(bufferSize, 8192)
  {
    var k := QueueConfig(iterations, data, bufferSize);
    StartOk(k);
    SysRunOk(k, Start(k), schedule);
  }

  // ---------------------------------------------------------------- the end is always in reach

  function SenderWork(k: Config, s: Sender): nat {
    match s.pc
    case SClose => 3
    case SHead => 2
    case SOpening => 1
    case SBegin => |k.data| + 5
    case SLoop => 4 + (if s.total < |k.data| then |k.data| - s.total else 0)
    case SDone => 0
  }

  function ReceiverWork(k: Config, r: Receiver): nat {
    match r.pc
    case RFinish => 3
    case RHead => 2
    case ROpening => 1
    case RBegin => |k.data| + 5
    case RLoop => 4 + (if |r.got| < |k.data| then |k.data| - |r.got| else 0)
    case RDone => 0
  }

  /** Waiting for a reader, or for space. */
  predicate SenderBlocked(k: Config, c: Client) {
    (c.s.pc.SOpening? && c.readers == 0) || (c.s.pc.SLoop? && c.s.total < |k.data| && Full(k, c))
  }

  /** Waiting for a writer, or for bytes. */
  predicate ReceiverBlocked(k: Config, c: Client) {
    || (c.r.pc.ROpening? && c.writers == 0)
    || (c.r.pc.RLoop? && |c.r.got| < |k.data| && Empty(k, c))
  }

  /** A step that is not blocked and ends in no call lowers the work, however short its count. */
  lemma SenderWorks(k: Config, c: Client, amount: nat)
    requires Valid(k) && ClientOk(k, c) && Close(c) && !c.s.pc.SDone? && !SenderBlocked(k, c)
    requires SenderStep(k, c, amount).1.Stay?
    ensures SenderWork(k, SenderStep(k, c, amount).0.s) < SenderWork(k, c.s)
  {
    if c.s.pc.SLoop? && c.s.total < |k.data| {
      WriteTogether(k, c);
      WriteEffect(k, c, amount);
    }
  }

  lemma ReceiverWorks(k: Config, c: Client, amount: nat)
    requires Valid(k) && ClientOk(k, c) && !c.r.pc.RDone? && !ReceiverBlocked(k, c)
    requires ReceiverStep(k, c, amount).1.Stay?
    ensures ReceiverWork(k, ReceiverStep(k, c, amount).0.r) < ReceiverWork(k, c.r)
  {
    if c.r.pc.RLoop? && |c.r.got| < |k.data| {
      ReadEffect(k, c, amount);
    }
  }

  /** A step that is blocked does nothing. */
  lemma BlockedSenderStays(k: Config, c: Client, amount: nat)
    requires Valid(k) && ClientOk(k, c) && Close(c) && SenderBlocked(k, c)
    ensures SenderStep(k, c, amount) == (c, Stay)
  {
    if c.s.pc.SLoop? {
      WriteTogether(k, c);
    }
  }

  lemma BlockedReceiverStays(k: Config, c: Client, amount: nat)
    requires Valid(k) && ClientOk(k, c) && Close(c) && ReceiverBlocked(k, c)
    ensures ReceiverStep(k, c, amount) == (c, Stay)
  {
    if c.r.pc.RLoop? {
      ReadTogether(k, c);
      EmptyIs(k, c);
    }
  }

  /** When one side is blocked the other is not, has not left, and has not run ahead. */
  lemma BlockedSender(k: Config, c: Client)
    requires Valid(k) && ClientOk(k, c) && Close(c) && SenderCalls(c.s) <= ReceiverCalls(c.r)
    requires SenderBlocked(k, c)
    ensures !c.r.pc.RDone? && ReceiverCalls(c.r) == SenderCalls(c.s)
    ensures !ReceiverBlocked(k, c)
  {
    EmptyIs(k, c);
  }

  lemma BlockedReceiver(k: Config, c: Client)
    requires Valid(k) && ClientOk(k, c) && Close(c) && ReceiverCalls(c.r) <= SenderCalls(c.s)
    requires ReceiverBlocked(k, c)
    ensures !c.s.pc.SDone? && SenderCalls(c.s) == ReceiverCalls(c.r)
    ensures !SenderBlocked(k, c)
  {
    EmptyIs(k, c);
    if c.r.pc.RLoop? {
      ReadTogether(k, c);
    }
  }

  lemma SysPlan(k: Config, y: System)
    requires SysOk(k, y) && k.iterations > 0
    ensures Good(y.w, k.iterations)
  {
    forall p | 0 <= p < |y.w.users| ensures OnPlan(y.w.users[p], k.iterations) {
      assert p == SENDER || p == RECEIVER;
    }
  }

  predicate Nearer(k: Config, y': System, y: System) {
    || Less(y'.w, y.w, k.iterations)
    || (y'.w == y.w && SenderWork(k, y'.c.s) + ReceiverWork(k, y'.c.r)
                       < SenderWork(k, y.c.s) + ReceiverWork(k, y.c.r))
  }

  lemma SenderNearer(k: Config, y: System)
    requires Valid(k) && SysOk(k, y) && y.w.users[SENDER].pc.Ready? && !SenderBlocked(k, y.c)
    requires Less(ProgStep(y.w, k.iterations, SENDER), y.w, k.iterations)
    ensures Nearer(k, SysStep(k, y, Choice(SENDER, 1)), y)
  {
    SysClose(k, y);
    SenderCounts(k, y.c, 1);
    PerformIsProgram(y.w, k.iterations, SENDER, SenderStep(k, y.c, 1).1);
    if SenderStep(k, y.c, 1).1.Stay? {
      SenderWorks(k, y.c, 1);
    }
  }

  lemma ReceiverNearer(k: Config, y: System)
    requires Valid(k) && SysOk(k, y) && y.w.users[RECEIVER].pc.Ready? && !ReceiverBlocked(k, y.c)
    requires Less(ProgStep(y.w, k.iterations, RECEIVER), y.w, k.iterations)
    ensures Nearer(k, SysStep(k, y, Choice(RECEIVER, 1)), y)
  {
    SysClose(k, y);
    ReceiverCounts(k, y.c, 1);
    PerformIsProgram(y.w, k.iterations, RECEIVER, ReceiverStep(k, y.c, 1).1);
    if ReceiverStep(k, y.c, 1).1.Stay? {
      ReceiverWorks(k, y.c, 1);
    }
  }

  /** A user that has called no more Waits than the phase, and has not left, can move. */
  lemma LevelUserMoves(w: World, rounds: nat, p: nat, q: nat)
    requires Good(w, rounds) && Free(w) && p < |w.users| && q < |w.users|
    requires w.users[p].pc.Ready? && Calls(w.users[q]) == w.phase && !Leaving(w.users[q].pc)
    ensures Less(ProgStep(w, rounds, q), w, rounds)
  {
    assert UserOk(w.users[p], |w.sems|, |w.shms|, w.phase, AllJoined(w.users));
    assert UserOk(w.users[q], |w.sems|, |w.shms|, w.phase, AllJoined(w.users));
    assert !IdleAt(w, q);
    FreeMoves(w, rounds, q);
    MoveLowers(w, rounds, q);
  }

  /** Unless blocked in the channel, a process that the barrier lets move brings the end nearer. */
  lemma MoverNearer(k: Config, y: System, p: nat)
    requires Valid(k) && SysOk(k, y) && p < 2
    requires Less(ProgStep(y.w, k.iterations, p), y.w, k.iterations)
    requires y.w.users[p].pc.Ready? ==> if p == SENDER then !SenderBlocked(k, y.c) else !ReceiverBlocked(k, y.c)
    ensures Nearer(k, SysStep(k, y, Choice(p, 1)), y)
  {
    if y.w.users[p].pc.Ready? {
      if p == SENDER {
        SenderNearer(k, y);
      } else {
        ReceiverNearer(k, y);
      }
    }
  }

  /** Unless all is done, some process brings the end nearer: one that the barrier lets move, or the
      other one if the channel blocks it. */
  lemma SomeStepNearer(k: Config, y: System) returns (p: nat)
    requires Valid(k) && SysOk(k, y) && k.iterations > 0 && !Finished(y.w)
    ensures Nearer(k, SysStep(k, y, Choice(p, 1)), y)
  {
    SysPlan(k, y);
    SysClose(k, y);
    p := NextMover(y.w, k.iterations);
    if y.w.users[p].pc.Ready? {
      if p == SENDER && SenderBlocked(k, y.c) {
        BlockedSender(k, y.c);
        LevelUserMoves(y.w, k.iterations, SENDER, RECEIVER);
        p := RECEIVER;
      } else if p == RECEIVER && ReceiverBlocked(k, y.c) {
        BlockedReceiver(k, y.c);
        LevelUserMoves(y.w, k.iterations, RECEIVER, SENDER);
        p := SENDER;
      }
    }
    MoverNearer(k, y, p);
  }

  /** From every reachable state some schedule ends the benchmark. */
  lemma {:induction false} Complete(k: Config, y: System) returns (schedule: seq<Choice>)
    requires Valid(k) && SysOk(k, y) && k.iterations > 0
    ensures Finished(SysRun(k, y, schedule).w)
    decreases WorkLeft(y.w, k.iterations), HoldLeft(y.w), SenderWork(k, y.c.s) + ReceiverWork(k, y.c.r)
  {
    if Finished(y.w) {
      return [];
    }
    var p := SomeStepNearer(k, y);
    SysStepOk(k, y, Choice(p, 1));
    var rest := Complete(k, SysStep(k, y, Choice(p, 1)));
    schedule := [Choice(p, 1)] + rest;
    assert schedule[1..] == rest;
  }

  /** Neither the opens, nor a full or empty channel, nor the barrier can block the benchmark for
      good; when it ends, every iteration has been verified. */
  lemma StreamCompletes(k: Config, schedule: seq<Choice>) returns (rest: seq<Choice>)
    requires Valid(k) && k.iterations > 0
    ensures var y := SysRun(k, SysRun(k, Start(k), schedule), rest);
      && Finished(y.w)
      && y.c.r.delivered == seq(k.iterations, _ => k.data)
      && y.c.bytes == []
  {
    StartOk(k);
    SysRunOk(k, Start(k), schedule);
    rest := Complete(k, SysRun(k, Start(k), schedule));
    var y := SysRun(k, SysRun(k, Start(k), schedule), rest);
    SysRunOk(k, SysRun(k, Start(k), schedule), rest);
    AtTheEnd(k, y);
  }

  lemma AtTheEnd(k: Config, y: System)
    requires SysOk(k, y) && Finished(y.w)
    ensures y.c.r.delivered == seq(k.iterations, _ => k.data) && y.c.bytes == []
  {
    assert Leaving(y.w.users[SENDER].pc) && Leaving(y.w.users[RECEIVER].pc);
    EndOfClient(k, y.c);
  }

  lemma EndOfClient(k: Config, c: Client)
    requires SenderOk(k, c.s) && ReceiverOk(k, c.r) && Transit(k, c) && c.s.pc.SDone? && c.r.pc.RDone?
    ensures c.r.delivered == seq(k.iterations, _ => k.data) && c.bytes == []
  {
  }
}
