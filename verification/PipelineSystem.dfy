/**
 The sender and the receiver on top of the real barrier, from the first constructor to the last
 destructor, under any schedule.
 */
module PipelineSystem {
  import opened Barrier
  import opened BarrierClient
  import opened BarrierInvariant
  import opened BarrierProgress
  import opened PipelineClient
  import opened PipelineInvariant
  import opened PipelineSteps
  import opened PipelineReceiver

  const SENDER: nat := 0
  const RECEIVER: nat := 1

  datatype System = System(w: World, c: Client)

  function Start(k: Config): System { System(Init(2), InitClient(k)) }

  /** A process inside the barrier makes a step of the barrier, any other a step of its program. */
  function SysStep(k: Config, y: System, p: nat): System
    requires Valid(k)
  {
    if p >= |y.w.users| then y
    else if !y.w.users[p].pc.Ready? then y.(w := Step(y.w, p))
    else
      var (c, call) := if p == SENDER then SenderStep(k, y.c) else ReceiverStep(k, y.c);
      System(Perform(y.w, p, call), c)
  }

  function SysRun(k: Config, y: System, schedule: seq<nat>): System
    requires Valid(k)
    decreases |schedule|
  {
    if schedule == [] then y else SysRun(k, SysStep(k, y, schedule[0]), schedule[1..])
  }

  // ---------------------------------------------------------------- the composed invariant

  predicate SenderMatches(k: Config, u: User, s: Sender)
    requires Valid(k)
  {
    && Calls(u) == SenderCalls(k, s)
    && (InCall(u.pc) ==> SenderLands(s))
    && (Leaving(u.pc) <==> s.pc.SDone?)
  }

  predicate ReceiverMatches(k: Config, u: User, r: Receiver)
    requires Valid(k)
  {
    && Calls(u) == ReceiverCalls(k, r)
    && (InCall(u.pc) ==> ReceiverLands(r))
    && (Leaving(u.pc) <==> r.pc.RDone?)
  }

  predicate SysOk(k: Config, y: System)
    requires Valid(k)
  {
    && Inv(y.w) && |y.w.users| == 2
    && ClientOk(k, y.c)
    && SenderMatches(k, y.w.users[SENDER], y.c.s)
    && ReceiverMatches(k, y.w.users[RECEIVER], y.c.r)
  }

  lemma SysClose(k: Config, y: System)
    requires Valid(k) && SysOk(k, y)
    ensures Close(k, y.c)
    ensures y.w.users[SENDER].pc.Ready? ==>
      SenderCalls(k, y.c.s) == y.w.phase <= ReceiverCalls(k, y.c.r)
    ensures y.w.users[RECEIVER].pc.Ready? ==>
      ReceiverCalls(k, y.c.r) == y.w.phase <= SenderCalls(k, y.c.s)
  {
    CallsClose(y.w, SENDER);
    CallsClose(y.w, RECEIVER);
  }

  lemma BarrierStepOk(k: Config, y: System, p: nat)
    requires Valid(k) && SysOk(k, y) && p < 2
    ensures SysOk(k, y.(w := Step(y.w, p)))
  {
    StepInv(y.w, p);
    StepCalls(y.w, p);
  }

  lemma SenderStepOk(k: Config, y: System)
    requires Valid(k) && SysOk(k, y) && y.w.users[SENDER].pc.Ready?
    ensures SysOk(k, SysStep(k, y, SENDER))
  {
    SysClose(k, y);
    SenderOkStep(k, y.c);
    SenderCounts(k, y.c);
    SenderLocal(k, y.c);
    PerformInv(y.w, SENDER, SenderStep(k, y.c).1);
    PerformOk(y.w, SENDER, SenderStep(k, y.c).1);
  }

  lemma ReceiverStepOk(k: Config, y: System)
    requires Valid(k) && SysOk(k, y) && y.w.users[RECEIVER].pc.Ready?
    ensures SysOk(k, SysStep(k, y, RECEIVER))
  {
    SysClose(k, y);
    ReceiverOkStep(k, y.c);
    ReceiverCounts(k, y.c);
    ReceiverWaits(k, y.c);
    PerformInv(y.w, RECEIVER, ReceiverStep(k, y.c).1);
    PerformOk(y.w, RECEIVER, ReceiverStep(k, y.c).1);
  }

  lemma SysStepOk(k: Config, y: System, p: nat)
    requires Valid(k) && SysOk(k, y)
    ensures SysOk(k, SysStep(k, y, p))
  {
    if p < 2 {
      if !y.w.users[p].pc.Ready? {
        BarrierStepOk(k, y, p);
      } else if p == SENDER {
        SenderStepOk(k, y);
      } else {
        ReceiverStepOk(k, y);
      }
    }
  }

  lemma StartOk(k: Config)
    requires Valid(k)
    ensures SysOk(k, Start(k))
  {
    InitInv(2);
  }

  lemma {:induction false} SysRunOk(k: Config, y: System, schedule: seq<nat>)
    requires Valid(k) && SysOk(k, y)
    ensures SysOk(k, SysRun(k, y, schedule))
    decreases |schedule|
  {
    if schedule != [] {
      SysStepOk(k, y, schedule[0]);
      SysRunOk(k, SysStep(k, y, schedule[0]), schedule[1..]);
    }
  }

  // ---------------------------------------------------------------- what arrives

  /** Whatever the schedule, every access stays inside its buffer, and every iteration hands the
      verifier exactly the bytes that were sent. */
  lemma PipelineDelivers(k: Config, schedule: seq<nat>)
    requires Valid(k)
    ensures var c := SysRun(k, Start(k), schedule).c;
      && !c.fault
      && (c.r.pc.RFinish? ==> c.r.received == k.data)
      && |c.r.delivered| == c.r.iter
      && (forall t :: 0 <= t < |c.r.delivered| ==> c.r.delivered[t] == k.data)
  {
    StartOk(k);
    SysRunOk(k, Start(k), schedule);
  }

  /** The whole buffer is 0 when the receiver enters the loop: its first read copies nothing, and nothing
      of an earlier iteration is left. */
  lemma LoopStartsBlank(k: Config, schedule: seq<nat>)
    requires Valid(k)
    ensures var y := SysRun(k, Start(k), schedule); var c := y.c;
      |y.w.users| == 2 && (y.w.users[RECEIVER].pc.Ready? && c.r.pc.RLoop? && c.r.i == 0 ==>
        c.r.map_ < |c.objs| && c.objs[c.r.map_] == Buffer([0, 0], seq(2 * k.bufferSize, _ => 0)))
  {
    StartOk(k);
    SysRunOk(k, Start(k), schedule);
    var y := SysRun(k, Start(k), schedule);
    if y.w.users[RECEIVER].pc.Ready? && y.c.r.pc.RLoop? && y.c.r.i == 0 {
      SysClose(k, y);
      LoopBlank(k, y.c);
    }
  }

  lemma LoopBlank(k: Config, c: Client)
    requires Valid(k) && SenderOk(k, c.s) && ReceiverOk(k, c.r) && Memory(k, c) && Close(k, c)
    requires ReceiverCalls(k, c.r) <= SenderCalls(k, c.s) && c.r.pc.RLoop? && c.r.i == 0
    ensures c.r.map_ < |c.objs| && c.objs[c.r.map_] == Buffer([0, 0], seq(2 * k.bufferSize, _ => 0))
  {
    if c.r.iter < c.s.iter {
      BaseMonotone(k, c.r.iter, c.s.iter);
    } else if c.s.iter < c.r.iter {
      BaseMonotone(k, c.s.iter, c.r.iter);
    }
    assert Sharing(c) && c.s.map_ == c.r.map_;
    assert c.s.pc.SBegin? || ((c.s.pc.SLoop? || c.s.pc.SBody?) && c.s.i == 0);
  }

  // ---------------------------------------------------------------- the end is always in reach

  function SenderWork(k: Config, s: Sender): nat {
    match s.pc
    case SFinish => 4
    case SHead => 3
    case STruncate => 2
    case SResize => 1
    case SZero => if s.j <= 2 + 2 * k.bufferSize then 3 + 2 * k.bufferSize - s.j else 0
    case SBegin => 1
    case SBody => k.bufferSize + 4
    case SCopy => 3 + (if s.j < s.size then s.size - s.j else 0)
    case SPublish => 2
    case _ => 0
  }

  function ReceiverWork(k: Config, r: Receiver): nat {
    match r.pc
    case RFinish => 2 * k.bufferSize + 6
    case RHead => 2 * k.bufferSize + 5
    case RCreate => 2 * k.bufferSize + 4
    case RZero => if r.j <= 2 + 2 * k.bufferSize then 3 + 2 * k.bufferSize - r.j else 0
    case RBegin => 1
    case RBody => k.bufferSize + 4
    case RCopy => 3 + (if r.j < r.size then r.size - r.j else 0)
    case RTally => 2
    case _ => 0
  }

  lemma SenderWorks(k: Config, c: Client)
    requires Valid(k) && SenderOk(k, c.s) && !c.s.pc.SDone?
    requires !SenderStep(k, c).0.fault && SenderStep(k, c).1.Stay?
    ensures SenderWork(k, SenderStep(k, c).0.s) < SenderWork(k, c.s)
  {
  }

  lemma ReceiverWorks(k: Config, c: Client)
    requires Valid(k) && !c.r.pc.RDone?
    requires !ReceiverStep(k, c).0.fault && ReceiverStep(k, c).1.Stay?
    requires ReceiverStep(k, c).0.r.size <= k.bufferSize || !c.r.pc.RBody?
    ensures ReceiverWork(k, ReceiverStep(k, c).0.r) < ReceiverWork(k, c.r)
  {
  }

  lemma {:induction false} BaseIs(k: Config, t: nat)
    requires Valid(k)
    ensures Base(k, t) == (if k.bench.MmapBench? then 1 else 0) + t * (3 + Pipeline(k))
  {
    if t > 0 {
      BaseIs(k, t - 1);
      assert t * (3 + Pipeline(k)) == (t - 1) * (3 + Pipeline(k)) + 3 + Pipeline(k);
    }
  }

  lemma CallsBounded(k: Config, c: Client)
    requires Valid(k) && SenderOk(k, c.s) && ReceiverOk(k, c.r)
    ensures SenderCalls(k, c.s) <= Base(k, k.iterations)
    ensures ReceiverCalls(k, c.r) <= Base(k, k.iterations)
  {
    if c.s.iter < k.iterations {
      BaseMonotone(k, c.s.iter, k.iterations);
    }
    if c.r.iter < k.iterations {
      BaseMonotone(k, c.r.iter, k.iterations);
    }
  }

  /** Each side makes at least one Wait: the mmap benchmark always does. */
  predicate WaitsAtAll(k: Config) { k.iterations > 0 || k.bench.MmapBench? }

  lemma SysPlan(k: Config, y: System)
    requires Valid(k) && SysOk(k, y) && WaitsAtAll(k)
    ensures Good(y.w, Base(k, k.iterations))
  {
    CallsBounded(k, y.c);
    if k.iterations > 0 {
      BaseMonotone(k, 0, k.iterations);
    }
    forall p | 0 <= p < |y.w.users| ensures OnPlan(y.w.users[p], Base(k, k.iterations)) {
      assert p == SENDER || p == RECEIVER;
    }
  }

  /** A step between two calls is the barrier call the plan asks for, or work on the program. */
  predicate Advances(k: Config, y: System, y': System, p: nat)
    requires Valid(k)
  {
    || y'.w == ProgStep(y.w, Base(k, k.iterations), p)
    || (y'.w == y.w && SenderWork(k, y'.c.s) + ReceiverWork(k, y'.c.r)
                       < SenderWork(k, y.c.s) + ReceiverWork(k, y.c.r))
  }

  lemma SenderAdvances(k: Config, y: System)
    requires Valid(k) && SysOk(k, y) && y.w.users[SENDER].pc.Ready?
    ensures Advances(k, y, SysStep(k, y, SENDER), SENDER)
  {
    SysClose(k, y);
    SenderOkStep(k, y.c);
    SenderMoves(k, y.w, y.c);
  }

  lemma SenderMoves(k: Config, w: World, c: Client)
    requires Valid(k) && SenderOk(k, c.s) && |w.users| == 2 && w.users[SENDER].pc.Ready?
    requires SenderMatches(k, w.users[SENDER], c.s) && !SenderStep(k, c).0.fault
    ensures Advances(k, System(w, c), SysStep(k, System(w, c), SENDER), SENDER)
  {
    SenderCounts(k, c);
    SenderLocal(k, c);
    PerformIsProgram(w, Base(k, k.iterations), SENDER, SenderStep(k, c).1);
    if SenderStep(k, c).1.Stay? {
      SenderWorks(k, c);
    }
  }

  lemma ReceiverAdvances(k: Config, y: System)
    requires Valid(k) && SysOk(k, y) && y.w.users[RECEIVER].pc.Ready?
    ensures Advances(k, y, SysStep(k, y, RECEIVER), RECEIVER)
  {
    SysClose(k, y);
    ReceiverOkStep(k, y.c);
    ReceiverMoves(k, y.w, y.c);
  }

  lemma ReceiverMoves(k: Config, w: World, c: Client)
    requires Valid(k) && ReceiverOk(k, c.r) && |w.users| == 2 && w.users[RECEIVER].pc.Ready?
    requires ReceiverMatches(k, w.users[RECEIVER], c.r) && !ReceiverStep(k, c).0.fault
    requires ReceiverOk(k, ReceiverStep(k, c).0.r)
    ensures Advances(k, System(w, c), SysStep(k, System(w, c), RECEIVER), RECEIVER)
  {
    ReceiverCounts(k, c);
    ReceiverWaits(k, c);
    PerformIsProgram(w, Base(k, k.iterations), RECEIVER, ReceiverStep(k, c).1);
    if ReceiverStep(k, c).1.Stay? {
      ReceiverWorks(k, c);
    }
  }

  /** There is less to do in y' than in y. */
  predicate Nearer(k: Config, y': System, y: System)
    requires Valid(k)
  {
    || Less(y'.w, y.w, Base(k, k.iterations))
    || (y'.w == y.w && SenderWork(k, y'.c.s) + ReceiverWork(k, y'.c.r)
                       < SenderWork(k, y.c.s) + ReceiverWork(k, y.c.r))
  }

  lemma MoverNearer(k: Config, y: System, p: nat)
    requires Valid(k) && SysOk(k, y) && p < 2
    requires Less(ProgStep(y.w, Base(k, k.iterations), p), y.w, Base(k, k.iterations))
    ensures Nearer(k, SysStep(k, y, p), y)
  {
    if y.w.users[p].pc.Ready? {
      if p == SENDER {
        SenderAdvances(k, y);
      } else {
        ReceiverAdvances(k, y);
      }
    }
  }

  /** Unless all is done, some process brings the end nearer. */
  lemma SomeStepNearer(k: Config, y: System) returns (p: nat)
    requires Valid(k) && SysOk(k, y) && WaitsAtAll(k) && !Finished(y.w)
    ensures Nearer(k, SysStep(k, y, p), y)
  {
    SysPlan(k, y);
    p := NextMover(y.w, Base(k, k.iterations));
    MoverNearer(k, y, p);
  }

  /** From every reachable state some schedule ends the benchmark. */
  lemma {:induction false} Complete(k: Config, y: System) returns (schedule: seq<nat>)
    requires Valid(k) && SysOk(k, y) && WaitsAtAll(k)
    ensures Finished(SysRun(k, y, schedule).w)
    decreases WorkLeft(y.w, Base(k, k.iterations)), HoldLeft(y.w),
              SenderWork(k, y.c.s) + ReceiverWork(k, y.c.r)
  {
    if Finished(y.w) {
      return [];
    }
    var p := SomeStepNearer(k, y);
    SysStepOk(k, y, p);
    var rest := Complete(k, SysStep(k, y, p));
    schedule := [p] + rest;
    assert schedule[1..] == rest;
  }

  /** No schedule can block the benchmark; when it ends, every iteration has been verified and each
      side has made the same number of Waits: four and the number of chunks in each iteration. */
  lemma PipelineCompletes(k: Config, schedule: seq<nat>) returns (rest: seq<nat>, chunks: nat)
    requires Valid(k) && WaitsAtAll(k)
    ensures |k.data| <= chunks * k.bufferSize
    ensures |k.data| > 0 ==> chunks > 0 && (chunks - 1) * k.bufferSize < |k.data|
    ensures |k.data| == 0 ==> chunks == 0
    ensures var y := SysRun(k, SysRun(k, Start(k), schedule), rest);
      && Finished(y.w)
      && y.c.r.delivered == seq(k.iterations, _ => k.data)
      && forall p :: 0 <= p < |y.w.users| ==>
           y.w.users[p].round == (if k.bench.MmapBench? then 1 else 0) + k.iterations * (4 + chunks)
  {
    chunks := PipelineIs(k);
    StartOk(k);
    SysRunOk(k, Start(k), schedule);
    rest := Complete(k, SysRun(k, Start(k), schedule));
    var y := SysRun(k, SysRun(k, Start(k), schedule), rest);
    SysRunOk(k, SysRun(k, Start(k), schedule), rest);
    BaseIs(k, k.iterations);
    AtTheEnd(k, y);
  }

  lemma AtTheEnd(k: Config, y: System)
    requires Valid(k) && SysOk(k, y) && Finished(y.w)
    ensures y.c.r.delivered == seq(k.iterations, _ => k.data)
    ensures forall p :: 0 <= p < |y.w.users| ==> y.w.users[p].round == Base(k, k.iterations)
  {
    assert Leaving(y.w.users[SENDER].pc) && Leaving(y.w.users[RECEIVER].pc);
  }
}
