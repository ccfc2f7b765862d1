/** However the two processes of the shm and mmap benchmarks are scheduled, they are not busy for ever. */
module PipelineBounds {
  import opened Basics
  import opened Barrier
  import opened BarrierProgress
  import opened PipelineClient
  import opened PipelineInvariant
  import opened PipelineSteps
  import opened PipelineSystem

  /** As much work as the two sides can have between two calls. */
  function Most(k: Config): nat { 4 * k.bufferSize + 12 }

  lemma WorksBounded(k: Config, c: Client)
    requires Valid(k) && SenderOk(k, c.s) && ReceiverOk(k, c.r)
    ensures SenderWork(k, c.s) + ReceiverWork(k, c.r) <= Most(k)
  {
  }

  /** The work left in the barrier and, worth less than one barrier move, in the programs. */
  function Left(k: Config, y: System): nat
    requires Valid(k)
  {
    Weigh(WorkLeft(y.w, Base(k, k.iterations)), Most(k), SenderWork(k, y.c.s) + ReceiverWork(k, y.c.r))
  }

  /** A step that does nothing, or spins or polls in vain. */
  predicate Idles(k: Config, y: System, p: nat)
    requires Valid(k)
  {
    SysStep(k, y, p) == y || (p < |y.w.users| && !y.w.users[p].pc.Ready? && IdleAt(y.w, p))
  }

  /** A barrier step leaves the programs' work as it is. */
  lemma BarrierStepLowers(k: Config, y: System, p: nat)
    requires Valid(k) && SysOk(k, y) && WaitsAtAll(k) && p < 2 && !y.w.users[p].pc.Ready?
    ensures var y' := SysStep(k, y, p);
      if Idles(k, y, p) then Left(k, y') == Left(k, y) else Left(k, y') < Left(k, y)
  {
    SysPlan(k, y);
    WorksBounded(k, y.c);
    if Step(y.w, p) != y.w {
      MoveLowers(y.w, Base(k, k.iterations), p);
      WorkLowers(k, y.w, Step(y.w, p), y.c, IdleAt(y.w, p));
    }
  }

  lemma WorkLowers(k: Config, w: World, w': World, c: Client, idle: bool)
    requires Valid(k) && SenderWork(k, c.s) + ReceiverWork(k, c.r) <= Most(k)
    requires var rounds := Base(k, k.iterations);
      if idle then WorkLeft(w', rounds) == WorkLeft(w, rounds) else WorkLeft(w', rounds) < WorkLeft(w, rounds)
    ensures if idle then Left(k, System(w', c)) == Left(k, System(w, c))
      else Left(k, System(w', c)) < Left(k, System(w, c))
  {
    var rounds, works := Base(k, k.iterations), SenderWork(k, c.s) + ReceiverWork(k, c.r);
    if !idle {
      OneMoveLess(WorkLeft(w, rounds), WorkLeft(w', rounds), Most(k), works, works);
    }
  }

  lemma ProgramStepLowers(k: Config, y: System, p: nat)
    requires Valid(k) && SysOk(k, y) && WaitsAtAll(k) && p < 2 && y.w.users[p].pc.Ready?
    ensures Left(k, SysStep(k, y, p)) < Left(k, y)
  {
    if p == SENDER {
      SenderLowers(k, y);
    } else {
      ReceiverLowers(k, y);
    }
  }

  lemma SenderLowers(k: Config, y: System)
    requires Valid(k) && SysOk(k, y) && WaitsAtAll(k) && y.w.users[SENDER].pc.Ready?
    ensures Left(k, SysStep(k, y, SENDER)) < Left(k, y)
  {
    SenderAdvances(k, y);
    WorksAfter(k, y, SENDER);
    CallOrWork(k, y, SysStep(k, y, SENDER), SENDER);
  }

  lemma ReceiverLowers(k: Config, y: System)
    requires Valid(k) && SysOk(k, y) && WaitsAtAll(k) && y.w.users[RECEIVER].pc.Ready?
    ensures Left(k, SysStep(k, y, RECEIVER)) < Left(k, y)
  {
    ReceiverAdvances(k, y);
    WorksAfter(k, y, RECEIVER);
    CallOrWork(k, y, SysStep(k, y, RECEIVER), RECEIVER);
  }

  lemma WorksAfter(k: Config, y: System, p: nat)
    requires Valid(k) && SysOk(k, y)
    ensures var c := SysStep(k, y, p).c; SenderWork(k, c.s) + ReceiverWork(k, c.r) <= Most(k)
  {
    SysStepOk(k, y, p);
    WorksBounded(k, SysStep(k, y, p).c);
  }

  lemma CallOrWork(k: Config, y: System, y': System, p: nat)
    requires Valid(k) && SysOk(k, y) && WaitsAtAll(k) && p < 2 && y.w.users[p].pc.Ready?
    requires Advances(k, y, y', p) && SenderWork(k, y'.c.s) + ReceiverWork(k, y'.c.r) <= Most(k)
    ensures Left(k, y') < Left(k, y)
  {
    var rounds := Base(k, k.iterations);
    if y'.w == ProgStep(y.w, rounds, p) {
      SysPlan(k, y);
      ProgMoves(y.w, rounds, p);
      MoveLowers(y.w, rounds, p);
      OneMoveLess(WorkLeft(y.w, rounds), WorkLeft(y'.w, rounds), Most(k),
                  SenderWork(k, y.c.s) + ReceiverWork(k, y.c.r), SenderWork(k, y'.c.s) + ReceiverWork(k, y'.c.r));
    }
  }

  lemma StepLowers(k: Config, y: System, p: nat)
    requires Valid(k) && SysOk(k, y) && WaitsAtAll(k)
    ensures var y' := SysStep(k, y, p);
      if Idles(k, y, p) then Left(k, y') == Left(k, y) else Left(k, y') < Left(k, y)
  {
    if p < 2 {
      if y.w.users[p].pc.Ready? {
        ProgramStepLowers(k, y, p);
      } else {
        BarrierStepLowers(k, y, p);
      }
    }
  }

  /** How many steps of a run are not idle. */
  function Busy(k: Config, y: System, schedule: seq<nat>): nat
    requires Valid(k)
    decreases |schedule|
  {
    if schedule == [] then 0
    else (if Idles(k, y, schedule[0]) then 0 else 1) + Busy(k, SysStep(k, y, schedule[0]), schedule[1..])
  }

  lemma {:induction false} BusyBound(k: Config, y: System, schedule: seq<nat>)
    requires Valid(k) && SysOk(k, y) && WaitsAtAll(k)
    ensures Busy(k, y, schedule) <= Left(k, y)
    decreases |schedule|
  {
    if schedule != [] {
      StepLowers(k, y, schedule[0]);
      SysStepOk(k, y, schedule[0]);
      BusyBound(k, SysStep(k, y, schedule[0]), schedule[1..]);
    }
  }

  /** With R Waits to make on each side, any run of the benchmark has at most
      (32 R + 81) * (4 * buffer_size + 13) steps that are not idle. */
  lemma RunIsBounded(k: Config, schedule: seq<nat>) returns (waits: nat, chunks: nat)
    requires Valid(k) && WaitsAtAll(k)
    ensures |k.data| <= chunks * k.bufferSize
    ensures |k.data| > 0 ==> chunks > 0 && (chunks - 1) * k.bufferSize < |k.data|
    ensures |k.data| == 0 ==> chunks == 0
    ensures waits == (if k.bench.MmapBench? then 1 else 0) + k.iterations * (4 + chunks)
    ensures Busy(k, PipelineSystem.Start(k), schedule) <= (32 * waits + 81) * (4 * k.bufferSize + 13)
  {
    chunks := PipelineIs(k);
    waits := Base(k, k.iterations);
    BaseIs(k, k.iterations);
    BusyWithin(k, schedule, waits);
  }

  lemma BusyWithin(k: Config, schedule: seq<nat>, waits: nat)
    requires Valid(k) && WaitsAtAll(k) && waits == Base(k, k.iterations)
    ensures Busy(k, PipelineSystem.Start(k), schedule) <= (32 * waits + 81) * (4 * k.bufferSize + 13)
  {
    StartOk(k);
    BusyBound(k, PipelineSystem.Start(k), schedule);
    StartLeft(k);
    ProductIs(32 * waits + 81, Most(k) + 1);
  }

  lemma StartLeft(k: Config)
    requires Valid(k)
    ensures Left(k, PipelineSystem.Start(k)) < Product(32 * Base(k, k.iterations) + 81, Most(k) + 1)
  {
    var rounds, c := Base(k, k.iterations), InitClient(k);
    FreshPair(rounds);
    OneMoveLess(32 * rounds + 81, 32 * rounds + 80, Most(k), 0, SenderWork(k, c.s) + ReceiverWork(k, c.r));
  }
}
