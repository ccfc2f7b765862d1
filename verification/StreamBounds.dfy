/**
 However the two processes of a streaming benchmark are scheduled, and however short their reads and
 writes, they are not busy for ever.
 */
module StreamBounds {
  import opened Basics
  import opened Barrier
  import opened BarrierClient
  import opened BarrierProgress
  import opened StreamClient
  import opened StreamSteps
  import opened StreamSystem

  /** As much work as the two sides can have between two calls. */
  function Most(k: Config): nat { 2 * |k.data| + 10 }

  lemma WorksBounded(k: Config, c: Client)
    ensures SenderWork(k, c.s) + ReceiverWork(k, c.r) <= Most(k)
  {
  }

  /** The work left in the barrier and, worth less than one barrier move, in the programs. */
  function Left(k: Config, y: System): nat {
    Weigh(WorkLeft(y.w, k.iterations), Most(k), SenderWork(k, y.c.s) + ReceiverWork(k, y.c.r))
  }

  /** A step that does nothing, as when the channel blocks it, or spins or polls in vain. */
  predicate Idles(k: Config, y: System, e: Choice) {
    SysStep(k, y, e) == y || (e.pid < |y.w.users| && !y.w.users[e.pid].pc.Ready? && IdleAt(y.w, e.pid))
  }

  /** A barrier step leaves the programs' work as it is. */
  lemma BarrierStepLowers(k: Config, y: System, e: Choice)
    requires SysOk(k, y) && k.iterations > 0 && e.pid < 2 && !y.w.users[e.pid].pc.Ready?
    ensures var y' := SysStep(k, y, e);
      if Idles(k, y, e) then Left(k, y') == Left(k, y) else Left(k, y') < Left(k, y)
  {
    SysPlan(k, y);
    WorksBounded(k, y.c);
    if Step(y.w, e.pid) != y.w {
      MoveLowers(y.w, k.iterations, e.pid);
      WorkLowers(k, y.w, Step(y.w, e.pid), y.c, IdleAt(y.w, e.pid));
    }
  }

  lemma WorkLowers(k: Config, w: World, w': World, c: Client, idle: bool)
    requires if idle then WorkLeft(w', k.iterations) == WorkLeft(w, k.iterations)
      else WorkLeft(w', k.iterations) < WorkLeft(w, k.iterations)
    ensures if idle then Left(k, System(w', c)) == Left(k, System(w, c))
      else Left(k, System(w', c)) < Left(k, System(w, c))
  {
    var works := SenderWork(k, c.s) + ReceiverWork(k, c.r);
    WorksBounded(k, c);
    if !idle {
      OneMoveLess(WorkLeft(w, k.iterations), WorkLeft(w', k.iterations), Most(k), works, works);
    }
  }

  /** A step between two calls is the barrier call the plan asks for, or work on the program. */
  predicate Advances(k: Config, y: System, y': System, p: nat) {
    || y'.w == ProgStep(y.w, k.iterations, p)
    || (y'.w == y.w && SenderWork(k, y'.c.s) + ReceiverWork(k, y'.c.r)
                       < SenderWork(k, y.c.s) + ReceiverWork(k, y.c.r))
  }

  lemma SenderAdvances(k: Config, y: System, amount: nat)
    requires Valid(k) && SysOk(k, y) && y.w.users[SENDER].pc.Ready?
    ensures var y' := SysStep(k, y, Choice(SENDER, amount)); y' == y || Advances(k, y, y', SENDER)
  {
    SysClose(k, y);
    if SenderBlocked(k, y.c) {
      BlockedSenderStays(k, y.c, amount);
    } else {
      SenderCounts(k, y.c, amount);
      PerformIsProgram(y.w, k.iterations, SENDER, SenderStep(k, y.c, amount).1);
      if SenderStep(k, y.c, amount).1.Stay? {
        SenderWorks(k, y.c, amount);
      }
    }
  }

  lemma ReceiverAdvances(k: Config, y: System, amount: nat)
    requires Valid(k) && SysOk(k, y) && y.w.users[RECEIVER].pc.Ready?
    ensures var y' := SysStep(k, y, Choice(RECEIVER, amount)); y' == y || Advances(k, y, y', RECEIVER)
  {
    SysClose(k, y);
    if ReceiverBlocked(k, y.c) {
      BlockedReceiverStays(k, y.c, amount);
    } else {
      ReceiverCounts(k, y.c, amount);
      PerformIsProgram(y.w, k.iterations, RECEIVER, ReceiverStep(k, y.c, amount).1);
      if ReceiverStep(k, y.c, amount).1.Stay? {
        ReceiverWorks(k, y.c, amount);
      }
    }
  }

  lemma CallOrWork(k: Config, y: System, y': System, p: nat)
    requires SysOk(k, y) && k.iterations > 0 && p < 2 && y.w.users[p].pc.Ready?
    requires Advances(k, y, y', p)
    ensures Left(k, y') < Left(k, y)
  {
    if y'.w == ProgStep(y.w, k.iterations, p) {
      SysPlan(k, y);
      ProgMoves(y.w, k.iterations, p);
      MoveLowers(y.w, k.iterations, p);
      WorksBounded(k, y'.c);
      OneMoveLess(WorkLeft(y.w, k.iterations), WorkLeft(y'.w, k.iterations), Most(k),
                  SenderWork(k, y.c.s) + ReceiverWork(k, y.c.r), SenderWork(k, y'.c.s) + ReceiverWork(k, y'.c.r));
    }
  }

  lemma StepAdvances(k: Config, y: System, e: Choice)
    requires Valid(k) && SysOk(k, y) && e.pid < 2 && y.w.users[e.pid].pc.Ready?
    ensures SysStep(k, y, e) == y || Advances(k, y, SysStep(k, y, e), e.pid)
  {
    if e.pid == SENDER {
      assert e == Choice(SENDER, e.amount);
      SenderAdvances(k, y, e.amount);
    } else {
      assert e == Choice(RECEIVER, e.amount);
      ReceiverAdvances(k, y, e.amount);
    }
  }

  lemma ProgramStepLowers(k: Config, y: System, e: Choice)
    requires Valid(k) && SysOk(k, y) && k.iterations > 0 && e.pid < 2 && y.w.users[e.pid].pc.Ready?
    ensures SysStep(k, y, e) == y || Left(k, SysStep(k, y, e)) < Left(k, y)
  {
    StepAdvances(k, y, e);
    if SysStep(k, y, e) != y {
      CallOrWork(k, y, SysStep(k, y, e), e.pid);
    }
  }

  lemma StepLowers(k: Config, y: System, e: Choice)
    requires Valid(k) && SysOk(k, y) && k.iterations > 0
    ensures var y' := SysStep(k, y, e);
      if Idles(k, y, e) then Left(k, y') == Left(k, y) else Left(k, y') < Left(k, y)
  {
    if e.pid < 2 {
      if y.w.users[e.pid].pc.Ready? {
        ProgramStepLowers(k, y, e);
      } else {
        BarrierStepLowers(k, y, e);
      }
    }
  }

  /** How many steps of a run are neither idle nor blocked. */
  function Busy(k: Config, y: System, schedule: seq<Choice>): nat
    decreases |schedule|
  {
    if schedule == [] then 0
    else (if Idles(k, y, schedule[0]) then 0 else 1) + Busy(k, SysStep(k, y, schedule[0]), schedule[1..])
  }

  lemma {:induction false} BusyBound(k: Config, y: System, schedule: seq<Choice>)
    requires Valid(k) && SysOk(k, y) && k.iterations > 0
    ensures Busy(k, y, schedule) <= Left(k, y)
    decreases |schedule|
  {
    if schedule != [] {
      StepLowers(k, y, schedule[0]);
      SysStepOk(k, y, schedule[0]);
      BusyBound(k, SysStep(k, y, schedule[0]), schedule[1..]);
    }
  }

  /** Any run of the benchmark has at most (32 * iterations + 81) * (2 * data_size + 11) steps that are
      neither idle nor blocked. */
  lemma RunIsBounded(k: Config, schedule: seq<Choice>)
    requires Valid(k) && k.iterations > 0
    ensures Busy(k, StreamSystem.Start(k), schedule) <= (32 * k.iterations + 81) * (2 * |k.data| + 11)
  {
    StartOk(k);
    BusyBound(k, StreamSystem.Start(k), schedule);
    StartLeft(k);
    ProductIs(32 * k.iterations + 81, Most(k) + 1);
  }

  lemma StartLeft(k: Config)
    ensures Left(k, StreamSystem.Start(k)) < Product(32 * k.iterations + 81, Most(k) + 1)
  {
    var c := InitClient(k);
    FreshPair(k.iterations);
    WorksBounded(k, c);
    OneMoveLess(32 * k.iterations + 81, 32 * k.iterations + 80, Most(k), 0, SenderWork(k, c.s) + ReceiverWork(k, c.r));
  }
}
