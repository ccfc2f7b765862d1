/**
 Exactly when the shm and mmap benchmarks can always be completed. Without iterations the shm one
 makes no Wait at all, and whoever comes first may be gone before the other has seen it.
 */
module PipelineCompletion {
  import opened Barrier
  import opened BarrierProgress
  import opened PipelineClient
  import opened PipelineSystem
  import BarrierLifecycle

  ghost predicate CanComplete(k: Config, y: System)
    requires Valid(k)
  {
    exists rest :: Finished(SysRun(k, y, rest).w)
  }

  ghost predicate CanAlwaysComplete(k: Config)
    requires Valid(k)
  {
    forall schedule :: CanComplete(k, SysRun(k, PipelineSystem.Start(k), schedule))
  }

  /** Without a Wait to make, the processes do what the bare barrier's users do. */
  lemma BareStep(k: Config, y: System, p: nat)
    requires Valid(k) && SysOk(k, y) && k.iterations == 0 && k.bench.ShmBench?
    ensures SysStep(k, y, p).w == ProgStep(y.w, 0, p)
  {
    if p < 2 && y.w.users[p].pc.Ready? {
      assert Calls(y.w.users[p]) == 0;
    }
  }

  lemma {:induction false} BareRun(k: Config, y: System, schedule: seq<nat>)
    requires Valid(k) && SysOk(k, y) && k.iterations == 0 && k.bench.ShmBench?
    ensures SysRun(k, y, schedule).w == ProgRun(y.w, 0, schedule)
    decreases |schedule|
  {
    if schedule != [] {
      BareStep(k, y, schedule[0]);
      SysStepOk(k, y, schedule[0]);
      BareRun(k, SysStep(k, y, schedule[0]), schedule[1..]);
    }
  }

  /** With at least one Wait the benchmark can be completed from every reachable state; with none,
      one process may be stranded in its constructor. */
  lemma CompletesIff(k: Config)
    requires Valid(k)
    ensures CanAlwaysComplete(k) <==> k.iterations > 0 || k.bench.MmapBench?
  {
    if WaitsAtAll(k) {
      forall schedule
        ensures CanComplete(k, SysRun(k, PipelineSystem.Start(k), schedule))
      {
        var rest, _ := PipelineCompletes(k, schedule);
      }
    } else {
      NeverCompletes(k);
    }
  }

  lemma NeverCompletes(k: Config)
    requires Valid(k) && k.iterations == 0 && k.bench.ShmBench?
    ensures !CanAlwaysComplete(k)
  {
    StartOk(k);
    var pids := BarrierLifecycle.SomebodyStranded(2);
    var schedule := pids;
    BareRun(k, PipelineSystem.Start(k), schedule);
    SysRunOk(k, PipelineSystem.Start(k), schedule);
    var y := SysRun(k, PipelineSystem.Start(k), schedule);
    forall rest
      ensures !Finished(SysRun(k, y, rest).w)
    {
      BareRun(k, y, rest);
      BarrierLifecycle.StrandedForever(y.w, 0, rest);
    }
    assert !CanComplete(k, y);
  }
}
