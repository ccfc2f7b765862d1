/**
 Exactly when the streaming benchmarks can always be completed. Without iterations they make no Wait
 at all, and whoever comes first may be gone before the other has seen it.
 */
module StreamCompletion {
  import opened Barrier
  import opened BarrierProgress
  import opened StreamClient
  import opened StreamSystem
  import BarrierLifecycle

  ghost predicate CanComplete(k: Config, y: System)
    requires Valid(k)
  {
    exists rest :: Finished(SysRun(k, y, rest).w)
  }

  ghost predicate CanAlwaysComplete(k: Config)
    requires Valid(k)
  {
    forall schedule :: CanComplete(k, SysRun(k, StreamSystem.Start(k), schedule))
  }

  /** The processes of a schedule. */
  function Pids(schedule: seq<Choice>): seq<nat> {
    if schedule == [] then [] else [schedule[0].pid] + Pids(schedule[1..])
  }

  function Choices(pids: seq<nat>): seq<Choice> {
    if pids == [] then [] else [Choice(pids[0], 1)] + Choices(pids[1..])
  }

  lemma {:induction false} PidsOfChoices(pids: seq<nat>)
    ensures Pids(Choices(pids)) == pids
  {
    if pids != [] {
      PidsOfChoices(pids[1..]);
      assert Choices(pids)[1..] == Choices(pids[1..]);
    }
  }

  /** Without a Wait to make, the processes do what the bare barrier's users do. */
  lemma BareStep(k: Config, y: System, e: Choice)
    requires Valid(k) && SysOk(k, y) && k.iterations == 0
    ensures SysStep(k, y, e).w == ProgStep(y.w, 0, e.pid)
  {
    if e.pid < 2 && y.w.users[e.pid].pc.Ready? {
      assert Calls(y.w.users[e.pid]) == 0;
    }
  }

  lemma {:induction false} BareRun(k: Config, y: System, schedule: seq<Choice>)
    requires Valid(k) && SysOk(k, y) && k.iterations == 0
    ensures SysRun(k, y, schedule).w == ProgRun(y.w, 0, Pids(schedule))
    decreases |schedule|
  {
    if schedule != [] {
      BareStep(k, y, schedule[0]);
      SysStepOk(k, y, schedule[0]);
      BareRun(k, SysStep(k, y, schedule[0]), schedule[1..]);
    }
  }

  /** With at least one Wait the benchmark can be completed from every reachable state; with none,
      one process may be stranded in its constructor. */
  lemma CompletesIff(k: Config)
    requires Valid(k)
    ensures CanAlwaysComplete(k) <==> k.iterations > 0
  {
    if k.iterations > 0 {
      forall schedule
        ensures CanComplete(k, SysRun(k, StreamSystem.Start(k), schedule))
      {
        var rest := StreamCompletes(k, schedule);
      }
    } else {
      NeverCompletes(k);
    }
  }

  lemma NeverCompletes(k: Config)
    requires Valid(k) && k.iterations == 0
    ensures !CanAlwaysComplete(k)
  {
    StartOk(k);
    var pids := BarrierLifecycle.SomebodyStranded(2);
    var schedule := Choices(pids);
    PidsOfChoices(pids);
    BareRun(k, StreamSystem.Start(k), schedule);
    SysRunOk(k, StreamSystem.Start(k), schedule);
    var y := SysRun(k, StreamSystem.Start(k), schedule);
    forall rest
      ensures !Finished(SysRun(k, y, rest).w)
    {
      BareRun(k, y, rest);
      BarrierLifecycle.StrandedForever(y.w, 0, Pids(rest));
    }
    assert !CanComplete(k, y);
  }
}
