/**
 The barrier latency benchmark: one lifetime of a barrier for two after another under the same name.
 The parent waits for the child to exit before it destroys its own barrier, clears the name, and
 forks the next child.
 */
module BarrierLatency {
  import opened Basics
  import opened Barrier
  import opened BarrierInvariant
  import opened BarrierMoves
  import opened BarrierProgress
  import opened BarrierLifecycle
  import BarrierPlaces

  const CHILD: nat := 0
  const PARENT: nat := 1

  datatype Config = Config(warmups: nat, iterations: nat, loopSize: nat)

  /** `b` is the current lifetime, `run` how many are over, `measurements` how many were kept. */
  datatype Latency = Latency(b: World, run: nat, measurements: nat)

  function Runs(k: Config): nat { k.warmups + k.iterations }

  function Begin(): Latency { Latency(Init(2), 0, 0) }

  /** The parent has made its Waits and the child still exists: it is blocked in waitpid. */
  predicate InWaitpid(k: Config, b: World) {
    && |b.users| == 2
    && b.users[PARENT].pc.Ready? && b.users[PARENT].round >= k.loopSize && !b.users[CHILD].pc.Gone?
  }

  function LatencyStep(k: Config, l: Latency, p: nat): Latency {
    if l.run >= Runs(k) then l
    else if Finished(l.b) then
      if p == PARENT then
        Latency(Relaunch(ClearResource(l.b), 2), l.run + 1,
                if l.run >= k.warmups then l.measurements + 1 else l.measurements)
      else l
    else if p == PARENT && InWaitpid(k, l.b) then l
    else l.(b := ProgStep(l.b, k.loopSize, p))
  }

  function LatencyRun(k: Config, l: Latency, schedule: seq<nat>): Latency
    decreases |schedule|
  {
    if schedule == [] then l else LatencyRun(k, LatencyStep(k, l, schedule[0]), schedule[1..])
  }

  // ---------------------------------------------------------------- every lifetime is a fresh one

  ghost predicate FreshLifetime(k: Config, b: World) {
    exists schedule :: b == ProgRun(Init(2), k.loopSize, schedule)
  }

  /** The parent leaves after the child has gone, so it is the one that unlinks. */
  predicate ParentLast(b: World) {
    && |b.users| == 2
    && (Leaving(b.users[PARENT].pc) ==> b.users[CHILD].pc.Gone?)
    && (b.semUnlinks == [] || b.semUnlinks == [PARENT])
  }

  ghost predicate LatencyOk(k: Config, l: Latency) {
    && FreshLifetime(k, l.b) && ParentLast(l.b)
    && l.run <= Runs(k)
    && l.measurements == (if l.run <= k.warmups then 0 else l.run - k.warmups)
  }

  lemma FreshIsGood(k: Config, b: World)
    requires FreshLifetime(k, b)
    ensures Inv(b) && PlanOk(b, k.loopSize)
  {
    var schedule :| b == ProgRun(Init(2), k.loopSize, schedule);
    var events := ProgramIsRun(2, k.loopSize, schedule);
    RunInv(2, events);
    PlanRun(2, k.loopSize, schedule);
  }

  lemma FreshStep(k: Config, b: World, p: nat)
    requires FreshLifetime(k, b)
    ensures FreshLifetime(k, ProgStep(b, k.loopSize, p))
  {
    var schedule :| b == ProgRun(Init(2), k.loopSize, schedule);
    RunOn(Init(2), k.loopSize, schedule, [p]);
    assert [p][1..] == [];
    assert ProgStep(b, k.loopSize, p) == ProgRun(Init(2), k.loopSize, schedule + [p]);
  }

  /** Nobody is about to unlink before all have left. */
  lemma ClosingIsLast(b: World, p: nat)
    requires Inv(b) && p < |b.users| && b.users[p].pc.UnlinkSem?
    ensures forall q :: 0 <= q < |b.users| ==> Left(b.users[q].pc)
  {
    CountPositive(ClosingSem, b.users, p);
    CountRange(Leaver, b.users);
  }

  lemma ParentStaysLast(k: Config, b: World, p: nat)
    requires Inv(b) && ParentLast(b) && !(p == PARENT && InWaitpid(k, b)) && PlanOk(b, k.loopSize)
    ensures ParentLast(ProgStep(b, k.loopSize, p))
  {
    ProgMoves(b, k.loopSize, p);
    if ProgStep(b, k.loopSize, p) != b {
      LeavesLast(k, b, p, ProgStep(b, k.loopSize, p));
    }
    if p < 2 && b.users[p].pc.UnlinkSem? {
      ClosingIsLast(b, p);
      OneUnlink(b, p);
    }
    UnlinksLast(k, b, p);
  }

  lemma LeavesLast(k: Config, b: World, p: nat, b': World)
    requires ParentLast(b) && !(p == PARENT && InWaitpid(k, b)) && MovesIn(b, p, b')
    requires b.users[p].pc.Ready? ==> b'.users[p].pc == Want(if b.users[p].round < k.loopSize then Enter else Depart)
    ensures Leaving(b'.users[PARENT].pc) ==> b'.users[CHILD].pc.Gone?
  {
    assert Leaving(b'.users[PARENT].pc) ==> Leaving(b.users[PARENT].pc) || (p == PARENT && b.users[PARENT].pc.Ready?);
  }

  lemma ProgUnlinks(b: World, rounds: nat, p: nat)
    ensures ProgStep(b, rounds, p).semUnlinks ==
      b.semUnlinks + if p < |b.users| && b.users[p].pc.UnlinkSem? then [p] else []
  {
    UnlinksChange(b, Tick(p));
  }

  lemma UnlinksLast(k: Config, b: World, p: nat)
    requires ParentLast(b)
    requires p < 2 && b.users[p].pc.UnlinkSem? ==> b.semUnlinks == [] && Left(b.users[PARENT].pc)
    ensures var b' := ProgStep(b, k.loopSize, p); b'.semUnlinks == [] || b'.semUnlinks == [PARENT]
  {
    ProgUnlinks(b, k.loopSize, p);
  }

  lemma LatencyStepOk(k: Config, l: Latency, p: nat)
    requires LatencyOk(k, l)
    ensures LatencyOk(k, LatencyStep(k, l, p))
  {
    if l.run < Runs(k) {
      if Finished(l.b) {
        var schedule :| l.b == ProgRun(Init(2), k.loopSize, schedule);
        NextLifetime(2, k.loopSize, schedule, 2);
        assert Init(2) == ProgRun(Init(2), k.loopSize, []);
      } else {
        FreshIsGood(k, l.b);
        if !(p == PARENT && InWaitpid(k, l.b)) {
          FreshStep(k, l.b, p);
          ParentStaysLast(k, l.b, p);
        }
      }
    }
  }

  lemma BeginOk(k: Config)
    ensures LatencyOk(k, Begin())
  {
    assert Init(2) == ProgRun(Init(2), k.loopSize, []);
  }

  lemma {:induction false} LatencyRunOk(k: Config, l: Latency, schedule: seq<nat>)
    requires LatencyOk(k, l)
    ensures LatencyOk(k, LatencyRun(k, l, schedule))
    decreases |schedule|
  {
    if schedule != [] {
      LatencyStepOk(k, l, schedule[0]);
      LatencyRunOk(k, LatencyStep(k, l, schedule[0]), schedule[1..]);
    }
  }

  /** Every lifetime runs as if the name had never been used, and the parent destroys its barrier only
      when the child has exited; when it is over the parent has unlinked
      both names, both have made loop_size Waits, and clearing the name changes nothing. */
  lemma LifetimesAreFresh(k: Config, schedule: seq<nat>)
    ensures var l := LatencyRun(k, Begin(), schedule);
      && FreshLifetime(k, l.b)
      && |l.b.users| == 2 && (Leaving(l.b.users[PARENT].pc) ==> l.b.users[CHILD].pc.Gone?)
      && (Finished(l.b) ==>
            && l.b.semUnlinks == [PARENT] && l.b.shmUnlinks == [PARENT]
            && (forall p :: 0 <= p < |l.b.users| ==> l.b.users[p].round == k.loopSize)
            && ClearResource(l.b) == l.b)
      && (l.run == Runs(k) ==> l.measurements == k.iterations)
  {
    BeginOk(k);
    LatencyRunOk(k, Begin(), schedule);
    var l := LatencyRun(k, Begin(), schedule);
    if Finished(l.b) {
      var s :| l.b == ProgRun(Init(2), k.loopSize, s);
      CleanEnd(2, k.loopSize, s);
    }
  }

  /** Until all runs are over a process is blocked only in sem_wait while the other one is in a critical
      section, or, the parent, in waitpid; when both are gone it is the parent that goes on. */
  lemma BlockedIff(k: Config, l: Latency, p: nat)
    requires LatencyOk(k, l) && l.run < Runs(k) && p < 2
    ensures |l.b.users| == 2
    ensures LatencyStep(k, l, p) == l <==>
      if Finished(l.b) then p == CHILD
      else
        || l.b.users[p].pc.Gone?
        || (p == PARENT && l.b.users[PARENT].pc.Ready? && l.b.users[PARENT].round >= k.loopSize && !l.b.users[CHILD].pc.Gone?)
        || (l.b.users[p].pc.Want? && exists q :: 0 <= q < 2 && Critical(l.b.users[q].pc))
  {
    if !Finished(l.b) {
      FreshIsGood(k, l.b);
      BarrierPlaces.BlockedIff(l.b, p);
      ProgMoves(l.b, k.loopSize, p);
    }
  }

  // ---------------------------------------------------------------- when it always ends

  /** While the parent is in waitpid nothing the child does next can be in vain. */
  lemma ChildMoves(k: Config, b: World)
    requires Good(b, k.loopSize) && Free(b) && InWaitpid(k, b)
    ensures Less(ProgStep(b, k.loopSize, CHILD), b, k.loopSize)
  {
    assert UserOk(b.users[PARENT], |b.sems|, |b.shms|, b.phase, AllJoined(b.users));
    assert OnPlan(b.users[CHILD], k.loopSize) && OnPlan(b.users[PARENT], k.loopSize);
    FreeMoves(b, k.loopSize, CHILD);
    MoveLowers(b, k.loopSize, CHILD);
  }

  /** Somebody who is not blocked in waitpid brings the end of the lifetime nearer. */
  lemma SomebodyMoves(k: Config, l: Latency) returns (p: nat)
    requires LatencyOk(k, l) && l.run < Runs(k) && k.loopSize > 0 && !Finished(l.b)
    ensures LatencyStep(k, l, p) == l.(b := ProgStep(l.b, k.loopSize, p))
    ensures Less(ProgStep(l.b, k.loopSize, p), l.b, k.loopSize)
  {
    FreshIsGood(k, l.b);
    p := NextMover(l.b, k.loopSize);
    if p == PARENT && InWaitpid(k, l.b) {
      ChildMoves(k, l.b);
      p := CHILD;
    }
  }

  ghost predicate CanComplete(k: Config, l: Latency) {
    exists rest :: LatencyRun(k, l, rest).run == Runs(k)
  }

  lemma {:induction false} Complete(k: Config, l: Latency)
    requires LatencyOk(k, l) && k.loopSize > 0
    ensures CanComplete(k, l)
    decreases Runs(k) - l.run, WorkLeft(l.b, k.loopSize), HoldLeft(l.b)
  {
    if l.run == Runs(k) {
      assert LatencyRun(k, l, []).run == Runs(k);
    } else {
      var p := PARENT;
      if !Finished(l.b) {
        p := SomebodyMoves(k, l);
      }
      LatencyStepOk(k, l, p);
      Complete(k, LatencyStep(k, l, p));
      var rest :| LatencyRun(k, LatencyStep(k, l, p), rest).run == Runs(k);
      assert ([p] + rest)[1..] == rest;
      assert LatencyRun(k, l, [p] + rest).run == Runs(k);
    }
  }

  /** A parent that is not past the join loop has not been there before. */
  lemma {:induction false} PastStays(b: World, rounds: nat, schedule: seq<nat>)
    requires |b.users| == 2
    ensures |ProgRun(b, rounds, schedule).users| == 2
    ensures Past(b.users[PARENT].pc) ==> Past(ProgRun(b, rounds, schedule).users[PARENT].pc)
    decreases |schedule|
  {
    if schedule != [] {
      ProgMoves(b, rounds, schedule[0]);
      PastStays(ProgStep(b, rounds, schedule[0]), rounds, schedule[1..]);
    }
  }

  /** Up to there waitpid makes no difference. */
  lemma {:induction false} SameUntilPast(k: Config, l: Latency, schedule: seq<nat>)
    requires |l.b.users| == 2 && l.run < Runs(k)
    requires |ProgRun(l.b, k.loopSize, schedule).users| == 2
    requires !Past(ProgRun(l.b, k.loopSize, schedule).users[PARENT].pc)
    ensures LatencyRun(k, l, schedule) == l.(b := ProgRun(l.b, k.loopSize, schedule))
    decreases |schedule|
  {
    if schedule != [] {
      PastStays(l.b, k.loopSize, schedule);
      var p := schedule[0];
      ProgMoves(l.b, k.loopSize, p);
      assert !Past(l.b.users[PARENT].pc);
      assert LatencyStep(k, l, p) == l.(b := ProgStep(l.b, k.loopSize, p));
      SameUntilPast(k, l.(b := ProgStep(l.b, k.loopSize, p)), schedule[1..]);
    }
  }

  lemma {:induction false} StrandedStays(k: Config, l: Latency, schedule: seq<nat>)
    requires Stranded(l.b) && l.run < Runs(k)
    ensures LatencyRun(k, l, schedule).run < Runs(k)
    decreases |schedule|
  {
    if schedule != [] {
      StrandedStep(l.b, k.loopSize, schedule[0]);
      StrandedStays(k, LatencyStep(k, l, schedule[0]), schedule[1..]);
    }
  }

  ghost predicate CanAlwaysComplete(k: Config) {
    forall schedule :: CanComplete(k, LatencyRun(k, Begin(), schedule))
  }

  /** With loop_size 0 the child may be gone before the parent has seen it join, and the benchmark
      hangs. With any other loop_size it can always be completed. */
  lemma CompletesIff(k: Config)
    ensures CanAlwaysComplete(k) <==> k.loopSize > 0 || Runs(k) == 0
  {
    if k.loopSize > 0 || Runs(k) == 0 {
      forall schedule
        ensures CanComplete(k, LatencyRun(k, Begin(), schedule))
      {
        BeginOk(k);
        LatencyRunOk(k, Begin(), schedule);
        var l := LatencyRun(k, Begin(), schedule);
        if k.loopSize > 0 {
          Complete(k, l);
        } else {
          assert LatencyRun(k, l, []).run == Runs(k);
        }
      }
    } else {
      var schedule := SomebodyStranded(2);
      PastStays(Init(2), 0, schedule);
      SameUntilPast(k, Begin(), schedule);
      var l := LatencyRun(k, Begin(), schedule);
      forall rest
        ensures LatencyRun(k, l, rest).run != Runs(k)
      {
        StrandedStays(k, l, rest);
      }
      assert !CanComplete(k, l);
    }
  }

  // ---------------------------------------------------------------- no run is busy for ever

  /** What one lifetime costs at most, idle moves apart. */
  function PerLifetime(k: Config): nat { 32 * k.loopSize + 80 }

  function ToGo(k: Config, l: Latency): nat {
    if l.run >= Runs(k) then 0
    else Weigh(Runs(k) - l.run, PerLifetime(k), WorkLeft(l.b, k.loopSize))
  }

  /** A step that does nothing, as in waitpid, or spins or polls in vain. */
  predicate Idles(k: Config, l: Latency, p: nat) {
    LatencyStep(k, l, p) == l || (l.run < Runs(k) && !Finished(l.b) && IdleAt(l.b, p))
  }

  lemma LatencyStepLowers(k: Config, l: Latency, p: nat)
    requires LatencyOk(k, l) && k.loopSize > 0
    ensures var l' := LatencyStep(k, l, p);
      if Idles(k, l, p) then ToGo(k, l') == ToGo(k, l) else ToGo(k, l') < ToGo(k, l)
  {
    var l' := LatencyStep(k, l, p);
    if l' != l {
      if Finished(l.b) {
        NextLowers(k, l);
      } else {
        FreshIsGood(k, l.b);
        MoveLowers(l.b, k.loopSize, p);
      }
    }
  }

  lemma NextLowers(k: Config, l: Latency)
    requires LatencyOk(k, l) && l.run < Runs(k) && Finished(l.b)
    ensures ToGo(k, LatencyStep(k, l, PARENT)) < ToGo(k, l)
  {
    var schedule :| l.b == ProgRun(Init(2), k.loopSize, schedule);
    NextLifetime(2, k.loopSize, schedule, 2);
    FreshPair(k.loopSize);
    OneMoveLess(Runs(k) - l.run, Runs(k) - l.run - 1, PerLifetime(k), WorkLeft(l.b, k.loopSize), PerLifetime(k));
  }

  /** How many steps of a run are not idle. */
  function Busy(k: Config, l: Latency, schedule: seq<nat>): nat
    decreases |schedule|
  {
    if schedule == [] then 0
    else (if Idles(k, l, schedule[0]) then 0 else 1) + Busy(k, LatencyStep(k, l, schedule[0]), schedule[1..])
  }

  lemma {:induction false} BusyBound(k: Config, l: Latency, schedule: seq<nat>)
    requires LatencyOk(k, l) && k.loopSize > 0
    ensures Busy(k, l, schedule) <= ToGo(k, l)
    decreases |schedule|
  {
    if schedule != [] {
      LatencyStepLowers(k, l, schedule[0]);
      LatencyStepOk(k, l, schedule[0]);
      BusyBound(k, LatencyStep(k, l, schedule[0]), schedule[1..]);
    }
  }

  /** The whole benchmark has at most (runs + 1) * (32 * loop_size + 81) steps that are not idle. */
  lemma RunIsBounded(k: Config, schedule: seq<nat>)
    requires k.loopSize > 0
    ensures Busy(k, Begin(), schedule) <= (Runs(k) + 1) * (32 * k.loopSize + 81)
  {
    BeginOk(k);
    BusyBound(k, Begin(), schedule);
    FreshPair(k.loopSize);
    OneMoveLess(Runs(k) + 1, Runs(k), PerLifetime(k), 0, PerLifetime(k));
    ProductIs(Runs(k) + 1, PerLifetime(k) + 1);
  }
}
