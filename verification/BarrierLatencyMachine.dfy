/** The loops of RunBarrierLatencyBenchmark: a barrier made and destroyed in every run. */
module BarrierLatencyMachine {
  import opened Barrier
  import opened BarrierClient
  import opened BarrierProgress
  import opened BarrierLifecycle
  import opened BarrierLatency
  import BarrierMachine

  lemma {:induction false} RunOneMore(k: Config, l: Latency, schedule: seq<nat>, x: nat)
    requires x < |schedule|
    ensures LatencyRun(k, l, schedule[..x + 1]) == LatencyStep(k, LatencyRun(k, l, schedule[..x]), schedule[x])
    decreases x
  {
    if x == 0 {
      assert LatencyRun(k, LatencyStep(k, l, schedule[0]), schedule[..1][1..]) == LatencyStep(k, l, schedule[0]);
    } else {
      RunOneMore(k, LatencyStep(k, l, schedule[0]), schedule[1..], x - 1);
      assert schedule[..x + 1][1..] == schedule[1..][..x] && schedule[..x][1..] == schedule[1..][..x - 1];
    }
  }

  /** A new lifetime starts like the first one. */
  lemma NextIsInit(k: Config, l: Latency)
    requires LatencyOk(k, l) && Finished(l.b)
    ensures Relaunch(ClearResource(l.b), 2) == Init(2)
  {
    var schedule :| l.b == ProgRun(Init(2), k.loopSize, schedule);
    NextLifetime(2, k.loopSize, schedule, 2);
  }

  method AllGone(m: BarrierMachine.Machine) returns (gone: bool)
    ensures gone <==> Finished(m.View())
  {
    gone := true;
    for p := 0 to m.users.Length
      invariant gone <==> forall q :: 0 <= q < p ==> m.users[q].pc.Gone?
    {
      gone := gone && m.users[p].pc == Gone;
    }
    assert m.View().users == m.users[..];
  }

  class Benchmark {
    const k: Config
    const latency: nat -> real // what the clock shows in each run
    var barrier: BarrierMachine.Machine
    var run: nat
    var measurements: seq<real>

    ghost function View(): Latency
      reads this, barrier, barrier.users
    {
      Latency(barrier.View(), run, |measurements|)
    }

    /** The latencies kept are those of the measured runs. */
    predicate Kept()
      reads this
    {
      forall i :: 0 <= i < |measurements| ==> measurements[i] == latency(k.warmups + i)
    }

    constructor (k: Config, latency: nat -> real)
      ensures this.k == k && this.latency == latency && View() == Begin() && Kept()
      ensures fresh(barrier) && fresh(barrier.users)
    {
      this.k := k;
      this.latency := latency;
      barrier := new BarrierMachine.Machine(2);
      run, measurements := 0, [];
    }

    /** The user that the scheduler picks goes on, unless it is the parent in waitpid. */
    method Proceed(p: nat)
      requires Inv(barrier.View()) && barrier.users.Length == 2
      modifies barrier, barrier.users
      ensures barrier.View() == if p == PARENT && InWaitpid(k, old(barrier.View())) then old(barrier.View())
        else ProgStep(old(barrier.View()), k.loopSize, p)
    {
      if p < 2 {
        if barrier.users[p].pc != Ready {
          BarrierMachine.HandlesFromInv(barrier.View(), p);
          barrier.Step(p);
        } else if barrier.users[p].round < k.loopSize {
          barrier.Perform(p, DoWait);
        } else if p == CHILD || barrier.users[CHILD].pc == Gone {
          barrier.Perform(p, DoLeave);
        }
      }
    }

    /** The end of one run and the beginning of the next. */
    method NextRun()
      requires LatencyOk(k, View()) && Finished(View().b) && run < Runs(k) && Kept()
      modifies this
      ensures View() == LatencyStep(k, old(View()), PARENT) && Kept()
      ensures fresh(barrier) && fresh(barrier.users)
    {
      NextIsInit(k, View());
      if run >= k.warmups {
        measurements := measurements + [latency(run)];
      }
      barrier := new BarrierMachine.Machine(2);
      run := run + 1;
    }

    method Advance(p: nat)
      requires LatencyOk(k, View()) && Kept()
      modifies this, barrier, barrier.users
      ensures View() == LatencyStep(k, old(View()), p) && Kept()
      ensures (barrier == old(barrier) && barrier.users == old(barrier.users)) || (fresh(barrier) && fresh(barrier.users))
    {
      if run < k.warmups + k.iterations {
        FreshIsGood(k, View().b);
        var over := AllGone(barrier);
        if !over {
          Proceed(p);
        } else if p == PARENT {
          NextRun();
        }
      }
    }
  }

  /** Any schedule: when all runs are over, one latency has been kept for each measured run. */
  method RunBenchmark(k: Config, schedule: seq<nat>, latency: nat -> real) returns (m: Benchmark)
    ensures fresh(m) && m.k == k && m.latency == latency
    ensures m.View() == LatencyRun(k, Begin(), schedule)
    ensures m.Kept() && (m.run == Runs(k) ==> |m.measurements| == k.iterations)
  {
    m := new Benchmark(k, latency);
    BeginOk(k);
    for x := 0 to |schedule|
      invariant fresh(m) && fresh(m.barrier) && fresh(m.barrier.users) && m.k == k && m.latency == latency
      invariant LatencyOk(k, m.View()) && m.Kept()
      invariant m.View() == LatencyRun(k, Begin(), schedule[..x])
    {
      RunOneMore(k, Begin(), schedule, x);
      LatencyStepOk(k, m.View(), schedule[x]);
      m.Advance(schedule[x]);
    }
    assert schedule[..|schedule|] == schedule;
  }
}
