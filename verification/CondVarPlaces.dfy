/** What single calls on the mutexes and condition variables do, and how often the flags are set. */
module CondVarPlaces {
  import opened Basics
  import opened CondVar
  import opened CondVarTheorems

  // ---------------------------------------------------------------- single calls

  /** notify_one wakes exactly one sleeper if there is any, and the preferred one if it sleeps. */
  lemma NotifyWakesOne(waiters: set<Tid>, pick: Tid)
    ensures NotifyOne(waiters, pick) <= waiters
    ensures |NotifyOne(waiters, pick)| == if waiters == {} then 0 else |waiters| - 1
    ensures pick in waiters ==> waiters == NotifyOne(waiters, pick) + {pick} && pick !in NotifyOne(waiters, pick)
  {
    if pick in waiters {
      assert waiters == NotifyOne(waiters, pick) + {pick};
    } else if waiters != {} {
      var t :| t in waiters;
      assert forall u :: u in waiters ==> u == Other(pick);
      assert waiters == {Other(pick)};
    } else {
      assert NotifyOne(waiters, pick) == {};
    }
  }

  /** Every notify is issued with the mutex already given up. */
  lemma NotifyAfterUnlock(k: Config, w: World)
    requires Reachable(k, w)
    ensures w.parent.pc.SNotify? ==> w.toChild.owner != Some(Parent)
    ensures w.child.pc.SNotify? ==> w.toParent.owner != Some(Child)
  {
    ReachableInv(k, w);
  }

  /** A thread that finds its flag down gives up the mutex and enters the wait set in one step. */
  lemma SleepUnlocks(k: Config, w: World, e: Choice)
    requires Reachable(k, w)
    ensures e.who.Child? && w.child.pc.ATest? && !w.toChild.ready ==>
      Step(k, w, e) == w.(child := w.child.(pc := ASleep), toChild := Channel(false, None, {Child}))
    ensures e.who.Parent? && w.parent.pc.ATest? && !w.toParent.ready ==>
      Step(k, w, e) == w.(parent := w.parent.(pc := ASleep), toParent := Channel(false, None, {Parent}))
  {
    ReachableInv(k, w);
    assert {} + {Child} == {Child} && {} + {Parent} == {Parent};
  }

  /** A sleeper that has not been notified leaves the wait set only when the scheduler wakes it
      spuriously, and may do so at any time; it tests its flag again only with the mutex. */
  lemma SleeperWakes(k: Config, w: World, pick: Tid)
    requires Reachable(k, w) && w.child.pc.ASleep? && Child in w.toChild.waiters
    ensures Step(k, w, Choice(Child, false, pick)) == w
    ensures Step(k, w, Choice(Child, true, pick)) == w.(toChild := w.toChild.(waiters := {}))
  {
    ReachableInv(k, w);
    assert w.toChild.waiters - {Child} == {};
  }

  /** A thread outside the wait set takes the mutex if it is free, and then tests. */
  lemma WokenTests(k: Config, w: World, e: Choice)
    requires e.who.Child? && w.child.pc.ASleep? && Child !in w.toChild.waiters
    ensures Step(k, w, e) ==
      if w.toChild.owner == None
      then w.(child := w.child.(pc := ATest), toChild := w.toChild.(owner := Some(Child)))
      else w
  {
  }

  // ---------------------------------------------------------------- how often

  /** The flag that a thread sets. */
  function Flag(w: World, t: Tid): bool { if t.Parent? then w.toChild.ready else w.toParent.ready }

  /** How often that flag goes from false to true in a run. */
  function Raised(k: Config, w: World, schedule: seq<Choice>, t: Tid): nat
    decreases |schedule|
  {
    if schedule == [] then 0
    else
      var w' := Step(k, w, schedule[0]);
      (if !Flag(w, t) && Flag(w', t) then 1 else 0) + Raised(k, w', schedule[1..], t)
  }

  /** loop_size times in each finished iteration, and as often as the thread has set it in this one. */
  function Total(k: Config, w: World, t: Tid): nat {
    Product(w.iter, k.loopSize) +
    if w.parent.pc.Spawn? || w.parent.pc.Over? then 0 else Sent(t, if t.Parent? then w.parent else w.child)
  }

  lemma ParentRaises(k: Config, w: World, e: Choice, t: Tid)
    requires ThreadsOk(k, w) && FlagsOk(w)
    ensures Total(k, ParentStep(k, w, e), t) ==
      Total(k, w, t) + if !Flag(w, t) && Flag(ParentStep(k, w, e), t) then 1 else 0
  {
  }

  lemma ChildRaises(k: Config, w: World, e: Choice, t: Tid)
    requires ThreadsOk(k, w) && FlagsOk(w)
    ensures Total(k, ChildStep(k, w, e), t) ==
      Total(k, w, t) + if !Flag(w, t) && Flag(ChildStep(k, w, e), t) then 1 else 0
  {
  }

  lemma {:induction false} RaisedIs(k: Config, w: World, schedule: seq<Choice>, t: Tid)
    requires Inv(k, w)
    ensures Total(k, w, t) + Raised(k, w, schedule, t) == Total(k, Run(k, w, schedule), t)
    decreases |schedule|
  {
    if schedule != [] {
      var e := schedule[0];
      if e.who.Parent? {
        ParentRaises(k, w, e, t);
      } else {
        ChildRaises(k, w, e, t);
      }
      StepInv(k, w, e);
      RaisedIs(k, Step(k, w, e), schedule[1..], t);
    }
  }

  /** Between iterations, and so at the end, each thread has raised its flag exactly loop_size times in
      every iteration there was, whatever the spurious wake-ups; at the end all iterations are over. */
  lemma SignalsCounted(k: Config, schedule: seq<Choice>, t: Tid)
    ensures var w := Run(k, START, schedule);
      && (w.parent.pc.Spawn? || w.parent.pc.Over? ==> Raised(k, START, schedule, t) == w.iter * k.loopSize)
      && (w.parent.pc.Over? ==> w.iter == k.iterations)
  {
    StartInv(k);
    RunInv(k, START, schedule);
    RaisedIs(k, START, schedule, t);
    ProductIs(Run(k, START, schedule).iter, k.loopSize);
  }

  // ---------------------------------------------------------------- blocking

  /** A thread at `pc` can do nothing with channel `ch`: another one holds the mutex, or it sleeps, has
      not been notified, and the scheduler does not wake it. */
  predicate Stuck(self: Tid, pc: PC, ch: Channel, spurious: bool) {
    || ((pc.SLock? || pc.ALock?) && ch.owner != None)
    || (pc.ASleep? && if self in ch.waiters then !spurious else ch.owner != None)
  }

  /** A thread is blocked on a mutex, asleep, or in join, and nowhere else. */
  lemma ParentBlockedIff(k: Config, w: World, e: Choice)
    requires Inv(k, w) && e.who.Parent?
    ensures Step(k, w, e) == w <==>
      || w.parent.pc.Over? || (w.parent.pc.Join? && !w.child.pc.Exit?)
      || Stuck(Parent, w.parent.pc, if Signals(w.parent.pc) then w.toChild else w.toParent, e.spurious)
  {
  }

  lemma ChildBlockedIff(k: Config, w: World, e: Choice)
    requires Inv(k, w) && e.who.Child?
    ensures Step(k, w, e) == w <==>
      || w.child.pc.Idle? || w.child.pc.Exit?
      || Stuck(Child, w.child.pc, if Signals(w.child.pc) then w.toParent else w.toChild, e.spurious)
  {
  }
}
