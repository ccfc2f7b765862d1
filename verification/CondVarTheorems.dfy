/** What the ping-pong promises, for every schedule with any number of spurious wake-ups. */
module CondVarTheorems {
  import opened Basics
  import opened CondVar

  lemma StartInv(k: Config)
    ensures Inv(k, START)
  {
  }

  ghost predicate Reachable(k: Config, w: World) {
    exists schedule :: w == Run(k, START, schedule)
  }

  lemma ReachableInv(k: Config, w: World)
    requires Reachable(k, w)
    ensures Inv(k, w)
  {
    var schedule :| w == Run(k, START, schedule);
    StartInv(k);
    RunInv(k, START, schedule);
  }

  /** No wake-up is lost: whoever sleeps although its flag is up has a notify_one still to come, and
      that one wakes it. */
  lemma NoLostWakeup(k: Config, w: World, pick: Tid)
    requires Reachable(k, w)
    ensures Child in w.toChild.waiters && w.toChild.ready ==>
      && (w.parent.pc.SUnlock? || w.parent.pc.SNotify?)
      && Child !in NotifyOne(w.toChild.waiters, pick)
    ensures Parent in w.toParent.waiters && w.toParent.ready ==>
      && (w.child.pc.SUnlock? || w.child.pc.SNotify?)
      && Parent !in NotifyOne(w.toParent.waiters, pick)
  {
    ReachableInv(k, w);
  }

  /** No flag is set while an earlier signal is unconsumed, or cleared without one. */
  lemma NothingOverwritten(k: Config, w: World)
    requires Reachable(k, w)
    ensures w.parent.pc.SSet? ==> !w.toChild.ready
    ensures w.child.pc.SSet? ==> !w.toParent.ready
    ensures w.parent.pc.AClear? ==> w.toParent.ready
    ensures w.child.pc.AClear? ==> w.toChild.ready
  {
    ReachableInv(k, w);
  }

  /** A thread that touches a flag holds its mutex, so the other one is not inside. */
  lemma TouchedUnderMutex(k: Config, w: World)
    requires Reachable(k, w)
    ensures SignalHolds(w.parent.pc) ==> w.toChild.owner == Some(Parent) && !AwaitHolds(w.child.pc)
    ensures AwaitHolds(w.child.pc) ==> w.toChild.owner == Some(Child) && !SignalHolds(w.parent.pc)
    ensures SignalHolds(w.child.pc) ==> w.toParent.owner == Some(Child) && !AwaitHolds(w.parent.pc)
    ensures AwaitHolds(w.parent.pc) ==> w.toParent.owner == Some(Parent) && !SignalHolds(w.child.pc)
  {
    ReachableInv(k, w);
  }

  /** The reset after the join changes nothing: flags, mutexes and wait sets are already blank. */
  lemma ResetIsIdle(k: Config, w: World)
    requires Reachable(k, w) && (w.parent.pc.ResetParent? || w.parent.pc.ResetChild? || w.parent.pc.Spawn? || w.parent.pc.Over?)
    ensures w.toChild == QUIET && w.toParent == QUIET
    ensures w.parent.i == w.child.i
  {
    ReachableInv(k, w);
  }

  // ---------------------------------------------------------------- nothing gets stuck

  function PerIteration(k: Config): nat { 24 * k.loopSize + 6 }

  function Whole(k: Config, iterations: nat): nat {
    if iterations == 0 then 0 else Whole(k, iterations - 1) + PerIteration(k)
  }

  /** The steps left in a loop body. Going to sleep is worth one step less than testing; waking up
      costs two, which the notify behind it has paid for. */
  function SignalLeft(pc: PC): nat
    requires Signals(pc)
  {
    match pc
    case SLock => 4
    case SSet => 3
    case SUnlock => 2
    case SNotify => 1
  }

  function AwaitLeft(t: Tid, pc: PC, ch: Channel): nat
    requires Awaits(pc)
  {
    match pc
    case ALock => 5
    case ATest => 4
    case ASleep => if t in ch.waiters then 3 else 5
    case AClear => 2
    case AUnlock => 1
  }

  /** `ch` is the channel the thread waits on. */
  function ThreadLeft(k: Config, t: Tid, th: Thread, ch: Channel): int {
    if th.pc.Head? then 12 * (k.loopSize - th.i)
    else if Signals(th.pc) then
      12 * (k.loopSize - th.i - 1) + SignalLeft(th.pc) + (if t.Parent? then 7 else 2)
    else if Awaits(th.pc) then
      12 * (k.loopSize - th.i - 1) + AwaitLeft(t, th.pc, ch) + (if t.Parent? then 0 else 6)
    else 0
  }

  function TailLeft(pc: PC): nat {
    match pc
    case Join => 3
    case ResetParent => 2
    case ResetChild => 1
    case _ => 4
  }

  function Left(k: Config, w: World): int {
    if w.parent.pc.Over? then 0
    else if w.parent.pc.Spawn? then (if w.iter <= k.iterations then 1 + Whole(k, k.iterations - w.iter) else 1)
    else
      (if w.iter < k.iterations then 1 + Whole(k, k.iterations - w.iter - 1) else 1)
      + TailLeft(w.parent.pc) + ThreadLeft(k, Parent, w.parent, w.toParent)
      + (if w.child.pc.Exit? then 0 else 1) + ThreadLeft(k, Child, w.child, w.toChild)
  }

  predicate Spurious(k: Config, w: World, e: Choice) {
    && e.spurious
    && (if e.who.Parent? then w.parent.pc.ASleep? && Parent in w.toParent.waiters
        else w.child.pc.ASleep? && Child in w.toChild.waiters)
  }

  lemma LeftIsNat(k: Config, w: World)
    requires ThreadsOk(k, w)
    ensures Left(k, w) >= 0 && (Left(k, w) == 0 <==> w.parent.pc.Over?)
  {
  }

  lemma ParentLowers(k: Config, w: World, e: Choice)
    requires ThreadsOk(k, w) && SleepersOk(w) && !Spurious(k, w, e) && e.who.Parent?
    ensures ParentStep(k, w, e) == w || Left(k, ParentStep(k, w, e)) < Left(k, w)
  {
    if Signals(w.parent.pc) {
      ParentSignalLowers(k, w, e);
    } else if Awaits(w.parent.pc) {
      ParentAwaitLowers(k, w, e);
    }
  }

  lemma ParentSignalLowers(k: Config, w: World, e: Choice)
    requires ThreadsOk(k, w) && SleepersOk(w) && Signals(w.parent.pc)
    ensures ParentStep(k, w, e) == w || Left(k, ParentStep(k, w, e)) < Left(k, w)
  {
  }

  lemma ParentAwaitLowers(k: Config, w: World, e: Choice)
    requires ThreadsOk(k, w) && SleepersOk(w) && !Spurious(k, w, e) && e.who.Parent? && Awaits(w.parent.pc)
    ensures ParentStep(k, w, e) == w || Left(k, ParentStep(k, w, e)) < Left(k, w)
  {
  }

  lemma ChildLowers(k: Config, w: World, e: Choice)
    requires ThreadsOk(k, w) && SleepersOk(w) && !Spurious(k, w, e) && e.who.Child?
    ensures ChildStep(k, w, e) == w || Left(k, ChildStep(k, w, e)) < Left(k, w)
  {
  }

  /** A step that is not a spurious wake-up does nothing or lowers what is left; a spurious wake-up
      adds two steps. */
  lemma StepLowers(k: Config, w: World, e: Choice)
    requires ThreadsOk(k, w) && SleepersOk(w)
    ensures !Spurious(k, w, e) ==> Step(k, w, e) == w || Left(k, Step(k, w, e)) < Left(k, w)
    ensures Spurious(k, w, e) ==> Left(k, Step(k, w, e)) == Left(k, w) + 2
  {
    if !Spurious(k, w, e) {
      if e.who.Parent? {
        ParentLowers(k, w, e);
      } else {
        ChildLowers(k, w, e);
      }
    }
  }

  /** Without any spurious wake-up, in every state but the last somebody can move. */
  lemma SomebodyMoves(k: Config, w: World)
    requires Inv(k, w) && !w.parent.pc.Over?
    ensures Step(k, w, Choice(Parent, false, Child)) != w || Step(k, w, Choice(Child, false, Parent)) != w
  {
  }

  /** From every reachable state some schedule without spurious wake-ups ends all iterations. */
  lemma {:induction false} CanFinish(k: Config, w: World) returns (schedule: seq<Choice>)
    requires Inv(k, w)
    ensures |schedule| <= Left(k, w)
    ensures Run(k, w, schedule).parent.pc.Over?
    ensures forall x :: 0 <= x < |schedule| ==> !schedule[x].spurious
    decreases Left(k, w)
  {
    LeftIsNat(k, w);
    if w.parent.pc.Over? {
      schedule := [];
    } else {
      SomebodyMoves(k, w);
      var e := if Step(k, w, Choice(Parent, false, Child)) != w then Choice(Parent, false, Child)
               else Choice(Child, false, Parent);
      StepLowers(k, w, e);
      StepInv(k, w, e);
      LeftIsNat(k, Step(k, w, e));
      var rest := CanFinish(k, Step(k, w, e));
      schedule := [e] + rest;
      assert schedule[1..] == rest;
    }
  }

  /** How many steps of a run do something, and how many of these are spurious wake-ups. */
  function Busy(k: Config, w: World, schedule: seq<Choice>): nat
    decreases |schedule|
  {
    if schedule == [] then 0
    else (if Step(k, w, schedule[0]) == w then 0 else 1) + Busy(k, Step(k, w, schedule[0]), schedule[1..])
  }

  function SpuriousWakeups(k: Config, w: World, schedule: seq<Choice>): nat
    decreases |schedule|
  {
    if schedule == [] then 0
    else
      (if Spurious(k, w, schedule[0]) then 1 else 0)
      + SpuriousWakeups(k, Step(k, w, schedule[0]), schedule[1..])
  }

  /** A run does at most Left steps, and three more for each spurious wake-up in it. */
  lemma {:induction false} BusyIsBounded(k: Config, w: World, schedule: seq<Choice>)
    requires Inv(k, w)
    ensures Busy(k, w, schedule) + Left(k, Run(k, w, schedule)) <= Left(k, w) + 3 * SpuriousWakeups(k, w, schedule)
    decreases |schedule|
  {
    if schedule != [] {
      StepLowers(k, w, schedule[0]);
      StepInv(k, w, schedule[0]);
      BusyIsBounded(k, Step(k, w, schedule[0]), schedule[1..]);
    }
  }
}
