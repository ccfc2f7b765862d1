/** The flag handshake cannot get stuck: how much is left, and who can always move. */
module FlagProgress {
  import opened FlagHandshake
  import opened FlagTheorems

  function PerIteration(k: Config): nat { 8 * k.loopSize + 10 }

  function Whole(k: Config, iterations: nat): nat {
    if iterations == 0 then 0 else Whole(k, iterations - 1) + PerIteration(k)
  }

  function ParentLeft(k: Config, t: Threads): int {
    match t.p
    case PStoreTrue => 4 * (k.loopSize - t.i) + 2
    case PAwaitTrue => 4 * (k.loopSize - t.i) + 1
    case PStoreFalse => 4 * (k.loopSize - t.i)
    case PAwaitFalse => 4 * (k.loopSize - t.i) - 1
    case PJoin => 1
    case _ => 0
  }

  function ChildLeft(k: Config, t: Threads): int {
    match t.c
    case CAwaitTrue => 4 * (k.loopSize - t.j) + 1
    case CStoreTrue => 4 * (k.loopSize - t.j)
    case CAwaitFalse => 4 * (k.loopSize - t.j) - 1
    case CStoreFalse => 4 * (k.loopSize - t.j) - 2
    case _ => 0
  }

  /** The steps, other than loads that leave a thread spinning, that are still to come. */
  function Left(k: Config, t: Threads): int {
    if t.p.PEnd? then 0
    else if t.p.PSpawn? then (if t.iter <= k.iterations then 1 + Whole(k, k.iterations - t.iter) else 1)
    else (if t.iter < k.iterations then 1 + Whole(k, k.iterations - t.iter - 1) else 1) + ParentLeft(k, t) + ChildLeft(k, t)
  }

  lemma LeftIsNat(k: Config, w: Weak)
    requires WeakOk(k, w)
    ensures Left(k, w.t) >= 0 && (Left(k, w.t) == 0 <==> w.t.p.PEnd?)
  {
  }

  /** A step either leaves its thread spinning or lowers what is left. */
  lemma StepLowers(k: Config, w: Weak, e: Choice)
    requires WeakOk(k, w)
    ensures WeakStep(k, w, e).t == w.t || Left(k, WeakStep(k, w, e).t) < Left(k, w.t)
  {
    var t := w.t;
    var v := if e.parentMoves then Value(w.child, LoadAt(w.child, w.seenChild, e.ahead))
      else Value(w.parent, LoadAt(w.parent, w.seenParent, e.ahead));
    if e.parentMoves {
      ParentLowers(k, t, v);
    } else {
      ChildLowers(k, t, v);
    }
  }

  predicate InRange(k: Config, t: Threads) {
    && (t.p.PSpawn? ==> t.iter <= k.iterations)
    && (!t.p.PSpawn? && !t.p.PEnd? ==> t.iter < k.iterations)
    && (t.c.CNone? <==> t.p.PSpawn? || t.p.PEnd?)
    && (t.p.PStoreTrue? ==> t.i <= k.loopSize) && (t.c.CAwaitTrue? ==> t.j <= k.loopSize)
    && (t.p.PAwaitTrue? || t.p.PStoreFalse? || t.p.PAwaitFalse? ==> t.i < k.loopSize)
    && (t.c.CStoreTrue? || t.c.CAwaitFalse? || t.c.CStoreFalse? ==> t.j < k.loopSize)
  }

  lemma ParentLowers(k: Config, t: Threads, value: bool)
    requires InRange(k, t)
    ensures ParentNext(k, t, value) == t || Left(k, ParentNext(k, t, value)) < Left(k, t)
  {
  }

  lemma ChildLowers(k: Config, t: Threads, value: bool)
    requires InRange(k, t)
    ensures ChildNext(k, t, value) == t || Left(k, ChildNext(k, t, value)) < Left(k, t)
  {
  }

  /** Unless all is over, the parent gets on with the child's current value or the child with the
      parent's. */
  lemma OneGetsOn(k: Config, t: Threads, parentStores: nat, childStores: nat, seenChild: nat, seenParent: nat)
    requires ParentOk(k, t, parentStores, seenChild) && ChildOk(k, t, childStores, seenParent)
    requires childStores <= parentStores <= childStores + 1
    requires Stores(k, t.iter) % 2 == 0 && !t.p.PEnd? && (t.c.CNone? <==> t.p.PSpawn?)
    ensures ParentNext(k, t, childStores % 2 == 1) != t || ChildNext(k, t, parentStores % 2 == 1) != t
  {
  }

  lemma NewestMoves(k: Config, w: Weak)
    requires WeakOk(k, w)
    ensures WeakStep(k, w, NewestChoice(w, true)).t == ParentNext(k, w.t, (|w.child| - 1) % 2 == 1)
    ensures WeakStep(k, w, NewestChoice(w, false)).t == ChildNext(k, w.t, (|w.parent| - 1) % 2 == 1)
  {
    NewestLoad(k, w, true);
    NewestLoad(k, w, false);
  }

  /** In every state but the last, a thread that loads the newest value gets on. */
  lemma SomebodyMoves(k: Config, w: Weak)
    requires WeakOk(k, w) && !w.t.p.PEnd?
    ensures || WeakStep(k, w, NewestChoice(w, true)).t != w.t
            || WeakStep(k, w, NewestChoice(w, false)).t != w.t
  {
    StoresEven(k, w.t.iter);
    NewestMoves(k, w);
    OneGetsOn(k, w.t, |w.parent| - 1, |w.child| - 1, w.seenChild, w.seenParent);
  }

  /** From every reachable state some schedule of at most Left steps ends all iterations. */
  lemma {:induction false} CanFinish(k: Config, w: Weak) returns (schedule: seq<Choice>)
    requires WeakOk(k, w)
    ensures |schedule| <= Left(k, w.t)
    ensures WeakRun(k, w, schedule).t.p.PEnd?
    decreases Left(k, w.t)
  {
    LeftIsNat(k, w);
    if w.t.p.PEnd? {
      schedule := [];
    } else {
      SomebodyMoves(k, w);
      var e := NewestChoice(w, WeakStep(k, w, NewestChoice(w, true)).t != w.t);
      StepLowers(k, w, e);
      WeakStepOk(k, w, e);
      LeftIsNat(k, WeakStep(k, w, e));
      var rest := CanFinish(k, WeakStep(k, w, e));
      schedule := [e] + rest;
      assert schedule[1..] == rest;
    }
  }

  /** How many steps of a run are not spins. */
  function Busy(k: Config, w: Weak, schedule: seq<Choice>): nat
    decreases |schedule|
  {
    if schedule == [] then 0
    else
      (if WeakStep(k, w, schedule[0]).t == w.t then 0 else 1)
      + Busy(k, WeakStep(k, w, schedule[0]), schedule[1..])
  }

  /** No run, however stale its loads, does more than Left steps besides spinning. */
  lemma {:induction false} BusyIsBounded(k: Config, w: Weak, schedule: seq<Choice>)
    requires WeakOk(k, w)
    ensures Busy(k, w, schedule) + Left(k, WeakRun(k, w, schedule).t) <= Left(k, w.t)
    decreases |schedule|
  {
    if schedule != [] {
      StepLowers(k, w, schedule[0]);
      WeakStepOk(k, w, schedule[0]);
      BusyIsBounded(k, WeakStep(k, w, schedule[0]), schedule[1..]);
    }
  }
}
