/** What the two flags do in every run, whatever the loads return. */
module FlagTheorems {
  import opened FlagHandshake

  lemma StartOk(k: Config)
    ensures WeakOk(k, WEAK_START)
  {
  }

  lemma {:induction false} StoresAre(k: Config, t: nat)
    ensures Stores(k, t) == 2 * k.loopSize * t
  {
    if t > 0 {
      StoresAre(k, t - 1);
      assert 2 * k.loopSize * t == 2 * k.loopSize * (t - 1) + 2 * k.loopSize;
    }
  }

  /** Neither flag is ever more than one change ahead of what the other thread has read, and the
      parent's flag never more than one change ahead of the child's. */
  lemma Lockstep(k: Config, schedule: seq<Choice>)
    ensures var w := WeakRun(k, WEAK_START, schedule);
      && |w.parent| - 1 <= w.seenParent + 1
      && |w.child| - 1 <= w.seenChild + 1
      && |w.child| <= |w.parent| <= |w.child| + 1
  {
    StartOk(k);
    WeakRunOk(k, WEAK_START, schedule);
  }

  /** Between iterations both flags are false, each thread has stored 2 * loop_size times in every
      iteration so far, and the parent has seen all of it: the next iteration starts clean. The last
      iteration is number k.iterations. */
  lemma CleanBetweenIterations(k: Config, schedule: seq<Choice>)
    ensures var w := WeakRun(k, WEAK_START, schedule);
      w.t.p.PSpawn? || w.t.p.PEnd? ==>
        && |w.parent| == |w.child| == 2 * k.loopSize * w.t.iter + 1
        && !w.parent[|w.parent| - 1] && !w.child[|w.child| - 1]
        && w.seenChild == |w.child| - 1 && w.seenParent == |w.parent| - 1
        && w.t.iter <= k.iterations && (w.t.p.PEnd? ==> w.t.iter == k.iterations)
  {
    StartOk(k);
    WeakRunOk(k, WEAK_START, schedule);
    var w := WeakRun(k, WEAK_START, schedule);
    StoresAre(k, w.t.iter);
    StoresEven(k, w.t.iter);
  }

  // ---------------------------------------------------------------- the two models agree

  /** The current values of the flags, and the threads, without the history. */
  function Forget(w: Weak): Strong {
    Strong(w.t, Value(w.parent, Newest(w.parent)), Value(w.child, Newest(w.child)))
  }

  /** The choice that loads the newest value. */
  function NewestChoice(w: Weak, parentMoves: bool): Choice {
    Choice(parentMoves, |w.parent| + |w.child|)
  }

  /** A load that looks as far as it can is a sequentially consistent load. */
  lemma NewestLoad(k: Config, w: Weak, parentMoves: bool)
    requires WeakOk(k, w)
    ensures Forget(WeakStep(k, w, NewestChoice(w, parentMoves))) == StrongStep(k, Forget(w), parentMoves)
  {
    assert forall v :: Newest(w.parent + [v]) == |w.parent| && Value(w.parent + [v], |w.parent|) == v;
    assert forall v :: Newest(w.child + [v]) == |w.child| && Value(w.child + [v], |w.child|) == v;
  }

  lemma StaleParent(k: Config, w: Weak, at: nat)
    requires WeakOk(k, w) && ParentOp(k, w.t).Load? && w.seenChild <= at < Newest(w.child)
    ensures ParentNext(k, w.t, Value(w.child, at)) == w.t
  {
    StoresEven(k, w.t.iter);
  }

  lemma StaleChild(k: Config, w: Weak, at: nat)
    requires WeakOk(k, w) && ChildOp(k, w.t).Load? && w.seenParent <= at < Newest(w.parent)
    ensures ChildNext(k, w.t, Value(w.parent, at)) == w.t
  {
    StoresEven(k, w.t.iter);
  }

  /** Whether a step loads an older value than it could. */
  predicate Stale(k: Config, w: Weak, e: Choice) {
    if e.parentMoves then
      ParentOp(k, w.t).Load? && LoadAt(w.child, w.seenChild, e.ahead) < Newest(w.child)
    else
      ChildOp(k, w.t).Load? && LoadAt(w.parent, w.seenParent, e.ahead) < Newest(w.parent)
  }

  /** A load that looks less far leaves its thread where it is; every other step of the weak model is
      the step of the strong one. */
  lemma EveryLoad(k: Config, w: Weak, e: Choice)
    requires WeakOk(k, w)
    ensures Forget(WeakStep(k, w, e)) ==
      if Stale(k, w, e) then Forget(w) else StrongStep(k, Forget(w), e.parentMoves)
  {
    if Stale(k, w, e) {
      if e.parentMoves {
        StaleParent(k, w, LoadAt(w.child, w.seenChild, e.ahead));
      } else {
        StaleChild(k, w, LoadAt(w.parent, w.seenParent, e.ahead));
      }
    } else {
      NewestLoad(k, w, e.parentMoves);
      LoadRange(w.child, w.seenChild, e.ahead);
      LoadRange(w.parent, w.seenParent, e.ahead);
      assert WeakStep(k, w, e) == WeakStep(k, w, NewestChoice(w, e.parentMoves));
    }
  }

  /** The weak run that loads the newest value every time. */
  function Fresh(k: Config, w: Weak, schedule: seq<bool>): (choices: seq<Choice>)
    ensures |choices| == |schedule|
    decreases |schedule|
  {
    if schedule == [] then []
    else var e := NewestChoice(w, schedule[0]); [e] + Fresh(k, WeakStep(k, w, e), schedule[1..])
  }

  /** The strong run left when the steps with stale loads are dropped. */
  function Heard(k: Config, w: Weak, choices: seq<Choice>): (schedule: seq<bool>)
    ensures |schedule| <= |choices|
    decreases |choices|
  {
    if choices == [] then []
    else
      (if Stale(k, w, choices[0]) then [] else [choices[0].parentMoves])
      + Heard(k, WeakStep(k, w, choices[0]), choices[1..])
  }

  /** Every run of the sequentially consistent handshake is a run of the weak one. */
  lemma {:induction false} StrongRunIsWeak(k: Config, w: Weak, schedule: seq<bool>)
    requires WeakOk(k, w)
    ensures Forget(WeakRun(k, w, Fresh(k, w, schedule))) == StrongRun(k, Forget(w), schedule)
    decreases |schedule|
  {
    if schedule != [] {
      var e := NewestChoice(w, schedule[0]);
      NewestLoad(k, w, schedule[0]);
      WeakStepOk(k, w, e);
      StrongRunIsWeak(k, WeakStep(k, w, e), schedule[1..]);
      assert Fresh(k, w, schedule)[1..] == Fresh(k, WeakStep(k, w, e), schedule[1..]);
    }
  }

  /** Every run of the weak handshake, its stale loads dropped, is a run of the strong one. */
  lemma {:induction false} WeakRunIsStrong(k: Config, w: Weak, choices: seq<Choice>)
    requires WeakOk(k, w)
    ensures Forget(WeakRun(k, w, choices)) == StrongRun(k, Forget(w), Heard(k, w, choices))
    decreases |choices|
  {
    if choices != [] {
      var e := choices[0];
      EveryLoad(k, w, e);
      WeakStepOk(k, w, e);
      WeakRunIsStrong(k, WeakStep(k, w, e), choices[1..]);
      var rest := Heard(k, WeakStep(k, w, e), choices[1..]);
      if !Stale(k, w, e) {
        assert Heard(k, w, choices) == [e.parentMoves] + rest;
        assert ([e.parentMoves] + rest)[1..] == rest;
      } else {
        assert Heard(k, w, choices) == [] + rest == rest;
      }
    }
  }

  // ---------------------------------------------------------------- the cycle

  /** FF, TF, TT, FT and back to FF, as (parent, child). */
  function NextInCycle(flags: (bool, bool)): (bool, bool) {
    (!flags.1, flags.0)
  }

  function Flags(s: Strong): (bool, bool) {
    (s.parent, s.child)
  }

  /** A store moves the flags to the next place of the cycle, and nothing else moves them. */
  lemma StepFollowsCycle(k: Config, w: Weak, e: Choice)
    requires WeakOk(k, w)
    ensures var op := if e.parentMoves then ParentOp(k, w.t) else ChildOp(k, w.t);
      Flags(Forget(WeakStep(k, w, e))) ==
        if op.Store? then NextInCycle(Flags(Forget(w))) else Flags(Forget(w))
  {
    StoresEven(k, w.t.iter);
    EveryLoad(k, w, e);
  }

  /** In a sequentially consistent run too, the flags follow only the cycle. */
  lemma CycleInEveryRun(k: Config, schedule: seq<bool>, parentMoves: bool)
    ensures var s := StrongRun(k, STRONG_START, schedule);
      var next := Flags(StrongStep(k, s, parentMoves));
      next == Flags(s) || next == NextInCycle(Flags(s))
  {
    StartOk(k);
    var choices := Fresh(k, WEAK_START, schedule);
    var w := WeakRun(k, WEAK_START, choices);
    StrongRunIsWeak(k, WEAK_START, schedule);
    WeakRunOk(k, WEAK_START, choices);
    NewestLoad(k, w, parentMoves);
    StepFollowsCycle(k, w, NewestChoice(w, parentMoves));
  }
}
