/**
 The flag handshake as it runs: flags and loop counters updated in place, a parent and a child step
 for the scheduler to pick from. Every method is proved against the step functions of module
 FlagHandshake.
 */
module FlagMachine {
  import opened FlagHandshake
  import opened FlagTheorems

  /** std::atomic<bool> with sequentially consistent loads and stores (atomic_latency). */
  class StrongMachine {
    const k: Config
    var t: Threads
    var parent: bool
    var child: bool

    ghost function View(): Strong
      reads this
    {
      Strong(t, parent, child)
    }

    constructor (k: Config)
      ensures this.k == k && View() == STRONG_START
    {
      this.k := k;
      t := START;
      parent, child := false, false;
    }

    /** One step of ParentFlip or of the loop around it. */
    method ParentMoves()
      modifies this
      ensures View() == StrongStep(k, old(View()), true)
    {
      match t.p
      case PSpawn =>
        if t.iter < k.iterations {
          t := t.(p := PStoreTrue, i := 0, c := CAwaitTrue, j := 0);
        } else {
          t := t.(p := PEnd);
        }
      case PStoreTrue =>
        if t.i < k.loopSize {
          parent := true;
          t := t.(p := PAwaitTrue);
        } else {
          t := t.(p := PJoin);
        }
      case PAwaitTrue =>
        if child {
          t := t.(p := PStoreFalse);
        }
      case PStoreFalse =>
        parent := false;
        t := t.(p := PAwaitFalse);
      case PAwaitFalse =>
        if !child {
          t := t.(p := PStoreTrue, i := t.i + 1);
        }
      case PJoin =>
        if t.c.CExit? {
          t := t.(p := PSpawn, c := CNone, iter := t.iter + 1);
        }
      case PEnd =>
    }

    /** One step of ChildFlip. */
    method ChildMoves()
      modifies this
      ensures View() == StrongStep(k, old(View()), false)
    {
      match t.c
      case CNone =>
      case CAwaitTrue =>
        if t.j >= k.loopSize {
          t := t.(c := CExit);
        } else if parent {
          t := t.(c := CStoreTrue);
        }
      case CStoreTrue =>
        child := true;
        t := t.(c := CAwaitFalse);
      case CAwaitFalse =>
        if !parent {
          t := t.(c := CStoreFalse);
        }
      case CStoreFalse =>
        child := false;
        t := t.(c := CAwaitTrue, j := t.j + 1);
      case CExit =>
    }
  }

  /** One relaxed flag: its modification order so far, and how much of it the other thread has read. */
  class RelaxedFlag {
    var history: seq<bool>
    var seen: nat

    constructor ()
      ensures history == [false] && seen == 0
    {
      history := [false];
      seen := 0;
    }

    method Store(value: bool)
      modifies this
      ensures history == old(history) + [value] && seen == old(seen)
    {
      history := history + [value];
    }

    /** An acquire load by the other thread, of a value at most `ahead` newer than the last one. */
    method Load(ahead: nat) returns (value: bool)
      modifies this
      ensures history == old(history)
      ensures seen == LoadAt(history, old(seen), ahead) && value == Value(history, seen)
    {
      seen := if seen + ahead < |history| then seen + ahead else if |history| == 0 then 0 else |history| - 1;
      value := seen < |history| && history[seen];
    }

    /** The other thread starts, or has joined the storing thread. */
    method Synchronize()
      modifies this
      ensures history == old(history) && seen == Newest(history)
    {
      seen := if |history| == 0 then 0 else |history| - 1;
    }
  }

  /** The same threads on relaxed flags (atomic_rel_acq_latency). */
  class WeakMachine {
    const k: Config
    const parent: RelaxedFlag
    const child: RelaxedFlag
    var t: Threads

    ghost predicate Separate()
      reads this
    {
      parent != child
    }

    ghost function View(): Weak
      reads this, parent, child
    {
      Weak(t, parent.history, child.history, parent.seen, child.seen)
    }

    constructor (k: Config)
      ensures this.k == k && fresh(parent) && fresh(child)
      ensures Separate() && View() == WEAK_START
    {
      this.k := k;
      t := START;
      parent := new RelaxedFlag();
      child := new RelaxedFlag();
    }

    method ParentMoves(ahead: nat)
      requires Separate()
      modifies this, parent, child
      ensures View() == WeakStep(k, old(View()), Choice(true, ahead))
    {
      match t.p
      case PSpawn =>
        if t.iter < k.iterations {
          parent.Synchronize();
          t := t.(p := PStoreTrue, i := 0, c := CAwaitTrue, j := 0);
        } else {
          t := t.(p := PEnd);
        }
      case PStoreTrue =>
        if t.i < k.loopSize {
          parent.Store(true);
          t := t.(p := PAwaitTrue);
        } else {
          t := t.(p := PJoin);
        }
      case PAwaitTrue =>
        var flag := child.Load(ahead);
        if flag {
          t := t.(p := PStoreFalse);
        }
      case PStoreFalse =>
        parent.Store(false);
        t := t.(p := PAwaitFalse);
      case PAwaitFalse =>
        var flag := child.Load(ahead);
        if !flag {
          t := t.(p := PStoreTrue, i := t.i + 1);
        }
      case PJoin =>
        if t.c.CExit? {
          child.Synchronize();
          t := t.(p := PSpawn, c := CNone, iter := t.iter + 1);
        }
      case PEnd =>
    }

    method ChildMoves(ahead: nat)
      requires Separate()
      modifies this, parent, child
      ensures View() == WeakStep(k, old(View()), Choice(false, ahead))
    {
      match t.c
      case CNone =>
      case CAwaitTrue =>
        if t.j >= k.loopSize {
          t := t.(c := CExit);
        } else {
          var flag := parent.Load(ahead);
          if flag {
            t := t.(c := CStoreTrue);
          }
        }
      case CStoreTrue =>
        child.Store(true);
        t := t.(c := CAwaitFalse);
      case CAwaitFalse =>
        var flag := parent.Load(ahead);
        if !flag {
          t := t.(c := CStoreFalse);
        }
      case CStoreFalse =>
        child.Store(false);
        t := t.(c := CAwaitTrue, j := t.j + 1);
      case CExit =>
    }
  }

  /** Any schedule of the relaxed handshake: whenever it has ended, both flags are false and each was
      stored to 2 * loop_size times per iteration. */
  method Execute(k: Config, schedule: seq<Choice>) returns (m: WeakMachine)
    ensures fresh(m) && m.k == k && m.View() == WeakRun(k, WEAK_START, schedule)
    ensures m.t.p.PEnd? ==>
      && |m.parent.history| == |m.child.history| == 2 * k.loopSize * k.iterations + 1
      && !m.parent.history[|m.parent.history| - 1] && !m.child.history[|m.child.history| - 1]
  {
    CleanBetweenIterations(k, schedule);
    m := new WeakMachine(k);
    for x := 0 to |schedule|
      invariant fresh(m) && fresh(m.parent) && fresh(m.child) && m.k == k && m.Separate()
      invariant m.View() == WeakRun(k, WEAK_START, schedule[..x])
    {
      var e := schedule[x];
      WeakRunOn(k, WEAK_START, schedule[..x], e);
      assert schedule[..x + 1] == schedule[..x] + [e];
      if e.parentMoves {
        m.ParentMoves(e.ahead);
      } else {
        m.ChildMoves(e.ahead);
      }
    }
    assert schedule[..|schedule|] == schedule;
  }

  lemma {:induction false} WeakRunOn(k: Config, w: Weak, schedule: seq<Choice>, e: Choice)
    ensures WeakRun(k, w, schedule + [e]) == WeakStep(k, WeakRun(k, w, schedule), e)
    decreases |schedule|
  {
    if schedule != [] {
      WeakRunOn(k, WeakStep(k, w, schedule[0]), schedule[1..], e);
      assert (schedule + [e])[1..] == schedule[1..] + [e];
    } else {
      assert WeakRun(k, w, [e]) == WeakRun(k, WeakStep(k, w, e), []);
    }
  }
}
