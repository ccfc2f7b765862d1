/**
 The ping-pong as it runs: the two channels and the two threads updated in place. Every method is
 proved against the step functions of module CondVar.
 */
module CondVarMachine {
  import opened Basics
  import opened CondVar
  import opened CondVarTheorems

  /** A flag, the mutex around it and the condition variable that announces it. */
  class SharedFlag {
    var ready: bool
    var owner: Option<Tid>
    var waiters: set<Tid>

    ghost function View(): Channel
      reads this
    {
      Channel(ready, owner, waiters)
    }

    constructor ()
      ensures View() == QUIET
    {
      ready := false;
      owner := None;
      waiters := {};
    }

    method TryLock(self: Tid) returns (ok: bool)
      modifies this`owner
      ensures ok == old(owner).None?
      ensures owner == if ok then Some(self) else old(owner)
    {
      ok := owner.None?;
      if ok {
        owner := Some(self);
      }
    }

    method Unlock()
      modifies this`owner
      ensures owner == None
    {
      owner := None;
    }

    method NotifyOne(pick: Tid)
      modifies this`waiters
      ensures waiters == CondVar.NotifyOne(old(waiters), pick)
    {
      waiters := waiters - {if pick in waiters then pick else Other(pick)};
    }

    method SignalStep(self: Tid, pc: PC, pick: Tid) returns (next: PC)
      requires Signals(pc)
      modifies this
      ensures (next, View()) == Signal(self, pc, old(View()), pick)
    {
      next := pc;
      match pc
      case SLock =>
        var ok := TryLock(self);
        next := if ok then SSet else SLock;
      case SSet =>
        ready := true;
        next := SUnlock;
      case SUnlock =>
        Unlock();
        next := SNotify;
      case SNotify =>
        NotifyOne(pick);
        next := if self.Parent? then ALock else Head;
    }

    method AwaitStep(self: Tid, pc: PC, spurious: bool) returns (next: PC)
      requires Awaits(pc)
      modifies this
      ensures (next, View()) == Await(self, pc, old(View()), spurious)
    {
      next := pc;
      match pc
      case ALock =>
        var ok := TryLock(self);
        next := if ok then ATest else ALock;
      case ATest =>
        if ready {
          next := AClear;
        } else {
          waiters := waiters + {self};
          Unlock();
          next := ASleep;
        }
      case ASleep =>
        if self in waiters {
          if spurious {
            waiters := waiters - {self};
          }
        } else {
          var ok := TryLock(self);
          next := if ok then ATest else ASleep;
        }
      case AClear =>
        ready := false;
        next := AUnlock;
      case AUnlock =>
        Unlock();
        next := if self.Parent? then Head else SLock;
    }
  }

  class Machine {
    const k: Config
    const toChild: SharedFlag
    const toParent: SharedFlag
    var iter: nat
    var parent: Thread
    var child: Thread

    ghost predicate Separate()
      reads this
    {
      toChild != toParent
    }

    ghost function View(): World
      reads this, toChild, toParent
    {
      World(iter, parent, child, toChild.View(), toParent.View())
    }

    constructor (k: Config)
      ensures this.k == k && fresh(toChild) && fresh(toParent)
      ensures Separate() && View() == START
    {
      this.k := k;
      toChild := new SharedFlag();
      toParent := new SharedFlag();
      iter := 0;
      parent, child := Thread(Spawn, 0), Thread(Idle, 0);
    }

    method ParentMoves(e: Choice)
      requires Separate()
      modifies this, toChild, toParent
      ensures View() == ParentStep(k, old(View()), e)
    {
      if Signals(parent.pc) {
        var next := toChild.SignalStep(Parent, parent.pc, e.pick);
        parent := Thread(next, if next.Head? then parent.i + 1 else parent.i);
      } else if Awaits(parent.pc) {
        var next := toParent.AwaitStep(Parent, parent.pc, e.spurious);
        parent := Thread(next, if next.Head? then parent.i + 1 else parent.i);
      } else {
        match parent.pc
        case Spawn =>
          if iter < k.iterations {
            parent, child := Thread(Head, 0), Thread(Head, 0);
          } else {
            parent := parent.(pc := Over);
          }
        case Head =>
          parent := parent.(pc := if parent.i < k.loopSize then SLock else Join);
        case Join =>
          if child.pc.Exit? {
            parent := parent.(pc := ResetParent);
          }
        case ResetParent =>
          toChild.ready := false;
          parent := parent.(pc := ResetChild);
        case ResetChild =>
          toParent.ready := false;
          parent, child, iter := parent.(pc := Spawn), child.(pc := Idle), iter + 1;
        case _ =>
      }
    }

    method ChildMoves(e: Choice)
      requires Separate()
      modifies this, toChild, toParent
      ensures View() == ChildStep(k, old(View()), e)
    {
      if Signals(child.pc) {
        var next := toParent.SignalStep(Child, child.pc, e.pick);
        child := Thread(next, if next.Head? then child.i + 1 else child.i);
      } else if Awaits(child.pc) {
        var next := toChild.AwaitStep(Child, child.pc, e.spurious);
        child := Thread(next, if next.Head? then child.i + 1 else child.i);
      } else if child.pc.Head? {
        child := child.(pc := if child.i < k.loopSize then ALock else Exit);
      }
    }
  }

  lemma {:induction false} RunOn(k: Config, w: World, schedule: seq<Choice>, e: Choice)
    ensures Run(k, w, schedule + [e]) == Step(k, Run(k, w, schedule), e)
    decreases |schedule|
  {
    if schedule == [] {
      assert Run(k, w, [e]) == Run(k, Step(k, w, e), []);
    } else {
      RunOn(k, Step(k, w, schedule[0]), schedule[1..], e);
      assert (schedule + [e])[1..] == schedule[1..] + [e];
    }
  }

  /** Any schedule. Once everything is over, all flags, mutexes and wait sets are blank again. */
  method Execute(k: Config, schedule: seq<Choice>) returns (m: Machine)
    ensures fresh(m) && m.k == k && m.View() == Run(k, START, schedule)
    ensures m.parent.pc.Over? ==> m.toChild.View() == QUIET && m.toParent.View() == QUIET
  {
    m := new Machine(k);
    for x := 0 to |schedule|
      invariant fresh(m) && fresh(m.toChild) && fresh(m.toParent) && m.k == k && m.Separate()
      invariant m.View() == Run(k, START, schedule[..x])
    {
      var e := schedule[x];
      RunOn(k, START, schedule[..x], e);
      assert schedule[..x + 1] == schedule[..x] + [e];
      if e.who.Parent? {
        m.ParentMoves(e);
      } else {
        m.ChildMoves(e);
      }
    }
    assert schedule[..|schedule|] == schedule;
    if m.parent.pc.Over? {
      assert Reachable(k, m.View());
      ResetIsIdle(k, m.View());
    }
  }
}
