/**
 The barrier as it runs: kernel objects, names and users are updated in place, one step method per
 program point. Every method is proved against the step function of module Barrier.
 */
module BarrierMachine {
  import opened Basics
  import opened Barrier
  import opened BarrierClient
  import opened BarrierInvariant
  import opened BarrierProgress

  class Machine {
    const users: array<User>
    var sems: seq<nat>
    var shms: seq<ShmData>
    var semName: Option<nat>
    var shmName: Option<nat>
    var phase: nat
    var semUnlinks: seq<nat>
    var shmUnlinks: seq<nat>

    ghost function View(): World
      reads this, users
    {
      World(users[..], sems, shms, semName, shmName, phase, semUnlinks, shmUnlinks)
    }

    /** The handles of a user that has opened and mapped are good. */
    ghost predicate HandlesOk(p: nat)
      reads this, users
    {
      && p < users.Length
      && (!users[p].pc.Start? ==> users[p].sem < |sems|)
      && (Mapped(users[p].pc) ==> users[p].shm < |shms|)
    }

    constructor (n: nat)
      ensures View() == Init(n)
      ensures fresh(users) && users.Length == n
    {
      users := new User[n](_ => User(Start, 0, 0, true, 0));
      sems, shms := [], [];
      semName, shmName := None, None;
      phase := 0;
      semUnlinks, shmUnlinks := [], [];
    }

    method OpenSemaphore(p: nat)
      requires p < users.Length
      modifies this, users
      ensures View() == SemOpen(old(View()), p)
    {
      if semName.None? {
        semName := Some(|sems|);
        sems := sems + [1];
      }
      users[p] := users[p].(pc := Want(Attach), sem := semName.value);
    }

    method Acquire(p: nat, s: Section)
      requires HandlesOk(p) && users[p].pc == Want(s)
      modifies this, users
      ensures View() == SemWait(old(View()), p, s)
    {
      var id := users[p].sem;
      if sems[id] > 0 {
        sems := sems[id := sems[id] - 1];
        users[p] := users[p].(pc := In(s));
      }
    }

    method Post(p: nat, s: Section, flag: bool)
      requires HandlesOk(p) && users[p].pc == PC.Post(s, flag)
      modifies this, users
      ensures View() == SemPost(old(View()), p, After(s, flag))
    {
      var id := users[p].sem;
      sems := sems[id := sems[id] + 1];
      users[p] := users[p].(pc := After(s, flag));
    }

    method MapSharedMemory(p: nat)
      requires p < users.Length
      modifies this, users
      ensures View() == ShmOpen(old(View()), p)
    {
      if shmName.None? {
        shmName := Some(|shms|);
        shms := shms + [ShmData(0, false, 0)];
      }
      users[p] := users[p].(pc := PC.Post(Attach, false), shm := shmName.value);
    }

    method CountMeIn(p: nat)
      requires HandlesOk(p) && users[p].pc == In(Join)
      modifies this, users
      ensures View() == AddUser(old(View()), p)
    {
      var id := users[p].shm;
      shms := shms[id := shms[id].(nUsers := Inc64(shms[id].nUsers))];
      users[p] := users[p].(pc := PC.Post(Join, false));
    }

    method Look(p: nat, s: Section)
      requires HandlesOk(p) && users[p].pc == In(s) && (s.Poll? || s.Spin?)
      modifies users
      ensures View() == Body(old(View()), p, s)
    {
      var d := shms[users[p].shm];
      var flag := if s.Poll? then d.nUsers >= users.Length else d.sharedSense != users[p].sense;
      users[p] := users[p].(pc := PC.Post(s, flag));
    }

    method Enter(p: nat)
      requires HandlesOk(p) && users[p].pc == In(Section.Enter)
      modifies this, users
      ensures View() == Arrive(old(View()), p)
    {
      var lastUser := false;
      var id := users[p].shm;
      shms := shms[id := shms[id].(count := Inc64(shms[id].count))];
      if shms[id].count == users.Length {
        lastUser := true;
        shms := shms[id := shms[id].(sharedSense := !shms[id].sharedSense)];
        shms := shms[id := shms[id].(count := 0)];
        phase := phase + 1;
      }
      users[p] := users[p].(pc := PC.Post(Section.Enter, lastUser));
    }

    method CountMeOut(p: nat)
      requires HandlesOk(p) && users[p].pc == In(Depart)
      modifies this, users
      ensures View() == RemoveUser(old(View()), p)
    {
      var id := users[p].shm;
      var remainingUsers := shms[id].nUsers;
      shms := shms[id := shms[id].(nUsers := Dec64(shms[id].nUsers))];
      users[p] := users[p].(pc := PC.Post(Depart, remainingUsers == 1));
    }

    method FlipSense(p: nat)
      requires p < users.Length && users[p].pc == Turn
      modifies users
      ensures View() == Barrier.Step(old(View()), p)
    {
      var u := users[p];
      users[p] := u.(pc := Ready, sense := !u.sense, round := u.round + 1);
    }

    method Unlink(p: nat)
      requires p < users.Length && (users[p].pc == UnlinkSem || users[p].pc == UnlinkShm)
      modifies this, users
      ensures View() == Barrier.Step(old(View()), p)
    {
      if users[p].pc == UnlinkSem {
        semName := None;
        semUnlinks := semUnlinks + [p];
        users[p] := users[p].(pc := UnlinkShm);
      } else {
        shmName := None;
        shmUnlinks := shmUnlinks + [p];
        users[p] := users[p].(pc := Gone);
      }
    }

    method RunBody(p: nat, s: Section)
      requires HandlesOk(p) && users[p].pc == In(s)
      modifies this, users
      ensures View() == Body(old(View()), p, s)
    {
      match s
      case Attach => MapSharedMemory(p);
      case Join => CountMeIn(p);
      case Poll => Look(p, s);
      case Enter => Enter(p);
      case Spin => Look(p, s);
      case Depart => CountMeOut(p);
    }

    /** The scheduler picks user p. */
    method Step(p: nat)
      requires HandlesOk(p)
      modifies this, users
      ensures View() == Barrier.Step(old(View()), p)
    {
      match users[p].pc
      case Start => OpenSemaphore(p);
      case Want(s) => Acquire(p, s);
      case In(s) => RunBody(p, s);
      case Post(s, flag) => Post(p, s, flag);
      case Turn => FlipSense(p);
      case UnlinkSem => Unlink(p);
      case UnlinkShm => Unlink(p);
      case Ready =>
      case Gone =>
    }

    /** A user that is between two calls makes the next one. */
    method Perform(p: nat, call: Call)
      requires p < users.Length && users[p].pc == Ready
      modifies users
      ensures View() == BarrierClient.Perform(old(View()), p, call)
    {
      match call
      case Stay =>
      case DoWait => users[p] := users[p].(pc := Want(Section.Enter));
      case DoLeave => users[p] := users[p].(pc := Want(Depart));
    }
  }

  lemma HandlesFromInv(w: World, p: nat)
    requires Inv(w) && p < |w.users|
    ensures !w.users[p].pc.Start? ==> w.users[p].sem < |w.sems|
    ensures Mapped(w.users[p].pc) ==> w.users[p].shm < |w.shms|
  {
    assert UserOk(w.users[p], |w.sems|, |w.shms|, w.phase, AllJoined(w.users));
  }

  lemma RunOneMore(w: World, rounds: nat, schedule: seq<nat>, k: nat)
    requires k < |schedule|
    ensures ProgRun(w, rounds, schedule[..k + 1]) == ProgStep(ProgRun(w, rounds, schedule[..k]), rounds, schedule[k])
  {
    LastStep(w, rounds, schedule[..k + 1]);
    assert schedule[..k + 1][..k] == schedule[..k];
  }

  /** Any schedule of n users that wait `rounds` times each. */
  method Execute(n: nat, rounds: nat, schedule: seq<nat>) returns (m: Machine)
    requires 1 <= n <= MAX_INT
    ensures fresh(m) && fresh(m.users)
    ensures m.View() == ProgRun(Init(n), rounds, schedule) && Inv(m.View())
  {
    m := new Machine(n);
    InitInv(n);
    for k := 0 to |schedule|
      invariant fresh(m) && fresh(m.users)
      invariant Inv(m.View()) && m.View() == ProgRun(Init(n), rounds, schedule[..k])
    {
      var p := schedule[k];
      RunOneMore(Init(n), rounds, schedule, k);
      ProgInv(m.View(), rounds, p);
      if p < m.users.Length {
        HandlesFromInv(m.View(), p);
        if m.users[p].pc == Ready {
          var call := if m.users[p].round < rounds then DoWait else DoLeave;
          PerformIsProgram(m.View(), rounds, p, call);
          m.Perform(p, call);
        } else {
          m.Step(p);
        }
      }
    }
    assert schedule[..|schedule|] == schedule;
  }
}
