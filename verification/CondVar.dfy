/**
 The ping-pong of two threads over two condition variables: mutexes, wait sets, spurious wake-ups,
 and a notify issued after the mutex has been unlocked (section 33.7.4 of ISO C++23).
 */
module CondVar {
  import opened Basics

  datatype Tid = Parent | Child

  function Other(t: Tid): Tid { if t.Parent? then Child else Parent }

  datatype Config = Config(iterations: nat, loopSize: nat)

  /** A ready flag with its mutex and its condition variable. One thread only sets the flag, the
      other only clears it. */
  datatype Channel = Channel(ready: bool, owner: Option<Tid>, waiters: set<Tid>)

  datatype PC =
    | Idle | Spawn | Join | ResetParent | ResetChild | Over | Exit
    | Head
    | SLock | SSet | SUnlock | SNotify
    | ALock | ATest | ASleep | AClear | AUnlock

  datatype Thread = Thread(pc: PC, i: nat)

  /** `toChild` is parent_ready and what belongs to it, `toParent` is child_ready. */
  datatype World = World(iter: nat, parent: Thread, child: Thread, toChild: Channel, toParent: Channel)

  const QUIET := Channel(false, None, {})

  const START := World(0, Thread(Spawn, 0), Thread(Idle, 0), QUIET, QUIET)

  /** Who moves; whether a sleeper wakes by itself; whom a notify_one prefers. */
  datatype Choice = Choice(who: Tid, spurious: bool, pick: Tid)

  // ---------------------------------------------------------------- mutex and condition variable

  function NotifyOne(waiters: set<Tid>, pick: Tid): set<Tid> {
    if pick in waiters then waiters - {pick} else waiters - {Other(pick)}
  }

  /** The part of the loop body that signals: lock, set, unlock, notify. */
  function Signal(self: Tid, pc: PC, ch: Channel, pick: Tid): (PC, Channel)
    requires pc.SLock? || pc.SSet? || pc.SUnlock? || pc.SNotify?
  {
    match pc
    case SLock => if ch.owner.None? then (SSet, ch.(owner := Some(self))) else (pc, ch)
    case SSet => (SUnlock, ch.(ready := true))
    case SUnlock => (SNotify, ch.(owner := None))
    case SNotify => (if self.Parent? then ALock else Head, ch.(waiters := NotifyOne(ch.waiters, pick)))
  }

  /** The part that waits: lock, test, sleep and test again, clear, unlock. Going to sleep unlocks
      and enters the wait set in one step. */
  function Await(self: Tid, pc: PC, ch: Channel, spurious: bool): (PC, Channel)
    requires pc.ALock? || pc.ATest? || pc.ASleep? || pc.AClear? || pc.AUnlock?
  {
    match pc
    case ALock => if ch.owner.None? then (ATest, ch.(owner := Some(self))) else (pc, ch)
    case ATest =>
      if ch.ready then (AClear, ch) else (ASleep, ch.(owner := None, waiters := ch.waiters + {self}))
    case ASleep =>
      if self in ch.waiters then (pc, if spurious then ch.(waiters := ch.waiters - {self}) else ch)
      else if ch.owner.None? then (ATest, ch.(owner := Some(self)))
      else (pc, ch)
    case AClear => (AUnlock, ch.(ready := false))
    case AUnlock => (if self.Parent? then Head else SLock, ch.(owner := None))
  }

  predicate Signals(pc: PC) { pc.SLock? || pc.SSet? || pc.SUnlock? || pc.SNotify? }

  predicate Awaits(pc: PC) { pc.ALock? || pc.ATest? || pc.ASleep? || pc.AClear? || pc.AUnlock? }

  /** The loop counter goes up when the body ends. */
  function Move(th: Thread, pc: PC): Thread { Thread(pc, if pc.Head? then th.i + 1 else th.i) }

  // ---------------------------------------------------------------- the two threads

  function ParentStep(k: Config, w: World, e: Choice): World {
    var pc := w.parent.pc;
    if Signals(pc) then
      var (next, ch) := Signal(Parent, pc, w.toChild, e.pick);
      w.(parent := Move(w.parent, next), toChild := ch)
    else if Awaits(pc) then
      var (next, ch) := Await(Parent, pc, w.toParent, e.spurious);
      w.(parent := Move(w.parent, next), toParent := ch)
    else
      match pc
      case Spawn =>
        if w.iter < k.iterations then w.(parent := Thread(Head, 0), child := Thread(Head, 0))
        else w.(parent := w.parent.(pc := Over))
      case Head => w.(parent := w.parent.(pc := if w.parent.i < k.loopSize then SLock else Join))
      case Join => if w.child.pc.Exit? then w.(parent := w.parent.(pc := ResetParent)) else w
      case ResetParent => w.(parent := w.parent.(pc := ResetChild), toChild := w.toChild.(ready := false))
      case ResetChild =>
        w.(iter := w.iter + 1, parent := w.parent.(pc := Spawn), child := w.child.(pc := Idle),
           toParent := w.toParent.(ready := false))
      case _ => w
  }

  function ChildStep(k: Config, w: World, e: Choice): World {
    var pc := w.child.pc;
    if Signals(pc) then
      var (next, ch) := Signal(Child, pc, w.toParent, e.pick);
      w.(child := Move(w.child, next), toParent := ch)
    else if Awaits(pc) then
      var (next, ch) := Await(Child, pc, w.toChild, e.spurious);
      w.(child := Move(w.child, next), toChild := ch)
    else if pc.Head? then
      w.(child := w.child.(pc := if w.child.i < k.loopSize then ALock else Exit))
    else w
  }

  function Step(k: Config, w: World, e: Choice): World {
    if e.who.Parent? then ParentStep(k, w, e) else ChildStep(k, w, e)
  }

  function Run(k: Config, w: World, schedule: seq<Choice>): World
    decreases |schedule|
  {
    if schedule == [] then w else Run(k, Step(k, w, schedule[0]), schedule[1..])
  }

  // ---------------------------------------------------------------- the invariant

  /** How often a thread has set its own flag, and cleared the other one, in this iteration. */
  function Sent(t: Tid, th: Thread): nat {
    if th.pc.SUnlock? || th.pc.SNotify? || (t.Parent? && Awaits(th.pc)) then th.i + 1 else th.i
  }

  function Taken(t: Tid, th: Thread): nat {
    if th.pc.AUnlock? || (t.Child? && Signals(th.pc)) then th.i + 1 else th.i
  }

  predicate SignalHolds(pc: PC) { pc.SSet? || pc.SUnlock? }

  predicate AwaitHolds(pc: PC) { pc.ATest? || pc.AClear? || pc.AUnlock? }

  /** Never two holders of a mutex, and its owner is the one at a program point inside. */
  predicate MutexOk(sig: Tid, s: PC, a: PC, ch: Channel) {
    && !(SignalHolds(s) && AwaitHolds(a))
    && ch.owner == (if SignalHolds(s) then Some(sig) else if AwaitHolds(a) then Some(Other(sig)) else None)
  }

  /** The flag is true exactly while a signal has not been consumed, and there is never a second one. */
  predicate FlagOk(sent: nat, taken: nat, ch: Channel) {
    && taken <= sent <= taken + 1
    && (ch.ready <==> sent == taken + 1)
  }

  /** Nobody else sleeps here; a sleeper whose flag is up has its notify still coming. */
  predicate WaitersOk(sig: Tid, s: PC, a: PC, ch: Channel) {
    && ch.waiters <= {Other(sig)}
    && (Other(sig) in ch.waiters ==> a.ASleep?)
    && (Other(sig) in ch.waiters && ch.ready ==> s.SUnlock? || s.SNotify?)
    && (a.AClear? ==> ch.ready)
  }

  predicate ThreadsOk(k: Config, w: World) {
    && !w.parent.pc.Idle? && !w.parent.pc.Exit?
    && (Signals(w.parent.pc) || Awaits(w.parent.pc) ==> w.parent.i < k.loopSize)
    && (Signals(w.child.pc) || Awaits(w.child.pc) ==> w.child.i < k.loopSize)
    && (w.parent.pc.Head? ==> w.parent.i <= k.loopSize)
    && (w.child.pc.Head? ==> w.child.i <= k.loopSize)
    && (w.parent.pc.Join? || w.parent.pc.ResetParent? || w.parent.pc.ResetChild? ==> w.parent.i == k.loopSize)
    && (w.child.pc.Exit? ==> w.child.i == k.loopSize)
    && (w.child.pc.Idle? <==> w.parent.pc.Spawn? || w.parent.pc.Over?)
    && (w.child.pc.Idle? ==> w.child.i == w.parent.i)
    && (w.parent.pc.ResetParent? || w.parent.pc.ResetChild? ==> w.child.pc.Exit?)
    && (w.child.pc.Idle? || w.child.pc.Exit? || w.child.pc.Head? || Signals(w.child.pc) || Awaits(w.child.pc))
    && (w.parent.pc.Over? ==> w.iter == k.iterations)
    && (w.parent.pc.Spawn? ==> w.iter <= k.iterations)
    && (!w.parent.pc.Spawn? && !w.parent.pc.Over? ==> w.iter < k.iterations)
  }

  predicate FlagsOk(w: World) {
    && FlagOk(Sent(Parent, w.parent), Taken(Child, w.child), w.toChild)
    && FlagOk(Sent(Child, w.child), Taken(Parent, w.parent), w.toParent)
  }

  predicate MutexesOk(w: World) {
    && MutexOk(Parent, w.parent.pc, w.child.pc, w.toChild)
    && MutexOk(Child, w.child.pc, w.parent.pc, w.toParent)
  }

  predicate SleepersOk(w: World) {
    && WaitersOk(Parent, w.parent.pc, w.child.pc, w.toChild)
    && WaitersOk(Child, w.child.pc, w.parent.pc, w.toParent)
  }

  predicate Inv(k: Config, w: World) {
    ThreadsOk(k, w) && FlagsOk(w) && MutexesOk(w) && SleepersOk(w)
  }

  // ---------------------------------------------------------------- every step keeps it

  lemma ThreadsKept(k: Config, w: World, e: Choice)
    requires ThreadsOk(k, w) && FlagsOk(w)
    ensures ThreadsOk(k, Step(k, w, e))
  {
    if e.who.Parent? {
      ParentInRange(k, w, e);
    } else {
      ChildInRange(k, w, e);
    }
  }

  lemma ParentInRange(k: Config, w: World, e: Choice)
    requires ThreadsOk(k, w) && FlagsOk(w)
    ensures ThreadsOk(k, ParentStep(k, w, e))
  {
  }

  lemma ChildInRange(k: Config, w: World, e: Choice)
    requires ThreadsOk(k, w) && FlagsOk(w)
    ensures ThreadsOk(k, ChildStep(k, w, e))
  {
  }

  lemma FlagsKept(k: Config, w: World, e: Choice)
    requires ThreadsOk(k, w) && FlagsOk(w) && SleepersOk(w)
    ensures FlagsOk(Step(k, w, e))
  {
    if e.who.Parent? {
      ParentKeepsFlags(k, w, e);
    } else {
      ChildKeepsFlags(k, w, e);
    }
  }

  lemma ParentKeepsFlags(k: Config, w: World, e: Choice)
    requires ThreadsOk(k, w) && FlagsOk(w) && SleepersOk(w)
    ensures FlagsOk(ParentStep(k, w, e))
  {
  }

  lemma ChildKeepsFlags(k: Config, w: World, e: Choice)
    requires ThreadsOk(k, w) && FlagsOk(w) && SleepersOk(w)
    ensures FlagsOk(ChildStep(k, w, e))
  {
  }

  lemma MutexesKept(k: Config, w: World, e: Choice)
    requires ThreadsOk(k, w) && MutexesOk(w)
    ensures MutexesOk(Step(k, w, e))
  {
    if e.who.Parent? {
      ParentKeepsMutexes(k, w, e);
    } else {
      ChildKeepsMutexes(k, w, e);
    }
  }

  lemma ParentKeepsMutexes(k: Config, w: World, e: Choice)
    requires ThreadsOk(k, w) && MutexesOk(w)
    ensures MutexesOk(ParentStep(k, w, e))
  {
  }

  lemma ChildKeepsMutexes(k: Config, w: World, e: Choice)
    requires ThreadsOk(k, w) && MutexesOk(w)
    ensures MutexesOk(ChildStep(k, w, e))
  {
  }

  lemma SleepersKept(k: Config, w: World, e: Choice)
    requires Inv(k, w)
    ensures SleepersOk(Step(k, w, e))
  {
  }

  lemma StepInv(k: Config, w: World, e: Choice)
    requires Inv(k, w)
    ensures Inv(k, Step(k, w, e))
  {
    ThreadsKept(k, w, e);
    FlagsKept(k, w, e);
    MutexesKept(k, w, e);
    SleepersKept(k, w, e);
  }

  lemma {:induction false} RunInv(k: Config, w: World, schedule: seq<Choice>)
    requires Inv(k, w)
    ensures Inv(k, Run(k, w, schedule))
    decreases |schedule|
  {
    if schedule != [] {
      StepInv(k, w, schedule[0]);
      RunInv(k, Step(k, w, schedule[0]), schedule[1..]);
    }
  }
}
