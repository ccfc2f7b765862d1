/**
 The two flags that a parent and a child thread flip in turn: under sequential consistency, and with
 relaxed stores and acquire loads.

 A relaxed store synchronises with nothing, so all that is left is coherence (section 6.9.2.2 of
 ISO C++23): a load may return any value of the flag's modification order that is not older than
 the last one the thread has read, or than what happened before the thread was started or joined.
 */
module FlagHandshake {
  datatype Config = Config(iterations: nat, loopSize: nat)

  // ---------------------------------------------------------------- control, shared by both models

  datatype ParentPC = PSpawn | PStoreTrue | PAwaitTrue | PStoreFalse | PAwaitFalse | PJoin | PEnd

  datatype ChildPC = CNone | CAwaitTrue | CStoreTrue | CAwaitFalse | CStoreFalse | CExit

  /** `i` and `j` are the loop counters of ParentFlip and ChildFlip. */
  datatype Threads = Threads(iter: nat, p: ParentPC, i: nat, c: ChildPC, j: nat)

  datatype Op = Load | Store(value: bool) | Quiet

  function ParentOp(k: Config, t: Threads): Op {
    match t.p
    case PStoreTrue => if t.i < k.loopSize then Store(true) else Quiet
    case PAwaitTrue => Load
    case PStoreFalse => Store(false)
    case PAwaitFalse => Load
    case _ => Quiet
  }

  /** The parent moves on, having loaded `value` if it loads. */
  function ParentNext(k: Config, t: Threads, value: bool): Threads {
    match t.p
    case PSpawn =>
      if t.iter < k.iterations then t.(p := PStoreTrue, i := 0, c := CAwaitTrue, j := 0) else t.(p := PEnd)
    case PStoreTrue => if t.i < k.loopSize then t.(p := PAwaitTrue) else t.(p := PJoin)
    case PAwaitTrue => if value then t.(p := PStoreFalse) else t
    case PStoreFalse => t.(p := PAwaitFalse)
    case PAwaitFalse => if value then t else t.(p := PStoreTrue, i := t.i + 1)
    case PJoin => if t.c.CExit? then t.(p := PSpawn, c := CNone, iter := t.iter + 1) else t
    case PEnd => t
  }

  function ChildOp(k: Config, t: Threads): Op {
    match t.c
    case CAwaitTrue => if t.j < k.loopSize then Load else Quiet
    case CStoreTrue => Store(true)
    case CAwaitFalse => Load
    case CStoreFalse => Store(false)
    case _ => Quiet
  }

  function ChildNext(k: Config, t: Threads, value: bool): Threads {
    match t.c
    case CNone => t
    case CAwaitTrue =>
      if t.j >= k.loopSize then t.(c := CExit) else if value then t.(c := CStoreTrue) else t
    case CStoreTrue => t.(c := CAwaitFalse)
    case CAwaitFalse => if value then t else t.(c := CStoreFalse)
    case CStoreFalse => t.(c := CAwaitTrue, j := t.j + 1)
    case CExit => t
  }

  const START := Threads(0, PSpawn, 0, CNone, 0)

  // ---------------------------------------------------------------- sequential consistency

  datatype Strong = Strong(t: Threads, parent: bool, child: bool)

  const STRONG_START := Strong(START, false, false)

  function StrongStep(k: Config, s: Strong, parentMoves: bool): Strong {
    if parentMoves then
      var op := ParentOp(k, s.t);
      Strong(ParentNext(k, s.t, s.child), if op.Store? then op.value else s.parent, s.child)
    else
      var op := ChildOp(k, s.t);
      Strong(ChildNext(k, s.t, s.parent), s.parent, if op.Store? then op.value else s.child)
  }

  function StrongRun(k: Config, s: Strong, schedule: seq<bool>): Strong
    decreases |schedule|
  {
    if schedule == [] then s else StrongRun(k, StrongStep(k, s, schedule[0]), schedule[1..])
  }

  // ---------------------------------------------------------------- relaxed stores, acquire loads

  /** The modification orders of the two flags, and how much of each the other thread has seen. */
  datatype Weak = Weak(t: Threads, parent: seq<bool>, child: seq<bool>, seenParent: nat, seenChild: nat)

  const WEAK_START := Weak(START, [false], [false], 0, 0)

  /** The scheduler's choice: who moves, and how far beyond what it has seen a load looks. */
  datatype Choice = Choice(parentMoves: bool, ahead: nat)

  function Newest(history: seq<bool>): nat {
    if |history| == 0 then 0 else |history| - 1
  }

  function LoadAt(history: seq<bool>, seen: nat, ahead: nat): nat {
    if seen + ahead < |history| then seen + ahead else Newest(history)
  }

  function Value(history: seq<bool>, at: nat): bool {
    if at < |history| then history[at] else false
  }

  function WeakStep(k: Config, w: Weak, e: Choice): Weak {
    if e.parentMoves then
      var op := ParentOp(k, w.t);
      var at := LoadAt(w.child, w.seenChild, e.ahead);
      var t := ParentNext(k, w.t, Value(w.child, at));
      match op
      case Load => w.(t := t, seenChild := at)
      case Store(v) => w.(t := t, parent := w.parent + [v])
      case Quiet =>
        // starting a thread shows it everything so far; so does joining it
        w.(t := t,
           seenParent := if w.t.p.PSpawn? && t.p.PStoreTrue? then Newest(w.parent) else w.seenParent,
           seenChild := if w.t.p.PJoin? && t.p.PSpawn? then Newest(w.child) else w.seenChild)
    else
      var op := ChildOp(k, w.t);
      var at := LoadAt(w.parent, w.seenParent, e.ahead);
      var t := ChildNext(k, w.t, Value(w.parent, at));
      match op
      case Load => w.(t := t, seenParent := at)
      case Store(v) => w.(t := t, child := w.child + [v])
      case Quiet => w.(t := t)
  }

  function WeakRun(k: Config, w: Weak, schedule: seq<Choice>): Weak
    decreases |schedule|
  {
    if schedule == [] then w else WeakRun(k, WeakStep(k, w, schedule[0]), schedule[1..])
  }

  // ---------------------------------------------------------------- lockstep

  /** The k-th value of a flag is true exactly for odd k. */
  predicate Alternates(history: seq<bool>) {
    |history| > 0 && forall x :: 0 <= x < |history| ==> (history[x] <==> x % 2 == 1)
  }

  /** Stores made before iteration t. */
  function Stores(k: Config, t: nat): nat {
    if t == 0 then 0 else Stores(k, t - 1) + 2 * k.loopSize
  }

  predicate ParentOk(k: Config, t: Threads, stores: nat, seen: nat) {
    match t.p
    case PSpawn => t.iter <= k.iterations && stores == Stores(k, t.iter) && seen == stores
    case PStoreTrue => t.i <= k.loopSize && stores == Stores(k, t.iter) + 2 * t.i && seen == stores
    case PAwaitTrue => t.i < k.loopSize && stores == Stores(k, t.iter) + 2 * t.i + 1 && seen + 1 == stores
    case PStoreFalse => t.i < k.loopSize && stores == Stores(k, t.iter) + 2 * t.i + 1 && seen == stores
    case PAwaitFalse => t.i < k.loopSize && stores == Stores(k, t.iter) + 2 * t.i + 2 && seen + 1 == stores
    case PJoin => stores == Stores(k, t.iter) + 2 * k.loopSize && seen == stores
    case PEnd => t.iter == k.iterations && stores == Stores(k, t.iter) && seen == stores
  }

  predicate ChildOk(k: Config, t: Threads, stores: nat, seen: nat) {
    match t.c
    case CNone => stores == Stores(k, t.iter) && seen == stores
    case CAwaitTrue => t.j <= k.loopSize && stores == Stores(k, t.iter) + 2 * t.j && seen == stores
    case CStoreTrue => t.j < k.loopSize && stores == Stores(k, t.iter) + 2 * t.j && seen == stores + 1
    case CAwaitFalse => t.j < k.loopSize && stores == Stores(k, t.iter) + 2 * t.j + 1 && seen == stores
    case CStoreFalse => t.j < k.loopSize && stores == Stores(k, t.iter) + 2 * t.j + 1 && seen == stores + 1
    case CExit => stores == Stores(k, t.iter) + 2 * k.loopSize && seen == stores
  }

  predicate WeakOk(k: Config, w: Weak) {
    && Alternates(w.parent) && Alternates(w.child)
    && w.seenParent < |w.parent| && w.seenChild < |w.child|
    && |w.child| <= |w.parent| <= |w.child| + 1
    && ParentOk(k, w.t, |w.parent| - 1, w.seenChild)
    && ChildOk(k, w.t, |w.child| - 1, w.seenParent)
    && (w.t.c.CNone? <==> w.t.p.PSpawn? || w.t.p.PEnd?)
    && (!(w.t.p.PSpawn? || w.t.p.PEnd?) ==> w.t.iter < k.iterations)
  }

  lemma {:induction false} StoresEven(k: Config, t: nat)
    ensures Stores(k, t) % 2 == 0
  {
    if t > 0 {
      StoresEven(k, t - 1);
    }
  }

  /** A load returns a value that has not been superseded in the thread's view, and the parity of its
      place in the modification order. */
  lemma LoadRange(history: seq<bool>, seen: nat, ahead: nat)
    requires Alternates(history) && seen < |history|
    ensures seen <= LoadAt(history, seen, ahead) < |history|
    ensures Value(history, LoadAt(history, seen, ahead)) <==> LoadAt(history, seen, ahead) % 2 == 1
  {
  }

  lemma StoreAlternates(history: seq<bool>, value: bool)
    requires Alternates(history) && value == (|history| % 2 == 1)
    ensures Alternates(history + [value])
  {
  }

  /** What the parent does to its own part of the invariant. */
  lemma ParentKeeps(k: Config, t: Threads, stores: nat, seen: nat, at: nat)
    requires ParentOk(k, t, stores, seen) && Stores(k, t.iter) % 2 == 0
    requires ParentOp(k, t).Load? && seen <= at <= stores
    ensures ParentOk(k, ParentNext(k, t, at % 2 == 1), stores, at)
  {
  }

  lemma ParentLoadOk(k: Config, w: Weak, ahead: nat)
    requires WeakOk(k, w) && Stores(k, w.t.iter) % 2 == 0 && ParentOp(k, w.t).Load?
    ensures WeakOk(k, WeakStep(k, w, Choice(true, ahead)))
  {
    LoadRange(w.child, w.seenChild, ahead);
    ParentKeeps(k, w.t, |w.parent| - 1, w.seenChild, LoadAt(w.child, w.seenChild, ahead));
  }

  lemma ParentStoreOk(k: Config, w: Weak, ahead: nat)
    requires WeakOk(k, w) && Stores(k, w.t.iter) % 2 == 0 && ParentOp(k, w.t).Store?
    ensures WeakOk(k, WeakStep(k, w, Choice(true, ahead)))
  {
    StoreAlternates(w.parent, ParentOp(k, w.t).value);
  }

  lemma ParentQuietOk(k: Config, w: Weak, ahead: nat)
    requires WeakOk(k, w) && Stores(k, w.t.iter) % 2 == 0 && ParentOp(k, w.t).Quiet?
    ensures WeakOk(k, WeakStep(k, w, Choice(true, ahead)))
  {
  }

  lemma ChildKeeps(k: Config, t: Threads, stores: nat, seen: nat, at: nat)
    requires ChildOk(k, t, stores, seen) && Stores(k, t.iter) % 2 == 0
    requires ChildOp(k, t).Load? && seen <= at <= stores + 1
    ensures ChildOk(k, ChildNext(k, t, at % 2 == 1), stores, at)
  {
  }

  lemma ChildLoadOk(k: Config, w: Weak, ahead: nat)
    requires WeakOk(k, w) && Stores(k, w.t.iter) % 2 == 0 && ChildOp(k, w.t).Load?
    ensures WeakOk(k, WeakStep(k, w, Choice(false, ahead)))
  {
    LoadRange(w.parent, w.seenParent, ahead);
    ChildKeeps(k, w.t, |w.child| - 1, w.seenParent, LoadAt(w.parent, w.seenParent, ahead));
  }

  lemma ChildStoreOk(k: Config, w: Weak, ahead: nat)
    requires WeakOk(k, w) && Stores(k, w.t.iter) % 2 == 0 && ChildOp(k, w.t).Store?
    ensures WeakOk(k, WeakStep(k, w, Choice(false, ahead)))
  {
    StoreAlternates(w.child, ChildOp(k, w.t).value);
  }

  lemma ChildQuietOk(k: Config, w: Weak, ahead: nat)
    requires WeakOk(k, w) && Stores(k, w.t.iter) % 2 == 0 && ChildOp(k, w.t).Quiet?
    ensures WeakOk(k, WeakStep(k, w, Choice(false, ahead)))
  {
  }

  lemma WeakStepOk(k: Config, w: Weak, e: Choice)
    requires WeakOk(k, w)
    ensures WeakOk(k, WeakStep(k, w, e))
  {
    StoresEven(k, w.t.iter);
    if e.parentMoves {
      match ParentOp(k, w.t)
      case Load => ParentLoadOk(k, w, e.ahead);
      case Store(_) => ParentStoreOk(k, w, e.ahead);
      case Quiet => ParentQuietOk(k, w, e.ahead);
    } else {
      match ChildOp(k, w.t)
      case Load => ChildLoadOk(k, w, e.ahead);
      case Store(_) => ChildStoreOk(k, w, e.ahead);
      case Quiet => ChildQuietOk(k, w, e.ahead);
    }
  }

  lemma {:induction false} WeakRunOk(k: Config, w: Weak, schedule: seq<Choice>)
    requires WeakOk(k, w)
    ensures WeakOk(k, WeakRun(k, w, schedule))
    decreases |schedule|
  {
    if schedule != [] {
      WeakStepOk(k, w, schedule[0]);
      WeakRunOk(k, WeakStep(k, w, schedule[0]), schedule[1..]);
    }
  }
}
