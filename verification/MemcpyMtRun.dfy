/** The copying threads under any scheduler. */
module MemcpyMtRun {
  import opened Basics
  import opened MemcpyMt

  datatype MainPC = Fill | Create(next: nat) | JoinThread(next: nat) | Check | Done

  /** `copied[t]` is how far thread t has come; `checked` is history: what VerifyDataReceived got. */
  datatype World = World(main: MainPC, iter: nat, copied: seq<nat>, dst: seq<Byte>, checked: seq<seq<Byte>>)

  datatype Choice = Main | Copy(thread: nat)

  function Start(k: Config): World {
    World(Fill, 0, seq(k.threads, _ => 0), seq(|k.src|, _ => 0), [])
  }

  function From(k: Config, t: nat): nat
    requires Valid(k)
  {
    ChunkStart(|k.src|, k.threads, t)
  }

  function Length(k: Config, t: nat): nat
    requires Valid(k)
  {
    var from, end := ChunkStart(|k.src|, k.threads, t), ChunkEnd(|k.src|, k.threads, t);
    if from <= end then end - from else 0
  }

  predicate Created(main: MainPC, t: nat) {
    main.JoinThread? || main.Check? || (main.Create? && t < main.next)
  }

  predicate Finished(k: Config, w: World, t: nat)
    requires Valid(k)
  {
    t < |w.copied| && w.copied[t] >= Length(k, t)
  }

  function MainStep(k: Config, w: World): World
    requires Valid(k)
  {
    match w.main
    case Fill =>
      if w.iter < k.warmups + k.iterations then
        w.(main := Create(0), copied := seq(k.threads, _ => 0), dst := seq(|k.src|, _ => 0))
      else w.(main := Done)
    case Create(t) => w.(main := if t < k.threads then Create(t + 1) else JoinThread(0))
    case JoinThread(t) =>
      if t >= k.threads then w.(main := Check)
      else if Finished(k, w, t) then w.(main := JoinThread(t + 1))
      else w
    case Check =>
      w.(main := Fill, iter := w.iter + 1,
         checked := if k.warmups <= w.iter then w.checked + [w.dst] else w.checked)
    case Done => w
  }

  /** One byte of thread t's memcpy. */
  function CopyStep(k: Config, w: World, t: nat): World
    requires Valid(k)
  {
    if t < |w.copied| && Created(w.main, t) && !Finished(k, w, t) then
      var p := From(k, t) + w.copied[t];
      if p < |w.dst| && p < |k.src| then
        w.(copied := w.copied[t := w.copied[t] + 1], dst := w.dst[p := k.src[p]])
      else w
    else w
  }

  function Step(k: Config, w: World, e: Choice): World
    requires Valid(k)
  {
    match e
    case Main => MainStep(k, w)
    case Copy(t) => CopyStep(k, w, t)
  }

  function Run(k: Config, w: World, schedule: seq<Choice>): World
    requires Valid(k)
    decreases |schedule|
  {
    if schedule == [] then w else Run(k, Step(k, w, schedule[0]), schedule[1..])
  }

  // ---------------------------------------------------------------- what is in dst

  /** Byte p while its thread has copied `copied[owner]` bytes. */
  function Expected(k: Config, copied: seq<nat>, p: nat): Byte
    requires Valid(k) && |copied| == k.threads && p < |k.src|
  {
    var t := Owner(|k.src|, k.threads, p);
    if p < From(k, t) + copied[t] then k.src[p] else 0
  }

  ghost predicate DstOk(k: Config, copied: seq<nat>, dst: seq<Byte>)
    requires Valid(k)
  {
    && |copied| == k.threads && |dst| == |k.src|
    && (forall t :: 0 <= t < k.threads ==> copied[t] <= Length(k, t))
    && (forall p :: 0 <= p < |k.src| ==> dst[p] == Expected(k, copied, p))
  }

  ghost predicate MainOk(k: Config, w: World)
    requires Valid(k) && |w.copied| == k.threads
  {
    match w.main
    case Create(n) => n <= k.threads && forall t :: n <= t < k.threads ==> w.copied[t] == 0
    case JoinThread(n) => n <= k.threads && forall t :: 0 <= t < n ==> w.copied[t] == Length(k, t)
    case Check => forall t :: 0 <= t < k.threads ==> w.copied[t] == Length(k, t)
    case _ => true
  }

  /** Everything checked so far was the source, in every measured iteration. */
  ghost predicate ChecksOk(k: Config, w: World) {
    && |w.checked| == (if w.iter <= k.warmups then 0 else w.iter - k.warmups)
    && forall x :: 0 <= x < |w.checked| ==> w.checked[x] == k.src
  }

  ghost predicate Inv(k: Config, w: World)
    requires Valid(k)
  {
    && |w.copied| == k.threads
    && |w.dst| == |k.src|
    && (!w.main.Fill? && !w.main.Done? ==> DstOk(k, w.copied, w.dst))
    && MainOk(k, w)
    && ChecksOk(k, w)
    && w.iter <= k.warmups + k.iterations
    && (w.main.Done? ==> w.iter == k.warmups + k.iterations)
    && (!w.main.Fill? && !w.main.Done? ==> w.iter < k.warmups + k.iterations)
  }

  /** A byte copied changes dst where it should and nowhere else. */
  lemma CopyKeepsDst(k: Config, copied: seq<nat>, dst: seq<Byte>, t: nat)
    requires Valid(k) && DstOk(k, copied, dst) && t < k.threads && copied[t] < Length(k, t)
    ensures From(k, t) + copied[t] < |k.src|
    ensures DstOk(k, copied[t := copied[t] + 1],
      dst[From(k, t) + copied[t] := k.src[From(k, t) + copied[t]]])
  {
    ChunkInside(|k.src|, k.threads, t);
    var at := From(k, t) + copied[t];
    assert InChunk(|k.src|, k.threads, t, at);
    OnlyOwnerCopies(|k.src|, k.threads, t, at);
  }

  lemma BlankDst(k: Config)
    requires Valid(k)
    ensures DstOk(k, seq(k.threads, _ => 0), seq(|k.src|, _ => 0))
  {
    var blank := seq(k.threads, _ => 0);
    forall p | 0 <= p < |k.src|
      ensures Expected(k, blank, p) == 0
    {
      OwnerCopies(|k.src|, k.threads, p);
    }
  }

  /** Once every thread is through, dst is the source. */
  lemma AllCopied(k: Config, copied: seq<nat>, dst: seq<Byte>)
    requires Valid(k) && DstOk(k, copied, dst)
    requires forall t :: 0 <= t < k.threads ==> copied[t] == Length(k, t)
    ensures dst == k.src
  {
    forall p | 0 <= p < |k.src|
      ensures dst[p] == k.src[p]
    {
      OwnerCopies(|k.src|, k.threads, p);
      assert dst[p] == Expected(k, copied, p);
    }
  }

  lemma MainInv(k: Config, w: World)
    requires Valid(k) && Inv(k, w)
    ensures Inv(k, MainStep(k, w))
  {
    match w.main
    case Fill => BlankDst(k);
    case Check => AllCopied(k, w.copied, w.dst);
    case _ =>
  }

  lemma CopyInv(k: Config, w: World, t: nat)
    requires Valid(k) && Inv(k, w)
    ensures Inv(k, CopyStep(k, w, t))
  {
    if t < |w.copied| && Created(w.main, t) && !Finished(k, w, t) {
      CopyKeepsDst(k, w.copied, w.dst, t);
    }
  }

  lemma StepInv(k: Config, w: World, e: Choice)
    requires Valid(k) && Inv(k, w)
    ensures Inv(k, Step(k, w, e))
  {
    match e
    case Main => MainInv(k, w);
    case Copy(t) => CopyInv(k, w, t);
  }

  lemma {:induction false} RunInv(k: Config, w: World, schedule: seq<Choice>)
    requires Valid(k) && Inv(k, w)
    ensures Inv(k, Run(k, w, schedule))
    decreases |schedule|
  {
    if schedule != [] {
      StepInv(k, w, schedule[0]);
      RunInv(k, Step(k, w, schedule[0]), schedule[1..]);
    }
  }

  /** Under every interleaving, whenever the joins are over dst equals src; every measured iteration
      checks exactly that. */
  lemma CopyIsExact(k: Config, schedule: seq<Choice>)
    requires Valid(k)
    ensures var w := Run(k, Start(k), schedule);
      && (w.main.Check? ==> w.dst == k.src)
      && (forall x :: 0 <= x < |w.checked| ==> w.checked[x] == k.src)
      && (w.main.Done? ==> |w.checked| == k.iterations)
  {
    RunInv(k, Start(k), schedule);
    var w := Run(k, Start(k), schedule);
    if w.main.Check? {
      AllCopied(k, w.copied, w.dst);
    }
  }

  /** Every iteration starts by zeroing dst, and the run is over after warmups + iterations of them, of
      which the measured ones have been checked. */
  lemma IterationsAre(k: Config, schedule: seq<Choice>)
    requires Valid(k)
    ensures var w := Run(k, Start(k), schedule);
      && w.iter <= k.warmups + k.iterations
      && (w.main.Done? ==> w.iter == k.warmups + k.iterations)
      && |w.checked| == (if w.iter <= k.warmups then 0 else w.iter - k.warmups)
      && (w.main.Create? && w.main.next == 0 ==>
            |w.dst| == |k.src| && forall p :: 0 <= p < |w.dst| ==> w.dst[p] == 0)
  {
    RunInv(k, Start(k), schedule);
    var w := Run(k, Start(k), schedule);
    if w.main.Create? && w.main.next == 0 {
      forall p | 0 <= p < |k.src|
        ensures Expected(k, w.copied, p) == 0
      {
        OwnerCopies(|k.src|, k.threads, p);
      }
    }
  }

  // ---------------------------------------------------------------- no races

  /** Byte p has been copied. */
  predicate IsCopied(k: Config, copied: seq<nat>, p: nat)
    requires Valid(k) && |copied| == k.threads
  {
    var t := Owner(|k.src|, k.threads, p);
    p < From(k, t) + copied[t]
  }

  /** A copy changes the state of the byte that is copied, and of no other. */
  lemma CopiesOne(k: Config, copied: seq<nat>, t: nat)
    requires Valid(k) && |copied| == k.threads && t < k.threads && copied[t] < Length(k, t)
    ensures var at := From(k, t) + copied[t]; var after := copied[t := copied[t] + 1];
      && at < |k.src| && !IsCopied(k, copied, at) && IsCopied(k, after, at)
      && forall p: nat :: p != at ==> IsCopied(k, after, p) == IsCopied(k, copied, p)
  {
    ChunkInside(|k.src|, k.threads, t);
    assert InChunk(|k.src|, k.threads, t, From(k, t) + copied[t]);
    OnlyOwnerCopies(|k.src|, k.threads, t, From(k, t) + copied[t]);
  }

  /** The byte thread t touches next. */
  predicate Touches(k: Config, w: World, t: nat, p: nat)
    requires Valid(k)
  {
    && t < |w.copied| && Created(w.main, t) && !Finished(k, w, t)
    && p == From(k, t) + w.copied[t]
  }

  /** The bytes of dst that threads have stored to since the last fill, in order. */
  function StoredNext(k: Config, w: World, e: Choice, stored: seq<nat>): seq<nat>
    requires Valid(k)
  {
    match e
    case Main => if w.main.Fill? then [] else stored
    case Copy(t) =>
      if t < |w.copied| && Touches(k, w, t, From(k, t) + w.copied[t]) then stored + [From(k, t) + w.copied[t]]
      else stored
  }

  function Stored(k: Config, w: World, schedule: seq<Choice>, stored: seq<nat>): seq<nat>
    requires Valid(k)
    decreases |schedule|
  {
    if schedule == [] then stored
    else Stored(k, Step(k, w, schedule[0]), schedule[1..], StoredNext(k, w, schedule[0], stored))
  }

  /** The log has every copied byte once, and no other. */
  ghost predicate LogOk(k: Config, w: World, stored: seq<nat>)
    requires Valid(k) && |w.copied| == k.threads
  {
    !w.main.Fill? && !w.main.Done? ==>
      && (forall p: nat :: p < |k.src| ==> (p in stored <==> IsCopied(k, w.copied, p)))
      && (forall x :: 0 <= x < |stored| ==> stored[x] < |k.src|)
      && (forall x, y :: 0 <= x < y < |stored| ==> stored[x] != stored[y])
  }

  lemma LogNext(k: Config, w: World, e: Choice, stored: seq<nat>)
    requires Valid(k) && Inv(k, w) && LogOk(k, w, stored)
    ensures |Step(k, w, e).copied| == k.threads
    ensures LogOk(k, Step(k, w, e), StoredNext(k, w, e, stored))
  {
    match e
    case Main =>
      if w.main.Fill? {
        NothingCopied(k, seq(k.threads, _ => 0));
      }
    case Copy(t) =>
      if t < |w.copied| && Created(w.main, t) && !Finished(k, w, t) {
        CopiesOne(k, w.copied, t);
      }
  }

  lemma NothingCopied(k: Config, blank: seq<nat>)
    requires Valid(k) && blank == seq(k.threads, _ => 0)
    ensures forall p: nat :: p < |k.src| ==> !IsCopied(k, blank, p)
  {
    forall p: nat | p < |k.src|
      ensures !IsCopied(k, blank, p)
    {
      OwnerCopies(|k.src|, k.threads, p);
    }
  }

  lemma {:induction false} LogRun(k: Config, w: World, schedule: seq<Choice>, stored: seq<nat>)
    requires Valid(k) && Inv(k, w) && LogOk(k, w, stored)
    ensures |Run(k, w, schedule).copied| == k.threads
    ensures LogOk(k, Run(k, w, schedule), Stored(k, w, schedule, stored))
    decreases |schedule|
  {
    if schedule != [] {
      LogNext(k, w, schedule[0], stored);
      StepInv(k, w, schedule[0]);
      LogRun(k, Step(k, w, schedule[0]), schedule[1..], StoredNext(k, w, schedule[0], stored));
    }
  }

  lemma OnlyInOneChunk(size: nat, threads: nat, t: nat, p: nat)
    requires threads >= 1 && InChunk(size, threads, t, p)
    ensures forall s :: InChunk(size, threads, s, p) <==> s == t
  {
    forall s | InChunk(size, threads, s, p)
      ensures s == t
    {
      OnlyOwnerCopies(size, threads, s, p);
      OnlyOwnerCopies(size, threads, t, p);
    }
  }

  lemma TouchesOwn(k: Config, w: World, t: nat, p: nat)
    requires Valid(k) && Inv(k, w) && Touches(k, w, t, p)
    ensures p < |w.dst| == |k.src| && InChunk(|k.src|, k.threads, t, p) && !IsCopied(k, w.copied, p)
  {
    ChunkInside(|k.src|, k.threads, t);
    assert InChunk(|k.src|, k.threads, t, p);
    CopiesOne(k, w.copied, t);
  }

  /** What a thread is about to copy lies inside both vectors and in no other thread's chunk, no
      earlier copy of this iteration stored to it, and the main thread leaves dst alone meanwhile. */
  lemma NoRace(k: Config, w: World, schedule: seq<Choice>, t: nat, p: nat)
    requires Valid(k) && w == Run(k, Start(k), schedule) && Touches(k, w, t, p)
    ensures p < |w.dst| == |k.src|
    ensures p !in Stored(k, Start(k), schedule, [])
    ensures forall s :: InChunk(|k.src|, k.threads, s, p) <==> s == t
    ensures MainStep(k, w).dst == w.dst
  {
    RunInv(k, Start(k), schedule);
    LogRun(k, Start(k), schedule, []);
    TouchesOwn(k, w, t, p);
    OnlyInOneChunk(|k.src|, k.threads, t, p);
  }

  /** When the joins are over every byte has been stored to, and none of them twice. */
  lemma StoredOnce(k: Config, schedule: seq<Choice>)
    requires Valid(k) && Run(k, Start(k), schedule).main.Check?
    ensures var stored := Stored(k, Start(k), schedule, []);
      && (forall p: nat :: p in stored <==> p < |k.src|)
      && (forall x, y :: 0 <= x < y < |stored| ==> stored[x] != stored[y])
  {
    RunInv(k, Start(k), schedule);
    LogRun(k, Start(k), schedule, []);
    var w := Run(k, Start(k), schedule);
    forall p: nat | p < |k.src|
      ensures IsCopied(k, w.copied, p)
    {
      OwnerCopies(|k.src|, k.threads, p);
    }
  }

  // ---------------------------------------------------------------- it ends

  function Phase(main: MainPC): nat {
    match main
    case Fill => 3
    case Create(_) => 2
    case JoinThread(_) => 1
    case Check => 0
    case Done => 0
  }

  function ToGo(k: Config, main: MainPC): nat {
    match main
    case Create(t) => if t <= k.threads then k.threads - t + 1 else 0
    case JoinThread(t) => if t <= k.threads then k.threads - t + 1 else 0
    case Done => 0
    case _ => 1
  }

  /** What the thread that the main thread is joining has yet to copy. */
  function Awaited(k: Config, w: World): nat
    requires Valid(k)
  {
    if w.main.JoinThread? && w.main.next < |w.copied| && w.copied[w.main.next] <= Length(k, w.main.next)
    then Length(k, w.main.next) - w.copied[w.main.next] else 0
  }

  /** The main thread, unless it is stuck joining: then the thread it waits for. */
  function Useful(k: Config, w: World): Choice
    requires Valid(k)
  {
    match w.main
    case JoinThread(t) => if t >= k.threads || Finished(k, w, t) then Main else Copy(t)
    case _ => Main
  }

  /** No reachable state is stuck: the useful choices lead to the end. */
  lemma {:induction false} CanFinish(k: Config, w: World) returns (schedule: seq<Choice>)
    requires Valid(k) && Inv(k, w)
    ensures Run(k, w, schedule).main.Done?
    decreases k.warmups + k.iterations - w.iter, Phase(w.main), ToGo(k, w.main), Awaited(k, w)
  {
    if w.main.Done? {
      schedule := [];
    } else {
      var e := Useful(k, w);
      UsefulMoves(k, w);
      var rest := CanFinish(k, Step(k, w, e));
      schedule := [e] + rest;
      assert schedule[1..] == rest;
    }
  }

  lemma UsefulMoves(k: Config, w: World)
    requires Valid(k) && Inv(k, w) && !w.main.Done?
    ensures Inv(k, Step(k, w, Useful(k, w)))
    ensures var v := Step(k, w, Useful(k, w));
      || v.iter > w.iter
      || (v.iter == w.iter && Phase(v.main) < Phase(w.main))
      || (v.iter == w.iter && Phase(v.main) == Phase(w.main) && ToGo(k, v.main) < ToGo(k, w.main))
      || (v.iter == w.iter && v.main == w.main && Awaited(k, v) < Awaited(k, w))
  {
    match Useful(k, w)
    case Main => MainInv(k, w);
    case Copy(t) =>
      CopyInv(k, w, t);
      CopyKeepsDst(k, w.copied, w.dst, t);
  }

  // ---------------------------------------------------------------- and soon

  /** How many of the first n bytes are still to be copied. */
  function Pending(k: Config, copied: seq<nat>, n: nat): (pending: nat)
    requires Valid(k) && |copied| == k.threads
    ensures pending <= n
  {
    if n == 0 then 0 else Pending(k, copied, n - 1) + if IsCopied(k, copied, n - 1) then 0 else 1
  }

  function PerIteration(k: Config): nat { |k.src| + 2 * k.threads + 5 }

  function MainLeft(k: Config, main: MainPC): nat {
    match main
    case Fill => 0
    case Create(t) => if t <= k.threads then 2 * k.threads - t + 4 else 0
    case JoinThread(t) => if t <= k.threads then k.threads - t + 3 else 0
    case Check => 2
    case Done => 0
  }

  /** The steps that are still to come. */
  function Left(k: Config, w: World): nat
    requires Valid(k) && |w.copied| == k.threads
  {
    var total := k.warmups + k.iterations;
    match w.main
    case Done => 0
    case Fill => if w.iter <= total then 1 + Product(total - w.iter, PerIteration(k)) else 0
    case _ =>
      (if w.iter < total then 1 + Product(total - w.iter - 1, PerIteration(k)) else 0)
      + MainLeft(k, w.main) + Pending(k, w.copied, |k.src|)
  }

  lemma {:induction false} PendingDrops(k: Config, copied: seq<nat>, t: nat, n: nat)
    requires Valid(k) && |copied| == k.threads && t < k.threads && copied[t] < Length(k, t)
    ensures Pending(k, copied[t := copied[t] + 1], n) + (if From(k, t) + copied[t] < n then 1 else 0) == Pending(k, copied, n)
  {
    if n > 0 {
      PendingDrops(k, copied, t, n - 1);
      CopiesOne(k, copied, t);
    }
  }

  lemma {:induction false} NothingPending(k: Config, copied: seq<nat>, n: nat)
    requires Valid(k) && |copied| == k.threads && forall t :: 0 <= t < k.threads ==> copied[t] == Length(k, t)
    requires n <= |k.src|
    ensures Pending(k, copied, n) == 0
  {
    if n > 0 {
      NothingPending(k, copied, n - 1);
      OwnerCopies(|k.src|, k.threads, n - 1);
    }
  }

  lemma StepLowers(k: Config, w: World, e: Choice)
    requires Valid(k) && Inv(k, w)
    ensures |Step(k, w, e).copied| == k.threads
    ensures Step(k, w, e) == w || Left(k, Step(k, w, e)) < Left(k, w)
  {
    match e
    case Main => MainLowers(k, w);
    case Copy(t) =>
      if t < |w.copied| && Created(w.main, t) && !Finished(k, w, t) {
        CopiesOne(k, w.copied, t);
        PendingDrops(k, w.copied, t, |k.src|);
      }
  }

  lemma MainLowers(k: Config, w: World)
    requires Valid(k) && Inv(k, w)
    ensures MainStep(k, w) == w || Left(k, MainStep(k, w)) < Left(k, w)
  {
    if w.main.Check? {
      NothingPending(k, w.copied, |k.src|);
    }
  }

  /** How many steps of a run do something. */
  function Busy(k: Config, w: World, schedule: seq<Choice>): nat
    requires Valid(k)
    decreases |schedule|
  {
    if schedule == [] then 0
    else (if Step(k, w, schedule[0]) == w then 0 else 1) + Busy(k, Step(k, w, schedule[0]), schedule[1..])
  }

  lemma {:induction false} BusyBound(k: Config, w: World, schedule: seq<Choice>)
    requires Valid(k) && Inv(k, w)
    ensures Busy(k, w, schedule) <= Left(k, w)
    decreases |schedule|
  {
    if schedule != [] {
      var e := schedule[0];
      StepLowers(k, w, e);
      StepInv(k, w, e);
      BusyBound(k, Step(k, w, e), schedule[1..]);
    }
  }

  /** Any run does at most iterations * (data_size + 2 * n_threads + 5) + 1 steps, waiting apart. */
  lemma RunIsBounded(k: Config, schedule: seq<Choice>)
    requires Valid(k)
    ensures Busy(k, Start(k), schedule) <= (k.warmups + k.iterations) * (|k.src| + 2 * k.threads + 5) + 1
  {
    BusyBound(k, Start(k), schedule);
    ProductIs(k.warmups + k.iterations, PerIteration(k));
  }

  // ---------------------------------------------------------------- who can move

  /** The main thread waits only for a thread that has bytes left to copy, and a thread stands still only
      before it is created and after its last byte. */
  lemma BlockedIff(k: Config, w: World, e: Choice)
    requires Valid(k) && Inv(k, w)
    ensures Step(k, w, e) == w <==>
      match e
      case Main =>
        w.main.Done? || (w.main.JoinThread? && w.main.next < k.threads && w.copied[w.main.next] < Length(k, w.main.next))
      case Copy(t) =>
        || t >= k.threads || w.copied[t] >= Length(k, t)
        || w.main.Fill? || w.main.Done? || (w.main.Create? && w.main.next <= t)
  {
    if e.Copy? && e.thread < k.threads && Created(w.main, e.thread) && !Finished(k, w, e.thread) {
      CopyKeepsDst(k, w.copied, w.dst, e.thread);
    }
  }
}
