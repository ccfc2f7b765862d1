/**
 From the first constructor to the last destructor: joins come before leaves, one user cleans up,
 and everybody can always reach the end exactly when the users wait at least once.
 */
module BarrierLifecycle {
  import opened Basics
  import opened Barrier
  import opened BarrierInvariant
  import opened BarrierMoves
  import opened BarrierProgress

  // ---------------------------------------------------------------- safety of the life cycle

  /** When somebody has left, everybody has joined, and all hold the same semaphore and data. */
  lemma JoinsBeforeLeaves(n: nat, events: seq<Event>, p: nat, q: nat)
    requires 1 <= n <= MAX_INT && p < n && q < n
    ensures var w := Run(Init(n), events);
      && |w.users| == n
      && (Left(w.users[p].pc) ==>
            && Joined(w.users[q].pc)
            && w.users[q].sem == w.users[p].sem && w.users[q].shm == w.users[p].shm)
  {
    RunInv(n, events);
    var w := Run(Init(n), events);
    CountRange(Joiner, w.users);
    assert UserOk(w.users[p], |w.sems|, |w.shms|, w.phase, AllJoined(w.users));
    assert UserOk(w.users[q], |w.sems|, |w.shms|, w.phase, AllJoined(w.users));
  }

  /** The value of the semaphore and the users inside a critical section add up to one. */
  lemma MutualExclusion(n: nat, events: seq<Event>)
    requires 1 <= n <= MAX_INT
    ensures var w := Run(Init(n), events);
      if exists p :: 0 <= p < |w.users| && !w.users[p].pc.Start?
      then |w.sems| == 1 && w.sems[0] + |set p: nat | p < |w.users| && Critical(w.users[p].pc)| == 1
      else w.sems == []
  {
    RunInv(n, events);
    var w := Run(Init(n), events);
    assert Who(Holding, w.users) == set p: nat | p < |w.users| && Critical(w.users[p].pc);
    if |w.sems| == 1 && forall p :: 0 <= p < |w.users| ==> w.users[p].pc.Start? {
      NobodyOpened(n, events);
    }
    assert forall p :: 0 <= p < |w.users| ==>
      UserOk(w.users[p], |w.sems|, |w.shms|, w.phase, AllJoined(w.users));
  }

  /** The semaphore does not exist before somebody opens it. */
  lemma {:induction false} NobodyOpened(n: nat, events: seq<Event>)
    requires 1 <= n <= MAX_INT
    requires forall p :: 0 <= p < |Run(Init(n), events).users| ==> Run(Init(n), events).users[p].pc.Start?
    ensures Run(Init(n), events).sems == []
  {
    if events != [] {
      var before := events[..|events| - 1];
      var e := events[|events| - 1];
      var w := Run(Init(n), before);
      StepMoves(w, e.pid);
      CallMoves(w, e.pid);
      var w' := Apply(w, e);
      assert w' == Run(Init(n), events);
      assert e.pid < |w'.users| ==> w'.users[e.pid].pc.Start?;
      NobodyOpened(n, before);
    }
  }

  /** Who unlinks: nobody before everybody has left, then one user, both names. */
  predicate UnlinkerOk(w: World) {
    && (forall i :: 0 <= i < |w.users| && w.users[i].pc.UnlinkShm? ==> w.semUnlinks == [i])
    && (w.shmUnlinks != [] ==> w.shmUnlinks == w.semUnlinks)
  }

  lemma UnlinkerStep(w: World, e: Event)
    requires NamesOk(w) && UnlinkerOk(w)
    ensures UnlinkerOk(Apply(w, e))
  {
    var p := e.pid;
    StepMoves(w, p);
    CallMoves(w, p);
    UnlinksChange(w, e);
    if p < |w.users| && w.users[p].pc.UnlinkSem? {
      CountPositive(ClosingSem, w.users, p);
    } else if p < |w.users| && w.users[p].pc.UnlinkShm? {
      CountPositive(ClosingShm, w.users, p);
    }
  }

  lemma UnlinksChange(w: World, e: Event)
    ensures var p := e.pid; var w' := Apply(w, e);
      && w'.semUnlinks == w.semUnlinks +
           (if e.Tick? && p < |w.users| && w.users[p].pc.UnlinkSem? then [p] else [])
      && w'.shmUnlinks == w.shmUnlinks +
           (if e.Tick? && p < |w.users| && w.users[p].pc.UnlinkShm? then [p] else [])
  {
  }

  lemma {:induction false} UnlinkersRun(n: nat, events: seq<Event>)
    requires 1 <= n <= MAX_INT
    ensures UnlinkerOk(Run(Init(n), events))
  {
    if events != [] {
      var before := events[..|events| - 1];
      UnlinkersRun(n, before);
      RunInv(n, before);
      UnlinkerStep(Run(Init(n), before), events[|events| - 1]);
    }
  }

  /** Each name is unlinked at most once, and only after every user has left. */
  predicate UnlinkedOnce(w: World) {
    && |w.semUnlinks| <= 1 && |w.shmUnlinks| <= 1
    && (w.semUnlinks != [] || w.shmUnlinks != [] ==> forall q :: 0 <= q < |w.users| ==> Left(w.users[q].pc))
  }

  lemma UnlinksOnce(w: World)
    requires NamesOk(w)
    ensures UnlinkedOnce(w)
  {
    CountRange(Leaver, w.users);
  }

  /** At most one user unlinks, both names, after all have left. */
  lemma OneUnlinker(n: nat, events: seq<Event>)
    requires 1 <= n <= MAX_INT
    ensures UnlinkerOk(Run(Init(n), events)) && UnlinkedOnce(Run(Init(n), events))
  {
    UnlinkersRun(n, events);
    RunInv(n, events);
    UnlinksOnce(Run(Init(n), events));
  }

  /** The users that have taken themselves out of n_users_, in the order in which they did. */
  function Leavers(w: World, events: seq<Event>): seq<nat> {
    if events == [] then []
    else
      var e := events[|events| - 1];
      var before := events[..|events| - 1];
      Leavers(w, before) + if Leaves(Run(w, before), e) then [e.pid] else []
  }

  /** The event is the decrement of n_users_. */
  predicate Leaves(w: World, e: Event) {
    e.Tick? && e.pid < |w.users| && w.users[e.pid].pc == In(Depart)
  }

  /** On its way to unlink. */
  predicate Closing(pc: PC) { pc == Post(Depart, true) || pc.UnlinkSem? || pc.UnlinkShm? }

  /** All who have left are on the list, and who unlinks is last on it. */
  predicate LeaversOk(w: World, leavers: seq<nat>) {
    && |leavers| == Count(Leaver, w.users)
    && (forall i :: 0 <= i < |w.users| && Closing(w.users[i].pc) ==> leavers != [] && leavers[|leavers| - 1] == i)
    && (w.semUnlinks != [] ==> leavers != [] && w.semUnlinks == [leavers[|leavers| - 1]])
  }

  /** While somebody has not left, nobody is on its way to unlink. */
  lemma NobodyCloses(w: World, p: nat)
    requires Inv(w) && p < |w.users| && !Left(w.users[p].pc)
    ensures w.semUnlinks == [] && forall i :: 0 <= i < |w.users| ==> !Closing(w.users[i].pc)
  {
    CountRange(Leaver, w.users);
    CountRange(ClosingShm, w.users);
    assert !Is(Leaver, w.users[p]);
    assert forall i :: 0 <= i < |w.users| ==> !Is(ClosingShm, w.users[i]);
  }

  /** The one that is about to unlink the first name is the first to unlink anything. */
  lemma OneUnlink(w: World, p: nat)
    requires NamesOk(w) && p < |w.users| && w.users[p].pc.UnlinkSem?
    ensures w.semUnlinks == []
  {
    CountPositive(ClosingSem, w.users, p);
  }

  lemma LeaversStep(w: World, e: Event, leavers: seq<nat>)
    requires Inv(w) && LeaversOk(w, leavers)
    ensures LeaversOk(Apply(w, e), leavers + if Leaves(w, e) then [e.pid] else [])
  {
    EventMoves(w, e);
    if Leaves(w, e) {
      NobodyCloses(w, e.pid);
    } else if e.pid < |w.users| && w.users[e.pid].pc.UnlinkSem? {
      OneUnlink(w, e.pid);
    }
    LeaversAfter(w, e, Apply(w, e), leavers);
  }

  lemma LeaversAfter(w: World, e: Event, w': World, leavers: seq<nat>)
    requires LeaversOk(w, leavers) && (w' == w || MovesIn(w, e.pid, w'))
    requires w'.semUnlinks == w.semUnlinks
      || (e.pid < |w.users| && w.users[e.pid].pc.UnlinkSem? && w'.semUnlinks == w.semUnlinks + [e.pid])
    requires e.pid < |w.users| && w.users[e.pid].pc.UnlinkSem? ==> w.semUnlinks == []
    requires Leaves(w, e) ==> w' != w && w.semUnlinks == [] && forall i :: 0 <= i < |w.users| ==> !Closing(w.users[i].pc)
    requires w' != w && w.users[e.pid].pc == In(Depart) ==> Leaves(w, e)
    ensures LeaversOk(w', leavers + if Leaves(w, e) then [e.pid] else [])
  {
    if w' != w {
      if Leaves(w, e) {
        LeaverAdded(w, e.pid, w', leavers);
      } else {
        LeaversKept(w, e, w', leavers);
      }
    } else {
      assert leavers + [] == leavers;
    }
  }

  /** What an event does to its user and to the list of unlinkers. */
  lemma EventMoves(w: World, e: Event)
    ensures Apply(w, e) == w || MovesIn(w, e.pid, Apply(w, e))
    ensures Apply(w, e).semUnlinks == w.semUnlinks
      || (e.pid < |w.users| && w.users[e.pid].pc.UnlinkSem? && Apply(w, e).semUnlinks == w.semUnlinks + [e.pid])
  {
    StepMoves(w, e.pid);
    CallMoves(w, e.pid);
    UnlinksChange(w, e);
  }

  lemma LeaverAdded(w: World, p: nat, w': World, leavers: seq<nat>)
    requires MovesIn(w, p, w') && w.users[p].pc == In(Depart) && |leavers| == Count(Leaver, w.users)
    requires w'.semUnlinks == [] && forall i :: 0 <= i < |w.users| ==> !Closing(w.users[i].pc)
    ensures LeaversOk(w', leavers + [p])
  {
    CountUpdate(Leaver, w.users, p, w'.users[p]);
  }

  lemma LeaversKept(w: World, e: Event, w': World, leavers: seq<nat>)
    requires MovesIn(w, e.pid, w') && LeaversOk(w, leavers) && w.users[e.pid].pc != In(Depart)
    requires w'.semUnlinks == w.semUnlinks || (w.users[e.pid].pc.UnlinkSem? && w.semUnlinks == [] && w'.semUnlinks == [e.pid])
    ensures LeaversOk(w', leavers)
  {
    CountUpdate(Leaver, w.users, e.pid, w'.users[e.pid]);
  }

  lemma {:induction false} LeaversRun(n: nat, events: seq<Event>)
    requires 1 <= n <= MAX_INT
    ensures LeaversOk(Run(Init(n), events), Leavers(Init(n), events))
  {
    if events == [] {
      CountRange(Leaver, Init(n).users);
    } else {
      var before := events[..|events| - 1];
      RunInv(n, before);
      LeaversRun(n, before);
      LeaversStep(Run(Init(n), before), events[|events| - 1], Leavers(Init(n), before));
    }
  }

  /** Whoever unlinks is the last of all users on the list. */
  predicate LastUnlinks(w: World, leavers: seq<nat>) {
    w.semUnlinks != [] || w.shmUnlinks != [] ==>
      && |leavers| == |w.users| > 0
      && w.semUnlinks == [leavers[|leavers| - 1]]
      && (w.shmUnlinks != [] ==> w.shmUnlinks == w.semUnlinks)
  }

  /** Whoever unlinks is the user whose decrement of n_users_ came last of all n. */
  lemma LastToLeaveUnlinks(n: nat, events: seq<Event>)
    requires 1 <= n <= MAX_INT
    ensures LastUnlinks(Run(Init(n), events), Leavers(Init(n), events))
  {
    LeaversRun(n, events);
    OneUnlinker(n, events);
    UnlinkerIsLast(Run(Init(n), events), Leavers(Init(n), events));
  }

  lemma UnlinkerIsLast(w: World, leavers: seq<nat>)
    requires LeaversOk(w, leavers) && UnlinkerOk(w) && UnlinkedOnce(w)
    ensures LastUnlinks(w, leavers)
  {
    CountRange(Leaver, w.users);
    if w.shmUnlinks != [] {
      assert w.shmUnlinks == w.semUnlinks;
    }
  }

  // ---------------------------------------------------------------- the end

  /** What the program of user p does, as an event. */
  function AsEvent(w: World, rounds: nat, p: nat): Event {
    if p < |w.users| && w.users[p].pc.Ready? then
      if w.users[p].round < rounds then BeginWait(p) else BeginLeave(p)
    else Tick(p)
  }

  lemma ProgStepIsEvent(w: World, rounds: nat, p: nat)
    ensures ProgStep(w, rounds, p) == Apply(w, AsEvent(w, rounds, p))
  {
  }

  lemma OneEventMore(w: World, events: seq<Event>, e: Event)
    ensures Run(w, events + [e]) == Apply(Run(w, events), e)
  {
    assert (events + [e])[..|events|] == events;
  }

  /** A program run is a run. */
  lemma {:induction false} ProgramIsRun(n: nat, rounds: nat, schedule: seq<nat>) returns (events: seq<Event>)
    ensures ProgRun(Init(n), rounds, schedule) == Run(Init(n), events)
    decreases |schedule|
  {
    if schedule == [] {
      return [];
    }
    var k := |schedule| - 1;
    var before := ProgramIsRun(n, rounds, schedule[..k]);
    LastStep(Init(n), rounds, schedule);
    var e := AsEvent(Run(Init(n), before), rounds, schedule[k]);
    ProgStepIsEvent(Run(Init(n), before), rounds, schedule[k]);
    OneEventMore(Init(n), before, e);
    events := before + [e];
  }

  lemma InitGood(n: nat, rounds: nat)
    requires 1 <= n <= MAX_INT
    ensures Inv(Init(n)) && PlanOk(Init(n), rounds)
  {
    InitInv(n);
  }

  /** When all are gone, each has waited `rounds` times, one user has unlinked both names once, and
      the names are free again. */
  lemma CleanEnd(n: nat, rounds: nat, schedule: seq<nat>)
    requires 1 <= n <= MAX_INT && Finished(ProgRun(Init(n), rounds, schedule))
    ensures var w := ProgRun(Init(n), rounds, schedule);
      && (forall p :: 0 <= p < |w.users| ==> w.users[p].round == rounds)
      && w.semName == None && w.shmName == None
      && |w.semUnlinks| == 1 && w.shmUnlinks == w.semUnlinks
  {
    var w := ProgRun(Init(n), rounds, schedule);
    var events := ProgramIsRun(n, rounds, schedule);
    RunInv(n, events);
    OneUnlinker(n, events);
    PlanRun(n, rounds, schedule);
    assert forall p :: 0 <= p < |w.users| ==> OnPlan(w.users[p], rounds);
    AllGoneNames(w);
  }

  lemma AllGoneNames(w: World)
    requires NamesOk(w) && Finished(w)
    ensures w.semName == None && w.shmName == None
    ensures |w.semUnlinks| == 1 && |w.shmUnlinks| == 1
  {
    CountRange(Leaver, w.users);
    CountRange(ClosingSem, w.users);
    CountRange(ClosingShm, w.users);
  }

  lemma {:induction false} PlanRun(n: nat, rounds: nat, schedule: seq<nat>)
    ensures PlanOk(ProgRun(Init(n), rounds, schedule), rounds)
    decreases |schedule|
  {
    if schedule != [] {
      var k := |schedule| - 1;
      PlanRun(n, rounds, schedule[..k]);
      LastStep(Init(n), rounds, schedule);
      PlanStep(ProgRun(Init(n), rounds, schedule[..k]), rounds, schedule[k]);
    }
  }

  function ClearResource(w: World): World { w.(semName := None, shmName := None) }

  /** New users start under the same names; the objects of the finished lifetime are closed. */
  function Relaunch(w: World, n: nat): World {
    Init(n).(semName := w.semName, shmName := w.shmName)
  }

  /** ClearResource after a finished lifetime finds nothing to clear, and the next one starts as if
      the names had never been used. */
  lemma NextLifetime(n: nat, rounds: nat, schedule: seq<nat>, m: nat)
    requires 1 <= n <= MAX_INT && Finished(ProgRun(Init(n), rounds, schedule))
    ensures var w := ProgRun(Init(n), rounds, schedule);
      ClearResource(w) == w && Relaunch(w, m) == Init(m)
  {
    CleanEnd(n, rounds, schedule);
  }

  // ---------------------------------------------------------------- no user is stranded

  /** Whatever has happened, everybody can still be brought to the end. */
  ghost predicate CanAlwaysFinish(n: nat, rounds: nat) {
    forall schedule :: CanFinish(ProgRun(Init(n), rounds, schedule), rounds)
  }

  ghost predicate CanFinish(w: World, rounds: nat) {
    exists rest :: Finished(ProgRun(w, rounds, rest))
  }

  lemma WaitersFinish(n: nat, rounds: nat)
    requires 1 <= n <= MAX_INT && (rounds > 0 || n == 1)
    ensures CanAlwaysFinish(n, rounds)
  {
    forall schedule ensures CanFinish(ProgRun(Init(n), rounds, schedule), rounds) {
      InitGood(n, rounds);
      GoodRun(Init(n), rounds, schedule);
      var rest := Finish(ProgRun(Init(n), rounds, schedule), rounds);
    }
  }

  // ---------------------------------------------------------------- with no Wait, one can be

  /** User k runs alone: it holds the semaphore or nobody does. */
  predicate Clear(w: World, k: nat) {
    k < |w.users| && (Free(w) || Critical(w.users[k].pc))
  }

  lemma SoloStep(w: World, rounds: nat, k: nat)
    requires Inv(w) && Clear(w, k) && !w.users[k].pc.Gone?
    ensures var w' := ProgStep(w, rounds, k); Inv(w') && MovesIn(w, k, w') && Clear(w', k)
  {
    ProgInv(w, rounds, k);
    if Critical(w.users[k].pc) {
      HolderMoves(w, rounds, k);
    } else {
      FreeMoves(w, rounds, k);
      ProgMoves(w, rounds, k);
      CountUpdate(Holding, w.users, k, ProgStep(w, rounds, k).users[k]);
    }
  }

  predicate BeforePoll(pc: PC) { Early(pc) && !(InSection(pc) && pc.section.Poll?) }

  lemma WayIn(u: User, v: User, flag: bool)
    requires BeforePoll(u.pc) && Moves(u, v, flag)
    ensures BeforePoll(v.pc) || v.pc == Want(Poll)
    ensures Rank(v.pc, false) < Rank(u.pc, false)
  {
  }

  /** One move of user k on its way in. */
  lemma WalkOn(w: World, rounds: nat, k: nat)
    requires Inv(w) && Clear(w, k) && BeforePoll(w.users[k].pc)
    ensures var w' := ProgStep(w, rounds, k);
      && Inv(w') && Clear(w', k) && MovesIn(w, k, w')
      && (BeforePoll(w'.users[k].pc) || (w'.users[k].pc == Want(Poll) && Free(w')))
      && Rank(w'.users[k].pc, false) < Rank(w.users[k].pc, false)
  {
    var u, w1 := w.users[k], ProgStep(w, rounds, k);
    SoloStep(w, rounds, k);
    WayIn(u, w1.users[k], if u.pc.In? then Flag(w, k, u.pc.section) else false);
  }

  lemma {:induction false} WalkToPoll(w: World, rounds: nat, k: nat) returns (schedule: seq<nat>)
    requires Inv(w) && Clear(w, k) && BeforePoll(w.users[k].pc)
    ensures var w' := ProgRun(w, rounds, schedule);
      && Inv(w') && Free(w') && |w'.users| == |w.users|
      && w'.users == w.users[k := w'.users[k]] && w'.users[k].pc == Want(Poll)
    decreases Rank(w.users[k].pc, false)
  {
    var w1 := ProgStep(w, rounds, k);
    WalkOn(w, rounds, k);
    var rest := [];
    if BeforePoll(w1.users[k].pc) {
      rest := WalkToPoll(w1, rounds, k);
    }
    schedule := [k] + rest;
    assert schedule[1..] == rest;
  }

  /** The first k users are about to poll, the others have not started. */
  predicate LinedUp(w: World, k: nat) {
    && Inv(w) && Free(w)
    && forall i :: 0 <= i < |w.users| ==> w.users[i].pc == if i < k then Want(Poll) else Start
  }

  lemma {:induction false} LineUp(w: World, rounds: nat, k: nat) returns (schedule: seq<nat>)
    requires LinedUp(w, k) && k <= |w.users|
    ensures LinedUp(ProgRun(w, rounds, schedule), |w.users|)
    ensures |ProgRun(w, rounds, schedule).users| == |w.users|
    decreases |w.users| - k
  {
    if k == |w.users| {
      return [];
    }
    var walk := WalkToPoll(w, rounds, k);
    var w1 := ProgRun(w, rounds, walk);
    var rest := LineUp(w1, rounds, k + 1);
    RunOn(w, rounds, walk, rest);
    schedule := walk + rest;
  }

  predicate OnItsWayOut(pc: PC) {
    || pc == Want(Poll) || pc == In(Poll) || pc == Post(Poll, true)
    || pc == Ready || pc == Want(Depart) || pc == In(Depart)
  }

  /** User 0 polls, sees everybody, and leaves, while the others still wait to poll. */
  predicate OthersPoll(w: World) {
    && 0 < |w.users| && w.users[0].round == 0
    && forall i :: 0 < i < |w.users| ==> w.users[i].pc == Want(Poll)
  }

  lemma PollSucceeds(w: World)
    requires Inv(w) && OthersPoll(w) && w.users[0].pc == In(Poll)
    ensures Flag(w, 0, Poll)
  {
    CountRange(Leaver, w.users);
    CountRange(Joiner, w.users);
    PollReads(w, 0);
  }

  lemma WayOut(u: User, v: User, flag: bool)
    requires OnItsWayOut(u.pc) && Moves(u, v, flag)
    requires u.pc == In(Poll) ==> flag
    requires u.pc == Ready ==> v.pc == Want(Depart)
    ensures OnItsWayOut(v.pc) || Left(v.pc)
    ensures v.round == u.round && Rank(v.pc, false) < Rank(u.pc, false)
  {
  }

  /** One move of user 0 on its way out. */
  lemma FirstMoves(w: World)
    requires Inv(w) && OthersPoll(w) && Clear(w, 0) && OnItsWayOut(w.users[0].pc)
    ensures var w' := ProgStep(w, 0, 0);
      && Inv(w') && Clear(w', 0) && MovesIn(w, 0, w')
      && (OnItsWayOut(w'.users[0].pc) || Left(w'.users[0].pc))
      && w'.users[0].round == 0 && Rank(w'.users[0].pc, false) < Rank(w.users[0].pc, false)
  {
    var u, w1 := w.users[0], ProgStep(w, 0, 0);
    SoloStep(w, 0, 0);
    ProgMoves(w, 0, 0);
    if u.pc == In(Poll) {
      PollSucceeds(w);
    }
    WayOut(u, w1.users[0], if u.pc.In? then Flag(w, 0, u.pc.section) else false);
  }

  lemma {:induction false} FirstLeaves(w: World) returns (schedule: seq<nat>)
    requires Inv(w) && OthersPoll(w) && Clear(w, 0) && OnItsWayOut(w.users[0].pc)
    ensures var w' := ProgRun(w, 0, schedule);
      && Inv(w') && |w'.users| == |w.users|
      && w'.users == w.users[0 := w'.users[0]] && Left(w'.users[0].pc)
    decreases Rank(w.users[0].pc, false)
  {
    var w1 := ProgStep(w, 0, 0);
    FirstMoves(w);
    var rest := [];
    if OnItsWayOut(w1.users[0].pc) {
      rest := FirstLeaves(w1);
    }
    schedule := [0] + rest;
    assert schedule[1..] == rest;
  }

  /** Somebody has left and user 1 still polls for a full house. */
  predicate Stranded(w: World) {
    && Inv(w) && |w.users| >= 2 && AllJoined(w.users) && Left(w.users[0].pc)
    && (w.users[1].pc == Want(Poll) || w.users[1].pc == In(Poll) || w.users[1].pc == Post(Poll, false))
  }

  /** Its next poll fails again. */
  lemma StrandedPoll(w: World)
    requires Stranded(w) && w.users[1].pc == In(Poll)
    ensures !Flag(w, 1, Poll)
  {
    assert UserOk(w.users[1], |w.sems|, |w.shms|, w.phase, AllJoined(w.users));
    CountRange(Member, w.users);
    assert !Is(Member, w.users[0]);
  }

  lemma StrandedStep(w: World, rounds: nat, p: nat)
    requires Stranded(w)
    ensures Stranded(ProgStep(w, rounds, p))
  {
    var w' := ProgStep(w, rounds, p);
    ProgInv(w, rounds, p);
    ProgMoves(w, rounds, p);
    if w' != w {
      JoinersStay(w, w', p, if w.users[p].pc.In? then Flag(w, p, w.users[p].pc.section) else false);
      if w.users[1].pc == In(Poll) {
        StrandedPoll(w);
      }
      StrandedMove(w, w', p);
    }
  }

  lemma StrandedMove(w: World, w': World, p: nat)
    requires |w.users| >= 2 && MovesIn(w, p, w') && Left(w.users[0].pc)
    requires w.users[1].pc == Want(Poll) || w.users[1].pc == Post(Poll, false)
          || (w.users[1].pc == In(Poll) && !Flag(w, 1, Poll))
    ensures Left(w'.users[0].pc)
    ensures w'.users[1].pc == Want(Poll) || w'.users[1].pc == In(Poll) || w'.users[1].pc == Post(Poll, false)
  {
  }

  lemma {:induction false} StrandedForever(w: World, rounds: nat, schedule: seq<nat>)
    requires Stranded(w)
    ensures !Finished(ProgRun(w, rounds, schedule))
    decreases |schedule|
  {
    if schedule == [] {
      assert !w.users[1].pc.Gone?;
    } else {
      StrandedStep(w, rounds, schedule[0]);
      StrandedForever(ProgStep(w, rounds, schedule[0]), rounds, schedule[1..]);
    }
  }

  lemma SomebodyStranded(n: nat) returns (schedule: seq<nat>)
    requires 2 <= n <= MAX_INT
    ensures Stranded(ProgRun(Init(n), 0, schedule))
  {
    InitGood(n, 0);
    CountRange(Holding, Init(n).users);
    var line := LineUp(Init(n), 0, 0);
    var w1 := ProgRun(Init(n), 0, line);
    assert UserOk(w1.users[0], |w1.sems|, |w1.shms|, w1.phase, AllJoined(w1.users));
    var leave := FirstLeaves(w1);
    RunOn(Init(n), 0, line, leave);
    schedule := line + leave;
    var w2 := ProgRun(Init(n), 0, schedule);
    assert w2.users[1] == w1.users[1];
    CountRange(Joiner, w2.users);
  }

  /** With no Wait between construction and destruction an early leaver can strand the others in
      their constructors; with at least one it cannot. A single user has nobody to miss. */
  lemma FinishIff(n: nat, rounds: nat)
    requires 1 <= n <= MAX_INT
    ensures CanAlwaysFinish(n, rounds) <==> rounds > 0 || n == 1
  {
    if rounds > 0 || n == 1 {
      WaitersFinish(n, rounds);
    } else {
      var schedule := SomebodyStranded(n);
      forall rest ensures !Finished(ProgRun(ProgRun(Init(n), rounds, schedule), rounds, rest)) {
        StrandedForever(ProgRun(Init(n), rounds, schedule), rounds, rest);
      }
      assert !CanFinish(ProgRun(Init(n), rounds, schedule), rounds);
    }
  }
}
