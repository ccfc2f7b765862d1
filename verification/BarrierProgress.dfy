/**
 n users that construct the barrier, call Wait R times each and destroy it.

 A user that spins or polls in vain leaves the measure as it is, and every other move lowers it.
 When R is positive there is always a user whose moves lead on, so no run can get stuck.
 */
module BarrierProgress {
  import opened Barrier
  import opened BarrierInvariant
  import opened BarrierMoves

  /** The client: R Waits, then the destructor. */
  function ProgStep(w: World, rounds: nat, p: nat): World {
    if p < |w.users| && w.users[p].pc.Ready? then
      if w.users[p].round < rounds then CallWait(w, p) else CallLeave(w, p)
    else Step(w, p)
  }

  function ProgRun(w: World, rounds: nat, schedule: seq<nat>): World
    decreases |schedule|
  {
    if schedule == [] then w
    else ProgRun(ProgStep(w, rounds, schedule[0]), rounds, schedule[1..])
  }

  predicate Finished(w: World) {
    forall i :: 0 <= i < |w.users| ==> w.users[i].pc.Gone?
  }

  // ---------------------------------------------------------------- where the client stands

  predicate OnPlan(u: User, rounds: nat) {
    && u.round <= rounds
    && (InCall(u.pc) ==> u.round < rounds)
    && (Leaving(u.pc) ==> u.round == rounds)
  }

  predicate PlanOk(w: World, rounds: nat) {
    forall i :: 0 <= i < |w.users| ==> OnPlan(w.users[i], rounds)
  }

  lemma ProgMoves(w: World, rounds: nat, p: nat)
    ensures ProgStep(w, rounds, p) == w || MovesIn(w, p, ProgStep(w, rounds, p))
    ensures p < |w.users| && w.users[p].pc.Ready? ==>
      ProgStep(w, rounds, p).users[p].pc == Want(if w.users[p].round < rounds then Enter else Depart)
  {
    StepMoves(w, p);
    CallMoves(w, p);
  }

  lemma OnPlanMoves(u: User, v: User, flag: bool, rounds: nat)
    requires OnPlan(u, rounds) && Moves(u, v, flag)
    requires u.pc.Ready? ==> v.pc == Want(if u.round < rounds then Enter else Depart)
    ensures OnPlan(v, rounds)
  {
  }

  lemma PlanStep(w: World, rounds: nat, p: nat)
    requires PlanOk(w, rounds)
    ensures PlanOk(ProgStep(w, rounds, p), rounds)
  {
    var w' := ProgStep(w, rounds, p);
    ProgMoves(w, rounds, p);
    if w' != w {
      var u := w.users[p];
      OnPlanMoves(u, w'.users[p], if u.pc.In? then Flag(w, p, u.pc.section) else false, rounds);
    }
  }

  lemma ProgInv(w: World, rounds: nat, p: nat)
    requires Inv(w)
    ensures Inv(ProgStep(w, rounds, p))
  {
    if p < |w.users| {
      if w.users[p].pc.Ready? {
        CallInv(w, p);
      } else {
        StepInv(w, p);
      }
    }
  }

  // ---------------------------------------------------------------- the measure

  /** Spinning while the round is not over, or polling while somebody has yet to join. */
  predicate Idle(u: User, phase: nat, everybody: bool) {
    && InSection(u.pc)
    && ((u.pc.section.Spin? && u.round == phase) || (u.pc.section.Poll? && !everybody))
  }

  predicate IdleAt(w: World, p: nat) {
    p < |w.users| && Idle(w.users[p], w.phase, AllJoined(w.users))
  }

  /** The place of a section in the program; its three points are Top, Top - 1 and Top - 2. */
  function Top(s: Section): nat {
    match s
    case Attach => 39
    case Join => 36
    case Poll => 32
    case Enter => 13
    case Spin => 8
    case Depart => 13
  }

  function Rank(pc: PC, idle: bool): nat {
    match pc
    case Start => 40
    case Want(s) => if idle then Top(s) + 1 else Top(s)
    case In(s) => if idle then Top(s) + 1 else Top(s) - 1
    case Post(s, flag) =>
      if idle || After(s, flag) == Want(s) then Top(s) + 1 else Top(s) - 2
    case Ready => 14
    case Turn => 5
    case UnlinkSem => 10
    case UnlinkShm => 9
    case Gone => 0
  }

  /** A bound on the moves a user still has to make, idle ones apart. */
  function Work(u: User, rounds: nat, phase: nat, everybody: bool): nat {
    (if u.round < rounds then (rounds - u.round) * 16 else 0) + Rank(u.pc, Idle(u, phase, everybody))
  }

  function Total(us: seq<User>, rounds: nat, phase: nat, everybody: bool): nat {
    if us == [] then 0
    else Work(us[0], rounds, phase, everybody) + Total(us[1..], rounds, phase, everybody)
  }

  function WorkLeft(w: World, rounds: nat): nat {
    Total(w.users, rounds, w.phase, AllJoined(w.users))
  }

  lemma {:induction false} TotalUpdate(us: seq<User>, rounds: nat, phase: nat, everybody: bool, p: nat, v: User)
    requires p < |us|
    ensures Total(us[p := v], rounds, phase, everybody) + Work(us[p], rounds, phase, everybody)
         == Total(us, rounds, phase, everybody) + Work(v, rounds, phase, everybody)
  {
    if p == 0 {
      assert us[p := v][1..] == us[1..];
    } else {
      assert us[p := v][1..] == us[1..][p - 1 := v];
      TotalUpdate(us[1..], rounds, phase, everybody, p - 1, v);
    }
  }

  lemma {:induction false} TotalShrinks(us: seq<User>, rounds: nat, phase: nat, e: bool, phase': nat, e': bool)
    requires forall i :: 0 <= i < |us| ==> (Idle(us[i], phase', e') ==> Idle(us[i], phase, e))
    ensures Total(us, rounds, phase', e') <= Total(us, rounds, phase, e)
  {
    if us != [] {
      RankShrinks(us[0].pc, Idle(us[0], phase, e), Idle(us[0], phase', e'));
      TotalShrinks(us[1..], rounds, phase, e, phase', e');
    }
  }

  lemma RankShrinks(pc: PC, idle: bool, idle': bool)
    requires idle' ==> idle
    ensures Rank(pc, idle') <= Rank(pc, idle)
  {
  }

  // ---------------------------------------------------------------- one move

  /** Nobody has left while somebody is still in the constructor, unless nobody ever waits. */
  lemma NobodyLeft(w: World, rounds: nat, p: nat)
    requires UsersOk(w) && PlanOk(w, rounds) && (rounds > 0 || |w.users| == 1)
    requires p < |w.users| && Early(w.users[p].pc)
    ensures Count(Leaver, w.users) == 0
  {
    CountRange(Leaver, w.users);
    forall i | 0 <= i < |w.users| ensures !Is(Leaver, w.users[i]) {
      assert UserOk(w.users[i], |w.sems|, |w.shms|, w.phase, AllJoined(w.users));
      assert UserOk(w.users[p], |w.sems|, |w.shms|, w.phase, AllJoined(w.users));
      assert OnPlan(w.users[i], rounds);
    }
  }

  /** The poll succeeds exactly when everybody has joined. */
  lemma PollReads(w: World, p: nat)
    requires Inv(w) && Count(Leaver, w.users) == 0
    requires p < |w.users| && w.users[p].pc == In(Poll)
    ensures Shm(w, p).nUsers >= |w.users| <==> AllJoined(w.users)
  {
    assert UserOk(w.users[p], |w.sems|, |w.shms|, w.phase, AllJoined(w.users));
    FullMembership(w);
    if AllJoined(w.users) {
      MembersAreJoiners(w.users);
    }
  }

  lemma MembersAreJoiners(us: seq<User>)
    requires Count(Leaver, us) == 0 && AllJoined(us)
    ensures Count(Member, us) == |us|
  {
    CountRange(Leaver, us);
    CountRange(Joiner, us);
    CountRange(Member, us);
  }

  /** The look at the sense says "not yet" exactly to those whose round is the phase. */
  lemma SpinReads(w: World, p: nat)
    requires Inv(w) && p < |w.users| && w.users[p].pc == In(Spin)
    ensures Shm(w, p).sharedSense != w.users[p].sense <==> w.users[p].round == w.phase
  {
    assert UserOk(w.users[p], |w.sems|, |w.shms|, w.phase, AllJoined(w.users));
  }

  /** Idle users stay idle and keep their work; the others lose some. */
  lemma WorkMoves(u: User, v: User, flag: bool, rounds: nat, phase: nat, everybody: bool)
    requires OnPlan(u, rounds) && Moves(u, v, flag)
    requires u.pc == In(Poll) ==> flag == everybody
    requires u.pc == In(Spin) ==> flag == (u.round == phase)
    requires u.pc == Post(Poll, true) ==> everybody
    requires u.pc == Post(Spin, false) ==> u.round != phase
    ensures if Idle(u, phase, everybody)
      then Idle(v, phase, everybody) && Work(v, rounds, phase, everybody) == Work(u, rounds, phase, everybody)
      else Work(v, rounds, phase, everybody) < Work(u, rounds, phase, everybody)
  {
    if u.pc.Turn? {
      TurnWork(u, v, rounds, phase, everybody);
    } else {
      if InSection(u.pc) {
        SectionRank(u, v, flag, phase, everybody);
      } else {
        OtherRank(u, v, flag, phase, everybody);
      }
    }
  }

  /** Completing a Wait. */
  lemma TurnWork(u: User, v: User, rounds: nat, phase: nat, everybody: bool)
    requires u.pc.Turn? && OnPlan(u, rounds) && v.pc.Ready? && v.round == u.round + 1
    ensures !Idle(u, phase, everybody) && Work(v, rounds, phase, everybody) < Work(u, rounds, phase, everybody)
  {
  }

  /** The rank decides, as the round stays. */
  lemma SectionRank(u: User, v: User, flag: bool, phase: nat, everybody: bool)
    requires Moves(u, v, flag) && InSection(u.pc)
    requires u.pc == In(Poll) ==> flag == everybody
    requires u.pc == In(Spin) ==> flag == (u.round == phase)
    requires u.pc == Post(Poll, true) ==> everybody
    requires u.pc == Post(Spin, false) ==> u.round != phase
    ensures v.round == u.round
    ensures Idle(u, phase, everybody) ==> Idle(v, phase, everybody)
    ensures if Idle(u, phase, everybody) then Rank(v.pc, Idle(v, phase, everybody)) == Rank(u.pc, true)
      else Rank(v.pc, Idle(v, phase, everybody)) < Rank(u.pc, false)
  {
  }

  lemma OtherRank(u: User, v: User, flag: bool, phase: nat, everybody: bool)
    requires Moves(u, v, flag) && !InSection(u.pc) && !u.pc.Turn?
    ensures v.round == u.round
    ensures Rank(v.pc, Idle(v, phase, everybody)) < Rank(u.pc, false)
  {
  }

  lemma PhaseStep(w: World, rounds: nat, p: nat)
    ensures var w' := ProgStep(w, rounds, p);
      w'.phase == w.phase || (w'.phase == w.phase + 1 && p < |w.users| && w.users[p].pc == In(Enter))
  {
  }

  lemma JoinersStay(w: World, w': World, p: nat, flag: bool)
    requires p < |w.users| == |w'.users| && w'.users == w.users[p := w'.users[p]]
    requires Moves(w.users[p], w'.users[p], flag)
    ensures AllJoined(w.users) ==> AllJoined(w'.users)
    ensures w.users[p].pc != In(Join) ==> (AllJoined(w.users) <==> AllJoined(w'.users))
  {
    CountUpdate(Joiner, w.users, p, w'.users[p]);
    CountRange(Joiner, w'.users);
  }

  /** An idle move changes no work, any other move lowers it. */
  lemma MoveLowers(w: World, rounds: nat, p: nat)
    requires Inv(w) && PlanOk(w, rounds) && (rounds > 0 || |w.users| == 1)
    requires ProgStep(w, rounds, p) != w
    ensures var w' := ProgStep(w, rounds, p);
      if IdleAt(w, p) then WorkLeft(w', rounds) == WorkLeft(w, rounds)
      else WorkLeft(w', rounds) < WorkLeft(w, rounds)
  {
    var w' := ProgStep(w, rounds, p);
    ProgMoves(w, rounds, p);
    MoverLowers(w, rounds, p);
    TotalUpdate(w.users, rounds, w.phase, AllJoined(w.users), p, w'.users[p]);
    if IdleAt(w, p) {
      PhaseStep(w, rounds, p);
      JoinersStay(w, w', p, if w.users[p].pc.In? then Flag(w, p, w.users[p].pc.section) else false);
    } else {
      OthersFree(w, rounds, p);
      TotalShrinks(w'.users, rounds, w.phase, AllJoined(w.users), w'.phase, AllJoined(w'.users));
    }
  }

  lemma MoverLowers(w: World, rounds: nat, p: nat)
    requires Inv(w) && PlanOk(w, rounds) && (rounds > 0 || |w.users| == 1)
    requires MovesIn(w, p, ProgStep(w, rounds, p))
    ensures var v := ProgStep(w, rounds, p).users[p]; var e := AllJoined(w.users);
      if IdleAt(w, p)
      then Idle(v, w.phase, e) && Work(v, rounds, w.phase, e) == Work(w.users[p], rounds, w.phase, e)
      else Work(v, rounds, w.phase, e) < Work(w.users[p], rounds, w.phase, e)
  {
    var u := w.users[p];
    assert UserOk(u, |w.sems|, |w.shms|, w.phase, AllJoined(w.users));
    if u.pc == In(Poll) {
      NobodyLeft(w, rounds, p);
      PollReads(w, p);
    } else if u.pc == In(Spin) {
      SpinReads(w, p);
    }
    WorkMoves(u, ProgStep(w, rounds, p).users[p],
              if u.pc.In? then Flag(w, p, u.pc.section) else false, rounds, w.phase, AllJoined(w.users));
  }

  /** A move can only free other users from idling. */
  lemma OthersFree(w: World, rounds: nat, p: nat)
    requires UsersOk(w) && MovesIn(w, p, ProgStep(w, rounds, p))
    ensures var w' := ProgStep(w, rounds, p); forall i :: 0 <= i < |w'.users| ==>
      (Idle(w'.users[i], w'.phase, AllJoined(w'.users)) ==> Idle(w'.users[i], w.phase, AllJoined(w.users)))
  {
    var w' := ProgStep(w, rounds, p);
    PhaseStep(w, rounds, p);
    JoinersStay(w, w', p, if w.users[p].pc.In? then Flag(w, p, w.users[p].pc.section) else false);
    forall i | 0 <= i < |w'.users| ensures w'.users[i].round == w'.phase ==> w'.phase == w.phase || i == p {
      assert i != p ==> UserOk(w.users[i], |w.sems|, |w.shms|, w.phase, AllJoined(w.users));
    }
  }

  // ---------------------------------------------------------------- somebody can always move on

  predicate Free(w: World) { Count(Holding, w.users) == 0 }

  /** The user in a critical section, if there is one, is never blocked. */
  lemma HolderMoves(w: World, rounds: nat, p: nat)
    requires Inv(w) && p < |w.users| && Critical(w.users[p].pc)
    ensures var w' := ProgStep(w, rounds, p);
      && MovesIn(w, p, w')
      && Count(Holding, w'.users) + (if w.users[p].pc.Post? then 1 else 0) == 1
  {
    assert UserOk(w.users[p], |w.sems|, |w.shms|, w.phase, AllJoined(w.users));
    CountPositive(Holding, w.users, p);
    ProgMoves(w, rounds, p);
    CountUpdate(Holding, w.users, p, ProgStep(w, rounds, p).users[p]);
  }

  /** With the semaphore free, any user that is neither gone nor idle can move. */
  lemma FreeMoves(w: World, rounds: nat, p: nat)
    requires Inv(w) && Free(w) && p < |w.users| && !w.users[p].pc.Gone?
    ensures ProgStep(w, rounds, p) != w
  {
    assert UserOk(w.users[p], |w.sems|, |w.shms|, w.phase, AllJoined(w.users));
    CountRange(Holding, w.users);
    var w' := ProgStep(w, rounds, p);
    assert w'.users[p] != w.users[p];
  }

  /** Not everybody is idle or gone: someone who has yet to join, or has yet to arrive, is neither. */
  lemma SomebodyBusy(w: World, rounds: nat) returns (p: nat)
    requires Inv(w) && PlanOk(w, rounds) && !Finished(w)
    ensures p < |w.users| && !w.users[p].pc.Gone? && !IdleAt(w, p)
  {
    p :| p < |w.users| && !w.users[p].pc.Gone?;
    if IdleAt(w, p) {
      if w.users[p].pc.section.Poll? {
        CountRange(Joiner, w.users);
        assert exists q :: 0 <= q < |w.users| && !Is(Joiner, w.users[q]);
        p :| p < |w.users| && !Is(Joiner, w.users[p]);
      } else {
        var q := NotWaiting(w);
        LateUserBusy(w, rounds, p, q);
        p := q;
      }
    }
  }

  /** While p spins, a user that is not waiting with it has moves to make. */
  lemma LateUserBusy(w: World, rounds: nat, p: nat, q: nat)
    requires UsersOk(w) && PlanOk(w, rounds) && p < |w.users| && q < |w.users|
    requires IdleAt(w, p) && w.users[p].pc.section.Spin? && !Is(Waiting(w.phase), w.users[q])
    ensures !w.users[q].pc.Gone? && !IdleAt(w, q)
  {
    assert UserOk(w.users[p], |w.sems|, |w.shms|, w.phase, AllJoined(w.users));
    assert UserOk(w.users[q], |w.sems|, |w.shms|, w.phase, AllJoined(w.users));
    assert OnPlan(w.users[p], rounds) && OnPlan(w.users[q], rounds);
  }

  lemma NotWaiting(w: World) returns (q: nat)
    requires Inv(w)
    ensures q < |w.users| && !Is(Waiting(w.phase), w.users[q])
  {
    CountRange(Waiting(w.phase), w.users);
    assert UserOk(w.users[0], |w.sems|, |w.shms|, w.phase, AllJoined(w.users));
    q :| q < |w.users| && !Is(Waiting(w.phase), w.users[q]);
  }

  // ---------------------------------------------------------------- from any world to the end

  predicate Good(w: World, rounds: nat) {
    Inv(w) && PlanOk(w, rounds) && (rounds > 0 || |w.users| == 1)
  }

  lemma GoodStep(w: World, rounds: nat, p: nat)
    requires Good(w, rounds)
    ensures Good(ProgStep(w, rounds, p), rounds)
  {
    ProgInv(w, rounds, p);
    PlanStep(w, rounds, p);
    ProgMoves(w, rounds, p);
  }

  lemma {:induction false} RunOn(w: World, rounds: nat, a: seq<nat>, b: seq<nat>)
    ensures ProgRun(w, rounds, a + b) == ProgRun(ProgRun(w, rounds, a), rounds, b)
    decreases |a|
  {
    if a == [] {
      assert a + b == b;
    } else {
      assert (a + b)[1..] == a[1..] + b;
      RunOn(ProgStep(w, rounds, a[0]), rounds, a[1..], b);
    }
  }

  lemma LastStep(w: World, rounds: nat, schedule: seq<nat>)
    requires schedule != []
    ensures var k := |schedule| - 1;
      ProgRun(w, rounds, schedule) == ProgStep(ProgRun(w, rounds, schedule[..k]), rounds, schedule[k])
  {
    var k := |schedule| - 1;
    RunOn(w, rounds, schedule[..k], [schedule[k]]);
    assert schedule[..k] + [schedule[k]] == schedule && [schedule[k]][1..] == [];
  }

  /** How far the user in a critical section, if any, is from returning the semaphore. */
  function HoldLeft(w: World): nat { Count(Holding, w.users) + Count(Inside, w.users) }

  /** There is less to do in w' than in w. */
  predicate Less(w': World, w: World, rounds: nat) {
    || WorkLeft(w', rounds) < WorkLeft(w, rounds)
    || (WorkLeft(w', rounds) == WorkLeft(w, rounds) && HoldLeft(w') < HoldLeft(w))
  }

  lemma HolderProgress(w: World, rounds: nat, p: nat)
    requires Good(w, rounds) && p < |w.users| && Critical(w.users[p].pc)
    ensures Less(ProgStep(w, rounds, p), w, rounds)
  {
    var w' := ProgStep(w, rounds, p);
    HolderMoves(w, rounds, p);
    CountUpdate(Holding, w.users, p, w'.users[p]);
    CountUpdate(Inside, w.users, p, w'.users[p]);
    MoveLowers(w, rounds, p);
  }

  /** A user with the semaphore moves on; failing that, one that is neither idle nor gone. */
  lemma NextMover(w: World, rounds: nat) returns (p: nat)
    requires Good(w, rounds) && !Finished(w)
    ensures p < |w.users| && Less(ProgStep(w, rounds, p), w, rounds)
    ensures (!w.users[p].pc.Gone? && !IdleAt(w, p)) || Critical(w.users[p].pc)
    ensures w.users[p].pc.Ready? ==> Free(w)
  {
    if Free(w) {
      p := SomebodyBusy(w, rounds);
      FreeMoves(w, rounds, p);
      MoveLowers(w, rounds, p);
    } else {
      p := CountExists(Holding, w.users);
      HolderProgress(w, rounds, p);
    }
  }

  /** From every world the users can reach, some schedule takes them all to the end. */
  lemma {:induction false} Finish(w: World, rounds: nat) returns (schedule: seq<nat>)
    requires Good(w, rounds)
    ensures Finished(ProgRun(w, rounds, schedule))
    decreases WorkLeft(w, rounds), HoldLeft(w)
  {
    if Finished(w) {
      return [];
    }
    var p := NextMover(w, rounds);
    GoodStep(w, rounds, p);
    var rest := Finish(ProgStep(w, rounds, p), rounds);
    schedule := [p] + rest;
    assert schedule[1..] == rest;
  }

  lemma {:induction false} GoodRun(w: World, rounds: nat, schedule: seq<nat>)
    requires Good(w, rounds)
    ensures Good(ProgRun(w, rounds, schedule), rounds)
    decreases |schedule|
  {
    if schedule != [] {
      GoodStep(w, rounds, schedule[0]);
      GoodRun(ProgStep(w, rounds, schedule[0]), rounds, schedule[1..]);
    }
  }

  // ---------------------------------------------------------------- no run is busy for ever

  /** How many moves of a run are neither blocked nor idle. */
  function BusyMoves(w: World, rounds: nat, schedule: seq<nat>): nat
    decreases |schedule|
  {
    if schedule == [] then 0
    else
      var w' := ProgStep(w, rounds, schedule[0]);
      (if w' != w && !IdleAt(w, schedule[0]) then 1 else 0) + BusyMoves(w', rounds, schedule[1..])
  }

  /** However the users are scheduled, all but a fixed number of their moves is idle spinning. */
  lemma {:induction false} BusyBound(w: World, rounds: nat, schedule: seq<nat>)
    requires Good(w, rounds)
    ensures BusyMoves(w, rounds, schedule) + WorkLeft(ProgRun(w, rounds, schedule), rounds) <= WorkLeft(w, rounds)
    decreases |schedule|
  {
    if schedule != [] {
      var w' := ProgStep(w, rounds, schedule[0]);
      GoodStep(w, rounds, schedule[0]);
      if w' != w {
        MoveLowers(w, rounds, schedule[0]);
      }
      BusyBound(w', rounds, schedule[1..]);
    }
  }

  lemma {:induction false} FreshWork(us: seq<User>, rounds: nat, phase: nat, everybody: bool)
    requires forall i :: 0 <= i < |us| ==> us[i].pc.Start? && us[i].round == 0
    ensures Total(us, rounds, phase, everybody) == |us| * (16 * rounds + 40)
  {
    if us != [] {
      FreshWork(us[1..], rounds, phase, everybody);
      var k := 16 * rounds + 40;
      assert Total(us, rounds, phase, everybody) == k + (|us| - 1) * k;
      assert k + (|us| - 1) * k == |us| * k;
    }
  }

  lemma FreshPair(rounds: nat)
    ensures WorkLeft(Init(2), rounds) == 32 * rounds + 80
  {
    FreshWork(Init(2).users, rounds, 0, AllJoined(Init(2).users));
  }

  /** n users that wait R times each make at most n * (16 R + 40) moves besides idle ones. */
  lemma RunIsBounded(n: nat, rounds: nat, schedule: seq<nat>)
    requires 1 <= n <= MAX_INT && (rounds > 0 || n == 1)
    ensures BusyMoves(Init(n), rounds, schedule) <= n * (16 * rounds + 40)
  {
    InitInv(n);
    BusyBound(Init(n), rounds, schedule);
    FreshWork(Init(n).users, rounds, 0, AllJoined(Init(n).users));
  }
}
