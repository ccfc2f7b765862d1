/**
 Where a user of the barrier goes after each critical section, in terms of what all users have done;
 when it is blocked; and what clearing the names achieves.
 */
module BarrierPlaces {
  import opened Basics
  import opened Barrier
  import opened BarrierInvariant
  import opened BarrierMoves
  import opened BarrierProgress
  import opened BarrierLifecycle
  import opened BarrierSafety

  /** uint64_t counts round. */
  lemma CountersWrap(x: nat)
    requires x < 0x1_0000_0000_0000_0000
    ensures Inc64(x) == (x + 1) % 0x1_0000_0000_0000_0000
    ensures Dec64(x) == (x + 0xFFFF_FFFF_FFFF_FFFF) % 0x1_0000_0000_0000_0000
  {
  }

  /** User p runs the body of its section and then the sem_post. */
  function BodyAndPost(w: World, p: nat): World {
    Step(Step(w, p), p)
  }

  lemma BodyEnds(w: World, p: nat)
    requires Inv(w) && p < |w.users| && w.users[p].pc.In?
    ensures var v := Step(w, p);
      && |v.users| == |w.users| && v.users[p].pc.Post?
      && v.users[p].round == w.users[p].round && v.users[p].sense == w.users[p].sense
  {
    BodyMoves(w, p);
  }

  lemma PostEnds(w: World, p: nat)
    requires Inv(w) && p < |w.users| && w.users[p].pc.Post?
    ensures var v := Step(w, p);
      && |v.users| == |w.users| && v.phase == w.phase
      && v.users[p] == w.users[p].(pc := After(w.users[p].pc.section, w.users[p].pc.flag))
  {
    assert UserOk(w.users[p], |w.sems|, |w.shms|, w.phase, AllJoined(w.users));
  }

  lemma SectionEnds(w: World, p: nat)
    requires Inv(w) && p < |w.users| && w.users[p].pc.In?
    ensures |Step(w, p).users| == |w.users| && Step(w, p).users[p].pc.Post?
    ensures var s := Step(w, p).users[p].pc; var v := BodyAndPost(w, p);
      && |v.users| == |w.users|
      && v.users[p].pc == After(s.section, s.flag)
      && v.users[p].round == w.users[p].round && v.users[p].sense == w.users[p].sense
      && v.phase == Step(w, p).phase
  {
    StepInv(w, p);
    BodyEnds(w, p);
    PostEnds(Step(w, p), p);
  }

  /** The arrival that finds all others in its round moves the phase on and is through without another
      sem_wait; any other arrival has to look at the sense. */
  lemma ArrivalGoes(w: World, p: nat)
    requires Inv(w) && p < |w.users| && w.users[p].pc == In(Enter)
    ensures var v := BodyAndPost(w, p);
      && |v.users| == |w.users|
      && if forall q :: 0 <= q < |w.users| && q != p ==> Entered(w.users[q]) == w.phase + 1
         then v.users[p].pc == Turn && v.phase == w.phase + 1
         else v.users[p].pc == Want(Spin) && v.phase == w.phase
  {
    SectionEnds(w, p);
    ArrivalKind(w, p);
    PhaseMoves(w, Tick(p));
  }

  /** From Turn it is one private step back to the client, with the round counted. */
  lemma TurnReturns(w: World, p: nat)
    requires p < |w.users| && w.users[p].pc == Turn
    ensures var v := Step(w, p);
      && v == w.(users := w.users[p := v.users[p]])
      && v.users[p].pc == Ready && v.users[p].round == w.users[p].round + 1
      && v.users[p].sense == !w.users[p].sense
  {
  }

  /** A waiting user's sense differs from the shared one exactly while its round is not over. */
  lemma SpinSees(w: World, p: nat)
    requires Inv(w) && p < |w.users| && w.users[p].pc == In(Spin)
    ensures Shm(w, p).sharedSense != w.users[p].sense <==> w.phase == w.users[p].round
    ensures w.phase == w.users[p].round || w.phase == w.users[p].round + 1
  {
    assert UserOk(w.users[p], |w.sems|, |w.shms|, w.phase, AllJoined(w.users));
  }

  /** A user that waits is let through if and only if the phase has moved on since it came. */
  lemma SpinGoes(w: World, p: nat)
    requires Inv(w) && p < |w.users| && w.users[p].pc == In(Spin)
    ensures var v := BodyAndPost(w, p);
      && |v.users| == |w.users| && v.phase == w.phase
      && v.users[p].pc == if w.phase == w.users[p].round + 1 then Turn else Want(Spin)
  {
    SpinSees(w, p);
    SectionEnds(w, p);
  }

  /** The constructor returns if and only if it finds all users joined and none gone again. */
  lemma PollGoes(w: World, p: nat)
    requires Inv(w) && p < |w.users| && w.users[p].pc == In(Poll)
    ensures var v := BodyAndPost(w, p);
      && |v.users| == |w.users|
      && v.users[p].pc ==
         if forall q :: 0 <= q < |w.users| ==> Joined(w.users[q].pc) && !Left(w.users[q].pc) then Ready
         else Want(Poll)
  {
    SectionEnds(w, p);
    CountRange(Member, w.users);
    assert UserOk(w.users[p], |w.sems|, |w.shms|, w.phase, AllJoined(w.users));
  }

  /** The only member there is besides those who have taken themselves out. */
  lemma AloneIff(w: World, p: nat)
    requires Inv(w) && p < |w.users| && w.users[p].pc == In(Depart)
    ensures Count(Member, w.users) == 1 <==> forall q :: 0 <= q < |w.users| && q != p ==> Left(w.users[q].pc)
  {
    assert UserOk(w.users[p], |w.sems|, |w.shms|, w.phase, AllJoined(w.users));
    CountRange(Joiner, w.users);
    var us := w.users[p := w.users[p].(pc := Gone)];
    CountUpdate(Member, w.users, p, w.users[p].(pc := Gone));
    CountRange(Member, us);
    forall q | 0 <= q < |w.users| && q != p
      ensures Is(Member, us[q]) <==> !Left(w.users[q].pc)
    {
      assert Is(Joiner, w.users[q]);
    }
    assert !Is(Member, us[p]);
  }

  /** Only a user that leaves after all others goes on to unlink the names. */
  lemma DepartGoes(w: World, p: nat)
    requires Inv(w) && p < |w.users| && w.users[p].pc == In(Depart)
    ensures var v := BodyAndPost(w, p);
      && |v.users| == |w.users|
      && v.users[p].pc ==
         if forall q :: 0 <= q < |w.users| && q != p ==> Left(w.users[q].pc) then UnlinkSem else Gone
  {
    AloneIff(w, p);
    SectionEnds(w, p);
    assert UserOk(w.users[p], |w.sems|, |w.shms|, w.phase, AllJoined(w.users));
  }

  /** Opening, joining, and what follows them. */
  lemma ConstructorGoes(w: World, p: nat)
    requires Inv(w) && p < |w.users|
    ensures w.users[p].pc == Start ==> |Step(w, p).users| == |w.users| && Step(w, p).users[p].pc == Want(Attach)
    ensures w.users[p].pc == In(Attach) ==> |BodyAndPost(w, p).users| == |w.users| && BodyAndPost(w, p).users[p].pc == Want(Join)
    ensures w.users[p].pc == In(Join) ==> |BodyAndPost(w, p).users| == |w.users| && BodyAndPost(w, p).users[p].pc == Want(Poll)
  {
    if w.users[p].pc.In? {
      SectionEnds(w, p);
    }
  }

  /** sem_wait lets a user in if and only if nobody is inside, and otherwise does nothing. */
  lemma SemWaitBlocks(w: World, p: nat)
    requires Inv(w) && p < |w.users| && w.users[p].pc.Want?
    ensures var v := Step(w, p);
      && |v.users| == |w.users|
      && if exists q :: 0 <= q < |w.users| && Critical(w.users[q].pc) then v == w
         else v.users[p].pc == In(w.users[p].pc.section)
  {
    assert UserOk(w.users[p], |w.sems|, |w.shms|, w.phase, AllJoined(w.users));
    CountRange(Holding, w.users);
    assert forall q :: 0 <= q < |w.users| ==> (Is(Holding, w.users[q]) <==> Critical(w.users[q].pc));
  }

  /** A user is blocked only in sem_wait while another is inside; between two calls it is its client
      that moves. */
  lemma BlockedIff(w: World, p: nat)
    requires Inv(w) && p < |w.users|
    ensures Step(w, p) == w <==>
      || w.users[p].pc == Ready || w.users[p].pc == Gone
      || (w.users[p].pc.Want? && exists q :: 0 <= q < |w.users| && Critical(w.users[q].pc))
  {
    if w.users[p].pc.Want? {
      SemWaitBlocks(w, p);
    } else if w.users[p].pc.In? {
      BodyEnds(w, p);
    } else if w.users[p].pc.Post? {
      PostEnds(w, p);
    }
  }

  /** The barrier takes any number of users that fits into an int. */
  lemma AnyIntCount(n: nat)
    requires 1 <= n <= 0x7FFF_FFFF
    ensures Inv(Init(n)) && |Init(n).users| == n
  {
    InitInv(n);
  }

  // ---------------------------------------------------------------- idling

  /** User p is idle in both, and nobody else can tell them apart. */
  predicate StillIdle(w: World, w': World, p: nat) {
    && |w'.users| == |w.users| && IdleAt(w', p)
    && w'.shms == w.shms && w'.phase == w.phase
    && forall q :: 0 <= q < |w.users| && q != p ==> w'.users[q] == w.users[q]
  }

  lemma LookingChangesNothing(w: World, rounds: nat, p: nat)
    requires p < |w.users| && InSection(w.users[p].pc) && (w.users[p].pc.section.Spin? || w.users[p].pc.section.Poll?)
    ensures var w' := ProgStep(w, rounds, p); w'.shms == w.shms && w'.phase == w.phase
  {
  }

  lemma StaysIdle(w: World, rounds: nat, p: nat)
    requires Inv(w) && PlanOk(w, rounds) && (rounds > 0 || |w.users| == 1) && IdleAt(w, p)
    requires MovesIn(w, p, ProgStep(w, rounds, p)) && ProgStep(w, rounds, p).phase == w.phase
    ensures IdleAt(ProgStep(w, rounds, p), p)
  {
    MoverLowers(w, rounds, p);
    JoinersStay(w, ProgStep(w, rounds, p), p,
                if w.users[p].pc.In? then BarrierMoves.Flag(w, p, w.users[p].pc.section) else false);
  }

  /** A user that spins or polls in vain gets nowhere by itself. */
  lemma IdleInVain(w: World, rounds: nat, p: nat)
    requires Inv(w) && PlanOk(w, rounds) && (rounds > 0 || |w.users| == 1) && IdleAt(w, p)
    ensures StillIdle(w, ProgStep(w, rounds, p), p)
  {
    ProgMoves(w, rounds, p);
    LookingChangesNothing(w, rounds, p);
    if ProgStep(w, rounds, p) != w {
      StaysIdle(w, rounds, p);
    }
  }

  /** However long it goes on alone. */
  lemma {:induction false} IdlesAlone(w: World, rounds: nat, p: nat, times: nat)
    requires Inv(w) && PlanOk(w, rounds) && (rounds > 0 || |w.users| == 1) && IdleAt(w, p)
    ensures StillIdle(w, ProgRun(w, rounds, seq(times, _ => p)), p)
    decreases times
  {
    if times > 0 {
      var w1 := ProgStep(w, rounds, p);
      IdleInVain(w, rounds, p);
      ProgInv(w, rounds, p);
      PlanStep(w, rounds, p);
      IdlesAlone(w1, rounds, p, times - 1);
      assert seq(times, _ => p)[1..] == seq(times - 1, _ => p);
      IdleThen(w, w1, ProgRun(w1, rounds, seq(times - 1, _ => p)), p);
    }
  }

  lemma IdleThen(w: World, w1: World, w2: World, p: nat)
    requires StillIdle(w, w1, p) && StillIdle(w1, w2, p)
    ensures StillIdle(w, w2, p)
  {
  }

  // ---------------------------------------------------------------- clearing the names

  /** Whatever state an earlier lifetime was left in, once the names are cleared the next one starts as
      if they had never been used; without clearing it does so only if both names are free anyway. */
  lemma ClearedIsFresh(w: World, n: nat)
    ensures Relaunch(ClearResource(w), n) == Init(n)
    ensures Relaunch(w, n) == Init(n) <==> w.semName == None && w.shmName == None
  {
  }
}
