/** The sense-reversing barrier is a barrier, for any number of users and any clients. */
module BarrierSafety {
  import opened Barrier
  import opened BarrierInvariant
  import opened BarrierMoves
  import opened BarrierProgress
  import I = IdealBarrier

  function Abs(w: World): I.Ideal {
    I.Ideal(seq(|w.users|, i requires 0 <= i < |w.users| => Entered(w.users[i])),
            seq(|w.users|, i requires 0 <= i < |w.users| => w.users[i].round))
  }

  // ---------------------------------------------------------------- rounds are kept apart

  /** p has returned from no more Waits than q has entered, nobody is more than a round ahead, and one
      bit of sense is the parity of the round. */
  predicate Apart(w: World, p: nat, q: nat) {
    && p < |w.users| && q < |w.users|
    && w.users[p].round <= Entered(w.users[q])
    && Entered(w.users[p]) <= Entered(w.users[q]) + 1
    && w.users[p].round <= w.users[q].round + 1
    && (w.users[p].sense <==> Even(w.users[p].round))
  }

  /** A user that has returned from k Waits finds everybody in its k-th Wait or beyond. */
  lemma RoundsApart(n: nat, events: seq<Event>, p: nat, q: nat)
    requires 1 <= n <= MAX_INT && p < n && q < n
    ensures Apart(Run(Init(n), events), p, q)
  {
    RunInv(n, events);
    InvApart(Run(Init(n), events), p, q);
  }

  lemma InvApart(w: World, p: nat, q: nat)
    requires UsersOk(w) && p < |w.users| && q < |w.users|
    ensures Apart(w, p, q)
  {
    assert UserOk(w.users[p], |w.sems|, |w.shms|, w.phase, AllJoined(w.users));
    assert UserOk(w.users[q], |w.sems|, |w.shms|, w.phase, AllJoined(w.users));
  }

  predicate SharedWordsOk(w: World) {
    && |w.shms| <= 1
    && (|w.shms| == 1 ==>
          && (w.shms[0].sharedSense <==> w.phase % 2 == 1)
          && w.shms[0].count == |set q: nat | q < |w.users| && Entered(w.users[q]) == w.phase + 1|)
  }

  /** The shared words: the reversed sense is the parity of the phase, count_ is the number of
      users that have entered the current round, and the phase is the least round entered. */
  lemma SharedWords(n: nat, events: seq<Event>)
    requires 1 <= n <= MAX_INT
    ensures SharedWordsOk(Run(Init(n), events))
    ensures I.IsPhase(Abs(Run(Init(n), events)), Run(Init(n), events).phase)
  {
    RunInv(n, events);
    PhaseIsLeast(Run(Init(n), events));
    WordsOf(Run(Init(n), events));
  }

  lemma WordsOf(w: World)
    requires Inv(w)
    ensures SharedWordsOk(w)
  {
    EnteredNow(w);
  }

  lemma EnteredNow(w: World)
    requires Inv(w)
    ensures Who(Waiting(w.phase), w.users) == set q: nat | q < |w.users| && Entered(w.users[q]) == w.phase + 1
  {
    forall q: nat | q < |w.users|
      ensures Is(Waiting(w.phase), w.users[q]) <==> Entered(w.users[q]) == w.phase + 1
    {
      assert UserOk(w.users[q], |w.sems|, |w.shms|, w.phase, AllJoined(w.users));
    }
  }

  lemma PhaseIsLeast(w: World)
    requires Inv(w)
    ensures I.IsPhase(Abs(w), w.phase)
  {
    var s := Abs(w);
    forall q | 0 <= q < |s.entered| ensures s.entered[q] >= w.phase {
      assert UserOk(w.users[q], |w.sems|, |w.shms|, w.phase, AllJoined(w.users));
    }
    var q := NotWaiting(w);
    assert UserOk(w.users[q], |w.sems|, |w.shms|, w.phase, AllJoined(w.users));
    assert s.entered[q] == w.phase;
  }

  // ---------------------------------------------------------------- the phase

  /** The arrival that finds everybody else already in the current round. */
  predicate LastArrival(w: World, e: Event) {
    && e.Tick? && e.pid < |w.users| && w.users[e.pid].pc == In(Enter)
    && forall q :: 0 <= q < |w.users| && q != e.pid ==> Entered(w.users[q]) == w.phase + 1
  }

  /** The last arrival of a round, and no other step, moves the phase on, and by one. */
  lemma PhaseMoves(w: World, e: Event)
    requires Inv(w)
    ensures Apply(w, e).phase == w.phase + if LastArrival(w, e) then 1 else 0
  {
    if e.Tick? && e.pid < |w.users| && w.users[e.pid].pc == In(Enter) {
      ArrivalKind(w, e.pid);
    }
  }

  lemma ArrivalKind(w: World, p: nat)
    requires Inv(w) && p < |w.users| && w.users[p].pc == In(Enter)
    ensures LastArrival(w, Tick(p)) <==> Shm(w, p).count + 1 == |w.users|
    ensures Inc64(Shm(w, p).count) == Shm(w, p).count + 1
  {
    EnteredNow(w);
    var v := w.users[p].(pc := Post(Enter, false));
    CountUpdate(Waiting(w.phase), w.users, p, v);
    var us := w.users[p := v];
    CountRange(Waiting(w.phase), us);
    if LastArrival(w, Tick(p)) {
      forall i | 0 <= i < |us| ensures Is(Waiting(w.phase), us[i]) {
        assert i != p ==> i in Who(Waiting(w.phase), w.users);
      }
    }
    if Shm(w, p).count + 1 == |w.users| {
      OthersWait(w, p);
      assert forall q :: 0 <= q < |w.users| && q != p ==> q in Who(Waiting(w.phase), w.users);
    }
  }

  // ---------------------------------------------------------------- refinement

  /** Every event is an ideal Enter, an ideal Return, or invisible. */
  lemma EventRefines(w: World, e: Event) returns (moves: seq<I.Move>)
    requires Inv(w)
    ensures I.Leads(Abs(w), moves, Abs(Apply(w, e)))
    ensures moves == match e
      case Tick(p) =>
        if p < |w.users| && w.users[p].pc == In(Enter) then [I.Enter(p)]
        else if p < |w.users| && w.users[p].pc == Turn then [I.Return(p)]
        else []
      case _ => []
  {
    moves := [];
    if e.Tick? && e.pid < |w.users| {
      var p := e.pid;
      assert UserOk(w.users[p], |w.sems|, |w.shms|, w.phase, AllJoined(w.users));
      if w.users[p].pc == In(Enter) {
        moves := [I.Enter(p)];
        EnterRefines(w, p);
        return;
      } else if w.users[p].pc == Turn {
        moves := [I.Return(p)];
        ReturnRefines(w, p);
        return;
      }
    }
    Invisible(w, e);
  }

  lemma OneMove(s: I.Ideal, m: I.Move)
    requires I.Enabled(s, m)
    ensures I.Leads(s, [m], I.After(s, m))
  {
    assert [m][1..] == [];
  }

  /** What one user's own move does to the two vectors. */
  lemma AbsMoves(w: World, w': World, p: nat)
    requires MovesIn(w, p, w')
    ensures Abs(w') == I.Ideal(Abs(w).entered[p := Entered(w'.users[p])],
                               Abs(w).returned[p := w'.users[p].round])
  {
  }

  lemma EnterRefines(w: World, p: nat)
    requires p < |w.users| && w.users[p].pc == In(Enter)
    ensures I.Leads(Abs(w), [I.Enter(p)], Abs(Step(w, p)))
  {
    BodyMoves(w, p);
    AbsMoves(w, Step(w, p), p);
    OneMove(Abs(w), I.Enter(p));
    assert Abs(Step(w, p)).returned == Abs(w).returned;
  }

  lemma ReturnRefines(w: World, p: nat)
    requires UsersOk(w) && p < |w.users| && w.users[p].pc == Turn
    ensures I.Leads(Abs(w), [I.Return(p)], Abs(Step(w, p)))
  {
    StepMoves(w, p);
    AbsMoves(w, Step(w, p), p);
    EverybodyEntered(w, p);
    OneMove(Abs(w), I.Return(p));
    assert Abs(Step(w, p)).entered == Abs(w).entered;
  }

  lemma EverybodyEntered(w: World, p: nat)
    requires UsersOk(w) && p < |w.users| && w.users[p].pc == Turn
    ensures I.Enabled(Abs(w), I.Return(p))
  {
    assert UserOk(w.users[p], |w.sems|, |w.shms|, w.phase, AllJoined(w.users));
    forall q | 0 <= q < |w.users| ensures Entered(w.users[q]) >= Entered(w.users[p]) {
      assert UserOk(w.users[q], |w.sems|, |w.shms|, w.phase, AllJoined(w.users));
    }
  }

  lemma Invisible(w: World, e: Event)
    requires e.Tick? && e.pid < |w.users| ==> w.users[e.pid].pc != In(Enter) && w.users[e.pid].pc != Turn
    ensures Abs(Apply(w, e)) == Abs(w)
  {
    StepMoves(w, e.pid);
    CallMoves(w, e.pid);
  }

  lemma {:induction false} LeadsOn(s: I.Ideal, before: seq<I.Move>, t: I.Ideal, after: seq<I.Move>, u: I.Ideal)
    requires I.Leads(s, before, t) && I.Leads(t, after, u)
    ensures I.Leads(s, before + after, u)
    decreases |before|
  {
    if before == [] {
      assert before + after == after;
    } else {
      assert (before + after)[1..] == before[1..] + after;
      LeadsOn(I.After(s, before[0]), before[1..], t, after, u);
    }
  }

  /** Every run of the barrier is a run of the ideal barrier. */
  lemma {:induction false} RunRefines(n: nat, events: seq<Event>) returns (moves: seq<I.Move>)
    requires 1 <= n <= MAX_INT
    ensures I.Leads(I.Start(n), moves, Abs(Run(Init(n), events)))
  {
    if events == [] {
      moves := [];
      assert Abs(Init(n)) == I.Start(n);
    } else {
      var before := events[..|events| - 1];
      var w := Run(Init(n), before);
      RunInv(n, before);
      moves := RunRefines(n, before);
      var last := EventRefines(w, events[|events| - 1]);
      LeadsOn(I.Start(n), moves, Abs(w), last, Abs(Run(Init(n), events)));
      moves := moves + last;
    }
  }
}
