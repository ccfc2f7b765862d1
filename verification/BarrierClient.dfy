/** What a program that runs on top of the barrier may rely on. */
module BarrierClient {
  import opened Barrier
  import opened BarrierInvariant
  import opened BarrierMoves
  import opened BarrierProgress

  /** A client's own step ends with a call into the barrier, or with none. */
  datatype Call = Stay | DoWait | DoLeave

  function Perform(w: World, p: nat, call: Call): World {
    match call
    case Stay => w
    case DoWait => CallWait(w, p)
    case DoLeave => CallLeave(w, p)
  }

  /** A client whose user is Ready has called as many Waits as the phase; everybody else has too, or
      has called one more and cannot return from it yet. */
  lemma CallsClose(w: World, p: nat)
    requires Inv(w) && p < |w.users|
    ensures w.phase <= Calls(w.users[p]) <= w.phase + 1
    ensures Calls(w.users[p]) == w.phase + 1 ==> InCall(w.users[p].pc)
    ensures w.users[p].pc.Ready? ==> Calls(w.users[p]) == w.phase
  {
    assert UserOk(w.users[p], |w.sems|, |w.shms|, w.phase, AllJoined(w.users));
  }

  /** The barrier's own steps change nobody's number of calls. */
  lemma StepCalls(w: World, p: nat)
    ensures |Step(w, p).users| == |w.users|
    ensures forall q :: 0 <= q < |w.users| ==> Calls(Step(w, p).users[q]) == Calls(w.users[q])
    ensures forall q :: 0 <= q < |w.users| ==>
      (InCall(Step(w, p).users[q].pc) ==> InCall(w.users[q].pc))
    ensures forall q :: 0 <= q < |w.users| ==>
      (Leaving(w.users[q].pc) <==> Leaving(Step(w, p).users[q].pc))
    ensures forall q :: 0 <= q < |w.users| ==>
      (Early(Step(w, p).users[q].pc) ==> Early(w.users[q].pc))
  {
    StepMoves(w, p);
  }

  /** A client that waits `rounds` times in all and then leaves moves like the program of
      BarrierProgress. */
  lemma PerformIsProgram(w: World, rounds: nat, p: nat, call: Call)
    requires p < |w.users| && w.users[p].pc.Ready?
    requires call.DoWait? ==> w.users[p].round < rounds
    requires call.DoLeave? ==> w.users[p].round >= rounds
    ensures !call.Stay? ==> Perform(w, p, call) == ProgStep(w, rounds, p)
  {
  }

  lemma PerformInv(w: World, p: nat, call: Call)
    requires Inv(w)
    ensures Inv(Perform(w, p, call))
  {
    CallInv(w, p);
  }

  /** A call moves its own user only. */
  lemma PerformOk(w: World, p: nat, call: Call)
    requires p < |w.users| && w.users[p].pc.Ready?
    ensures var w' := Perform(w, p, call);
      && |w'.users| == |w.users|
      && (forall q :: 0 <= q < |w.users| && q != p ==> w'.users[q] == w.users[q])
      && Calls(w'.users[p]) == Calls(w.users[p]) + (if call.DoWait? then 1 else 0)
      && (InCall(w'.users[p].pc) <==> call.DoWait?)
      && (Leaving(w'.users[p].pc) <==> call.DoLeave?)
  {
    PerformUser(w, p, call);
  }

  lemma PerformUser(w: World, p: nat, call: Call)
    requires p < |w.users| && w.users[p].pc.Ready?
    ensures Perform(w, p, call).users == w.users[p := w.users[p].(pc :=
      match call case Stay => Ready case DoWait => Want(Enter) case DoLeave => Want(Depart))]
  {
  }
}
