/**
 What a barrier is for, with no shared memory in it: nobody returns from its k-th Wait before
 everybody has entered its k-th Wait.
 */
module IdealBarrier {
  /** How many Waits each user has entered, and from how many it has returned. */
  datatype Ideal = Ideal(entered: seq<nat>, returned: seq<nat>)

  datatype Move = Enter(user: nat) | Return(user: nat)

  function Start(n: nat): Ideal { Ideal(seq(n, _ => 0), seq(n, _ => 0)) }

  predicate Wf(s: Ideal) { |s.entered| == |s.returned| }

  predicate Enabled(s: Ideal, m: Move) {
    && Wf(s) && m.user < |s.entered|
    && match m
       case Enter(p) => s.entered[p] == s.returned[p]
       case Return(p) =>
         && s.entered[p] == s.returned[p] + 1
         && forall q :: 0 <= q < |s.entered| ==> s.entered[q] >= s.entered[p]
  }

  function After(s: Ideal, m: Move): Ideal
    requires Enabled(s, m)
  {
    match m
    case Enter(p) => s.(entered := s.entered[p := s.entered[p] + 1])
    case Return(p) => s.(returned := s.returned[p := s.returned[p] + 1])
  }

  /** The moves lead from s to t, each one enabled when it is made. */
  predicate Leads(s: Ideal, moves: seq<Move>, t: Ideal)
    decreases |moves|
  {
    if moves == [] then s == t
    else Enabled(s, moves[0]) && Leads(After(s, moves[0]), moves[1..], t)
  }

  /** The phase is the least number of Waits anybody has entered. */
  predicate IsPhase(s: Ideal, phase: nat) {
    && (forall q :: 0 <= q < |s.entered| ==> s.entered[q] >= phase)
    && (exists q :: 0 <= q < |s.entered| && s.entered[q] == phase)
  }

  /** What makes it a barrier: nobody has returned from more Waits than anybody else has entered, and
      everybody is in at most one Wait. */
  predicate Synchronized(s: Ideal) {
    && Wf(s)
    && (forall p, q :: 0 <= p < |s.entered| && 0 <= q < |s.entered| ==> s.returned[p] <= s.entered[q])
    && (forall p :: 0 <= p < |s.entered| ==> s.entered[p] == s.returned[p] || s.entered[p] == s.returned[p] + 1)
  }

  lemma MoveSynchronized(s: Ideal, m: Move)
    requires Synchronized(s) && Enabled(s, m)
    ensures Synchronized(After(s, m))
  {
  }

  /** Whatever moves are made, as long as each is enabled. */
  lemma {:induction false} AlwaysSynchronized(s: Ideal, moves: seq<Move>, t: Ideal)
    requires Synchronized(s) && Leads(s, moves, t)
    ensures Synchronized(t)
    decreases |moves|
  {
    if moves != [] {
      MoveSynchronized(s, moves[0]);
      AlwaysSynchronized(After(s, moves[0]), moves[1..], t);
    }
  }

  /** A user that has returned from all its Waits may enter the next one at any time; once everybody has
      entered a round, each may return from it. */
  lemma EnabledIff(s: Ideal, p: nat)
    requires Synchronized(s) && p < |s.entered|
    ensures Enabled(s, Enter(p)) <==> s.entered[p] == s.returned[p]
    ensures Enabled(s, Return(p)) <==>
      s.entered[p] > s.returned[p] && forall q :: 0 <= q < |s.entered| ==> s.entered[q] > s.returned[p]
  {
  }

  /** A move counts one entry or one return of its user, and changes nothing else. */
  lemma MoveCounts(s: Ideal, m: Move, q: nat)
    requires Enabled(s, m) && q < |s.entered|
    ensures var t := After(s, m);
      && |t.entered| == |s.entered| && |t.returned| == |s.returned|
      && t.entered[q] == s.entered[q] + (if m == Enter(q) then 1 else 0)
      && t.returned[q] == s.returned[q] + (if m == Return(q) then 1 else 0)
  {
  }
}
