/** What a step does to the user that takes it, leaving the shared objects aside. */
module BarrierMoves {
  import opened Barrier

  /** The local variable a critical section computes. */
  function Flag(w: World, p: nat, s: Section): bool
    requires p < |w.users|
  {
    var d := Shm(w, p);
    match s
    case Attach => false
    case Join => false
    case Poll => d.nUsers >= |w.users|
    case Enter => Inc64(d.count) == |w.users|
    case Spin => d.sharedSense != w.users[p].sense
    case Depart => d.nUsers == 1
  }

  /** u becomes v; `flag` is what it computed if it ran a critical section. */
  predicate Moves(u: User, v: User, flag: bool) {
    match u.pc
    case Start => v.pc == Want(Attach) && Same(u, v)
    case Want(s) => v.pc == In(s) && Same(u, v)
    case In(s) => v.pc == Post(s, flag) && Same(u, v)
    case Post(s, f) => v.pc == After(s, f) && Same(u, v)
    case Ready => (v.pc == Want(Enter) || v.pc == Want(Depart)) && Same(u, v)
    case Turn => v.pc == Ready && v.round == u.round + 1 && v.sense != u.sense
    case UnlinkSem => v.pc == UnlinkShm && Same(u, v)
    case UnlinkShm => v.pc == Gone && Same(u, v)
    case Gone => false
  }

  predicate Same(u: User, v: User) { u.round == v.round && u.sense == v.sense }

  predicate MovesIn(w: World, p: nat, w': World) {
    && p < |w.users| && |w'.users| == |w.users|
    && w'.users == w.users[p := w'.users[p]]
    && Moves(w.users[p], w'.users[p],
             if w.users[p].pc.In? then Flag(w, p, w.users[p].pc.section) else false)
  }

  lemma BodyMoves(w: World, p: nat)
    requires p < |w.users| && w.users[p].pc.In?
    ensures MovesIn(w, p, Step(w, p))
  {
  }

  lemma StepMoves(w: World, p: nat)
    ensures Step(w, p) == w || MovesIn(w, p, Step(w, p))
  {
    if p < |w.users| && w.users[p].pc.In? {
      BodyMoves(w, p);
    }
  }

  lemma CallMoves(w: World, p: nat)
    ensures CallWait(w, p) == w || MovesIn(w, p, CallWait(w, p))
    ensures CallLeave(w, p) == w || MovesIn(w, p, CallLeave(w, p))
  {
  }
}
