/**
 The invariant of the barrier holds in every reachable world. Each of its three parts is followed
 through the steps that touch it; the parts meet in StepInv.
 */
module BarrierInvariant {
  import opened Basics
  import opened Barrier

  /** User p of w, on its own. */
  predicate SelfOk(w: World, p: nat) {
    p < |w.users| && UserOk(w.users[p], |w.sems|, |w.shms|, w.phase, AllJoined(w.users))
  }

  // ---------------------------------------------------------------- one user changes from u to v

  /** The semaphore and the two counters keep pace with the users they count. */
  lemma SharedKeeps(w: World, w': World, p: nat, v: User)
    requires SharedOk(w) && p < |w.users| && w'.users == w.users[p := v]
    requires w'.phase == w.phase && |w.sems| == |w'.sems| == 1 && |w'.shms| == |w.shms|
    requires w'.sems[0] + One(Holding, v) == w.sems[0] + One(Holding, w.users[p])
    requires |w.shms| == 1 ==>
      var d, d' := w.shms[0], w'.shms[0];
      && d'.nUsers + One(Member, w.users[p]) == d.nUsers + One(Member, v)
      && d'.count + One(Waiting(w.phase), w.users[p]) == d.count + One(Waiting(w.phase), v)
      && d'.count < |w.users| && d'.sharedSense == d.sharedSense
    ensures SharedOk(w')
  {
    CountUpdate(Holding, w.users, p, v);
    CountUpdate(Member, w.users, p, v);
    CountUpdate(Waiting(w.phase), w.users, p, v);
  }

  lemma NamesKeep(w: World, w': World, p: nat, v: User)
    requires NamesOk(w) && p < |w.users| && w'.users == w.users[p := v]
    requires |w'.sems| == |w.sems| && |w'.shms| == |w.shms|
    requires w'.semName == w.semName && w'.shmName == w.shmName
    requires w'.semUnlinks == w.semUnlinks && w'.shmUnlinks == w.shmUnlinks
    requires One(Leaver, v) == One(Leaver, w.users[p])
    requires One(ClosingSem, v) == One(ClosingSem, w.users[p])
    requires One(ClosingShm, v) == One(ClosingShm, w.users[p])
    ensures NamesOk(w')
  {
    CountUpdate(Leaver, w.users, p, v);
    CountUpdate(ClosingSem, w.users, p, v);
    CountUpdate(ClosingShm, w.users, p, v);
  }

  lemma UsersKeep(w: World, w': World, p: nat, v: User)
    requires UsersOk(w) && p < |w.users| && w'.users == w.users[p := v]
    requires w'.phase == w.phase
    requires |w.sems| == 1 ==> |w'.sems| == 1
    requires |w.shms| == 1 ==> |w'.shms| == 1
    requires One(Joiner, v) >= One(Joiner, w.users[p])
    requires UserOk(v, |w'.sems|, |w'.shms|, w'.phase, AllJoined(w'.users))
    ensures UsersOk(w')
  {
    CountUpdate(Joiner, w.users, p, v);
    CountRange(Joiner, w'.users);
    forall i | 0 <= i < |w'.users|
      ensures UserOk(w'.users[i], |w'.sems|, |w'.shms|, w'.phase, AllJoined(w'.users))
    {
      assert i != p ==> UserOk(w.users[i], |w.sems|, |w.shms|, w.phase, AllJoined(w.users));
    }
  }

  // ---------------------------------------------------------------- steps that change no counter

  predicate SameRole(u: User, v: User, phase: nat) {
    && One(Joiner, u) == One(Joiner, v)
    && One(Leaver, u) == One(Leaver, v)
    && One(Member, u) == One(Member, v)
    && One(ClosingSem, u) == One(ClosingSem, v)
    && One(ClosingShm, u) == One(ClosingShm, v)
    && One(Waiting(phase), u) == One(Waiting(phase), v)
  }

  /** A step between program points of the same role, which may take or return the semaphore. */
  lemma QuietStep(w: World, p: nat, v: User, sems: seq<nat>)
    requires Inv(w) && p < |w.users| && |sems| == |w.sems| == 1
    requires SameRole(w.users[p], v, w.phase)
    requires UserOk(v, |w.sems|, |w.shms|, w.phase, AllJoined(w.users))
    requires sems[0] + One(Holding, v) == w.sems[0] + One(Holding, w.users[p])
    ensures Inv(w.(users := w.users[p := v], sems := sems))
  {
    var w' := w.(users := w.users[p := v], sems := sems);
    CountUpdate(Joiner, w.users, p, v);
    SharedKeeps(w, w', p, v);
    NamesKeep(w, w', p, v);
    UsersKeep(w, w', p, v);
  }

  /** n_users_ reaches n only once everybody has joined. */
  lemma FullMembership(w: World)
    requires SharedOk(w) && |w.shms| == 1
    ensures w.shms[0].nUsers >= |w.users| ==> AllJoined(w.users)
  {
    CountRange(Member, w.users);
    CountRange(Joiner, w.users);
  }

  lemma WaitUser(u: User, s: Section, sems: nat, shms: nat, phase: nat, everybody: bool)
    requires UserOk(u, sems, shms, phase, everybody) && u.pc == Want(s)
    ensures var v := u.(pc := In(s)); SameRole(u, v, phase) && UserOk(v, sems, shms, phase, everybody)
  {
  }

  lemma PostRole(u: User, s: Section, flag: bool, phase: nat)
    requires u.pc == Post(s, flag)
    ensures SameRole(u, u.(pc := After(s, flag)), phase) && !Critical(After(s, flag))
  {
  }

  lemma PostUser(u: User, s: Section, flag: bool, sems: nat, shms: nat, phase: nat, everybody: bool)
    requires UserOk(u, sems, shms, phase, everybody) && u.pc == Post(s, flag)
    ensures UserOk(u.(pc := After(s, flag)), sems, shms, phase, everybody)
  {
  }

  lemma ReadUser(u: User, s: Section, flag: bool, sems: nat, shms: nat, phase: nat, everybody: bool)
    requires UserOk(u, sems, shms, phase, everybody) && u.pc == In(s) && (s.Poll? || s.Spin?)
    requires if s.Poll? then flag ==> everybody else flag == (!Even(phase) != u.sense)
    ensures var v := u.(pc := Post(s, flag));
      SameRole(u, v, phase) && UserOk(v, sems, shms, phase, everybody)
  {
  }

  lemma TurnUser(u: User, sems: nat, shms: nat, phase: nat, everybody: bool)
    requires UserOk(u, sems, shms, phase, everybody) && u.pc == Turn
    ensures var v := u.(pc := Ready, sense := !u.sense, round := u.round + 1);
      SameRole(u, v, phase) && UserOk(v, sems, shms, phase, everybody)
  {
  }

  /** Taking the semaphore. */
  lemma WaitInv(w: World, p: nat, s: Section)
    requires Inv(w) && p < |w.users| && w.users[p].pc == Want(s)
    ensures Inv(SemWait(w, p, s))
  {
    WaitUser(w.users[p], s, |w.sems|, |w.shms|, w.phase, AllJoined(w.users));
    if w.sems[0] > 0 {
      QuietStep(w, p, w.users[p].(pc := In(s)), w.sems[0 := w.sems[0] - 1]);
    }
  }

  /** Returning the semaphore. */
  lemma PostInv(w: World, p: nat, s: Section, flag: bool)
    requires Inv(w) && p < |w.users| && w.users[p].pc == Post(s, flag)
    ensures Inv(SemPost(w, p, After(s, flag)))
  {
    PostRole(w.users[p], s, flag, w.phase);
    PostUser(w.users[p], s, flag, |w.sems|, |w.shms|, w.phase, AllJoined(w.users));
    QuietStep(w, p, w.users[p].(pc := After(s, flag)), w.sems[0 := w.sems[0] + 1]);
  }

  /** The poll and the look at the sense change nothing shared. */
  lemma ReadInv(w: World, p: nat, s: Section)
    requires Inv(w) && p < |w.users| && w.users[p].pc == In(s) && (s.Poll? || s.Spin?)
    ensures Inv(Body(w, p, s))
  {
    FullMembership(w);
    var v := Body(w, p, s).users[p];
    ReadUser(w.users[p], s, v.pc.flag, |w.sems|, |w.shms|, w.phase, AllJoined(w.users));
    QuietStep(w, p, v, w.sems);
  }

  lemma TurnInv(w: World, p: nat)
    requires Inv(w) && p < |w.users| && w.users[p].pc == Turn
    ensures Inv(Step(w, p))
  {
    TurnUser(w.users[p], |w.sems|, |w.shms|, w.phase, AllJoined(w.users));
    QuietStep(w, p, Step(w, p).users[p], w.sems);
  }

  // ---------------------------------------------------------------- constructor

  lemma NotAllLeft(w: World, p: nat)
    requires p < |w.users| && !Left(w.users[p].pc)
    ensures !AllLeft(w.users)
  {
    CountRange(Leaver, w.users);
  }

  lemma OpenShared(w: World, p: nat)
    requires SharedOk(w) && UsersOk(w) && p < |w.users| && w.users[p].pc.Start? && |w.sems| == 0
    requires w.semName == None
    ensures SharedOk(SemOpen(w, p))
  {
    var us := SemOpen(w, p).users;
    assert forall i :: 0 <= i < |us| ==> !Is(Holding, us[i]);
    CountRange(Holding, us);
    assert !Mapped(w.users[p].pc);
    var v := us[p];
    CountUpdate(Member, w.users, p, v);
    CountUpdate(Waiting(w.phase), w.users, p, v);
  }

  lemma OpenNames(w: World, p: nat)
    requires NamesOk(w) && p < |w.users| && w.users[p].pc.Start? && |w.sems| == 0
    ensures w.semName == None && NamesOk(SemOpen(w, p))
  {
    NotAllLeft(w, p);
    var v := SemOpen(w, p).users[p];
    CountUpdate(Leaver, w.users, p, v);
    CountUpdate(ClosingSem, w.users, p, v);
    CountUpdate(ClosingShm, w.users, p, v);
  }

  lemma OpenInv(w: World, p: nat)
    requires Inv(w) && p < |w.users| && w.users[p].pc.Start?
    ensures Inv(SemOpen(w, p))
  {
    if |w.sems| == 1 {
      NotAllLeft(w, p);
      QuietStep(w, p, SemOpen(w, p).users[p], w.sems);
    } else {
      OpenNames(w, p);
      OpenShared(w, p);
      OpenUsers(w, p);
    }
  }

  lemma OpenUsers(w: World, p: nat)
    requires UsersOk(w) && p < |w.users| && w.users[p].pc.Start? && |w.sems| == 0 && w.semName == None
    ensures UsersOk(SemOpen(w, p))
  {
    var w' := SemOpen(w, p);
    assert SelfOk(w, p);
    CountUpdate(Joiner, w.users, p, w'.users[p]);
    UsersKeep(w, w', p, w'.users[p]);
  }

  lemma MapShared(w: World, p: nat)
    requires SharedOk(w) && UsersOk(w) && p < |w.users| && w.users[p].pc == In(Attach) && |w.shms| == 0
    requires w.shmName == None
    ensures SharedOk(ShmOpen(w, p))
  {
    var w' := ShmOpen(w, p);
    CountUpdate(Holding, w.users, p, w'.users[p]);
    assert forall i :: 0 <= i < |w'.users| ==> !Is(Member, w'.users[i]) && !Is(Waiting(w.phase), w'.users[i]);
    CountRange(Member, w'.users);
    CountRange(Waiting(w.phase), w'.users);
  }

  lemma MapNames(w: World, p: nat)
    requires NamesOk(w) && p < |w.users| && w.users[p].pc == In(Attach) && |w.shms| == 0
    ensures w.shmName == None && NamesOk(ShmOpen(w, p))
  {
    NotAllLeft(w, p);
    var v := ShmOpen(w, p).users[p];
    CountUpdate(Leaver, w.users, p, v);
    CountUpdate(ClosingSem, w.users, p, v);
    CountUpdate(ClosingShm, w.users, p, v);
  }

  lemma MapInv(w: World, p: nat)
    requires Inv(w) && p < |w.users| && w.users[p].pc == In(Attach)
    ensures Inv(ShmOpen(w, p))
  {
    if |w.shms| == 1 {
      MapExisting(w, p);
    } else {
      MapNames(w, p);
      MapShared(w, p);
      MapUsers(w, p);
    }
  }

  lemma MapUser(u: User, phase: nat, everybody: bool)
    requires UserOk(u, 1, 1, phase, everybody) && u.pc == In(Attach)
    ensures var v := u.(pc := Post(Attach, false), shm := 0);
      SameRole(u, v, phase) && UserOk(v, 1, 1, phase, everybody)
  {
  }

  lemma MapExisting(w: World, p: nat)
    requires Inv(w) && p < |w.users| && w.users[p].pc == In(Attach) && |w.shms| == 1
    ensures Inv(ShmOpen(w, p))
  {
    NotAllLeft(w, p);
    CountRange(ClosingShm, w.users);
    assert SelfOk(w, p);
    MapUser(w.users[p], w.phase, AllJoined(w.users));
    QuietStep(w, p, w.users[p].(pc := Post(Attach, false), shm := 0), w.sems);
  }

  lemma MapUsers(w: World, p: nat)
    requires UsersOk(w) && p < |w.users| && w.users[p].pc == In(Attach) && |w.shms| == 0 && w.shmName == None
    ensures UsersOk(ShmOpen(w, p))
  {
    var w' := ShmOpen(w, p);
    assert SelfOk(w, p);
    CountUpdate(Joiner, w.users, p, w'.users[p]);
    UsersKeep(w, w', p, w'.users[p]);
  }

  lemma JoinShared(w: World, p: nat)
    requires SharedOk(w) && SelfOk(w, p) && w.users[p].pc == In(Join) && |w.users| <= MAX_INT
    ensures SharedOk(AddUser(w, p))
  {
    var w' := AddUser(w, p);
    CountRange(Member, w.users);
    SharedKeeps(w, w', p, w'.users[p]);
  }

  lemma JoinNames(w: World, p: nat)
    requires NamesOk(w) && p < |w.users| && w.users[p].pc == In(Join)
    ensures NamesOk(AddUser(w, p))
  {
    var w' := AddUser(w, p);
    NamesKeep(w, w', p, w'.users[p]);
  }

  lemma JoinUsers(w: World, p: nat)
    requires UsersOk(w) && p < |w.users| && w.users[p].pc == In(Join)
    ensures UsersOk(AddUser(w, p))
  {
    var w' := AddUser(w, p);
    UsersKeep(w, w', p, w'.users[p]);
  }

  // ---------------------------------------------------------------- Wait

  /** An arrival that is not the last one adds itself to the waiting users. */
  lemma EarlyArrivalShared(w: World, p: nat)
    requires SharedOk(w) && SelfOk(w, p) && w.users[p].pc == In(Enter) && |w.users| <= MAX_INT
    requires w.shms[0].count + 1 < |w.users|
    ensures SharedOk(Arrive(w, p))
  {
    var w' := Arrive(w, p);
    SharedKeeps(w, w', p, w'.users[p]);
  }

  lemma ArrivalNames(w: World, p: nat)
    requires NamesOk(w) && p < |w.users| && w.users[p].pc == In(Enter)
    ensures NamesOk(Arrive(w, p))
  {
    var w' := Arrive(w, p);
    NamesKeep(w, w', p, w'.users[p]);
  }

  lemma EarlyArrivalUsers(w: World, p: nat)
    requires UsersOk(w) && p < |w.users| && w.users[p].pc == In(Enter) && |w.users| <= MAX_INT
    requires Shm(w, p).count + 1 < |w.users|
    ensures UsersOk(Arrive(w, p))
  {
    var w' := Arrive(w, p);
    CountUpdate(Joiner, w.users, p, w'.users[p]);
    UsersKeep(w, w', p, w'.users[p]);
  }

  /** When the last user arrives, everybody else is waiting in the current round. */
  lemma OthersWait(w: World, p: nat)
    requires SharedOk(w) && |w.shms| == 1 && p < |w.users| && w.users[p].pc == In(Enter)
    requires w.users[p].round == w.phase && w.shms[0].count + 1 == |w.users|
    ensures forall i :: 0 <= i < |w.users| && i != p ==> Is(Waiting(w.phase), w.users[i])
  {
    var v := w.users[p].(pc := Post(Enter, false));
    CountUpdate(Waiting(w.phase), w.users, p, v);
    CountRange(Waiting(w.phase), w.users[p := v]);
    assert forall i :: 0 <= i < |w.users| && i != p ==> w.users[p := v][i] == w.users[i];
  }

  lemma LastArrivalShared(w: World, p: nat)
    requires SharedOk(w) && SelfOk(w, p) && w.users[p].pc == In(Enter) && |w.users| <= MAX_INT
    requires w.shms[0].count + 1 == |w.users|
    ensures SharedOk(Arrive(w, p))
  {
    OthersWait(w, p);
    var w' := Arrive(w, p);
    var v := w'.users[p];
    CountUpdate(Holding, w.users, p, v);
    CountUpdate(Member, w.users, p, v);
    CountRange(Waiting(w'.phase), w'.users);
  }

  /** A waiting user stays consistent when the phase moves on. */
  lemma ReleaseUser(u: User, sems: nat, shms: nat, phase: nat, everybody: bool)
    requires UserOk(u, sems, shms, phase, everybody) && Is(Waiting(phase), u)
    ensures UserOk(u, sems, shms, phase + 1, everybody)
  {
  }

  lemma LastArrivalUsers(w: World, p: nat)
    requires UsersOk(w) && SharedOk(w) && p < |w.users| && w.users[p].pc == In(Enter) && |w.users| <= MAX_INT
    requires Shm(w, p).count + 1 == |w.users|
    ensures UsersOk(Arrive(w, p))
  {
    OthersWait(w, p);
    var w' := Arrive(w, p);
    CountUpdate(Joiner, w.users, p, w'.users[p]);
    forall i | 0 <= i < |w'.users|
      ensures UserOk(w'.users[i], |w'.sems|, |w'.shms|, w'.phase, AllJoined(w'.users))
    {
      if i != p {
        ReleaseUser(w.users[i], |w.sems|, |w.shms|, w.phase, AllJoined(w.users));
      }
    }
  }

  lemma ArriveInv(w: World, p: nat)
    requires Inv(w) && p < |w.users| && w.users[p].pc == In(Enter)
    ensures Inv(Arrive(w, p))
  {
    ArrivalNames(w, p);
    if Shm(w, p).count + 1 == |w.users| {
      LastArrivalShared(w, p);
      LastArrivalUsers(w, p);
    } else {
      EarlyArrivalShared(w, p);
      EarlyArrivalUsers(w, p);
    }
  }

  // ---------------------------------------------------------------- destructor

  /** The user that reads n_users_ == 1 is the one after which everybody has left. */
  lemma LeaveCounts(w: World, p: nat)
    requires SharedOk(w) && SelfOk(w, p) && w.users[p].pc == In(Depart)
    ensures Shm(w, p).nUsers >= 1 && !AllLeft(w.users)
    ensures AllLeft(RemoveUser(w, p).users) <==> Shm(w, p).nUsers == 1
  {
    var us := RemoveUser(w, p).users;
    CountUpdate(Member, w.users, p, us[p]);
    CountUpdate(Joiner, w.users, p, us[p]);
    CountPositive(Member, w.users, p);
    CountRange(Joiner, us);
    CountRange(Leaver, w.users);
    CountRange(Leaver, us);
    CountRange(Member, us);
  }

  lemma LeaveShared(w: World, p: nat)
    requires SharedOk(w) && SelfOk(w, p) && w.users[p].pc == In(Depart)
    requires Shm(w, p).nUsers >= 1
    ensures SharedOk(RemoveUser(w, p))
  {
    var w' := RemoveUser(w, p);
    SharedKeeps(w, w', p, w'.users[p]);
  }

  lemma LeaveNames(w: World, p: nat)
    requires NamesOk(w) && p < |w.users| && w.users[p].pc == In(Depart) && !AllLeft(w.users)
    requires AllLeft(RemoveUser(w, p).users) <==> Shm(w, p).nUsers == 1
    ensures NamesOk(RemoveUser(w, p))
  {
    var v := RemoveUser(w, p).users[p];
    CountUpdate(ClosingSem, w.users, p, v);
    CountUpdate(ClosingShm, w.users, p, v);
  }

  lemma LeaveUsers(w: World, p: nat)
    requires UsersOk(w) && p < |w.users| && w.users[p].pc == In(Depart)
    ensures UsersOk(RemoveUser(w, p))
  {
    var w' := RemoveUser(w, p);
    CountUpdate(Joiner, w.users, p, w'.users[p]);
    UsersKeep(w, w', p, w'.users[p]);
  }

  lemma UnlinkNames(w: World, p: nat)
    requires NamesOk(w) && p < |w.users|
    requires w.users[p].pc.UnlinkSem? || w.users[p].pc.UnlinkShm?
    ensures NamesOk(Step(w, p))
  {
    var v := Step(w, p).users[p];
    CountUpdate(Leaver, w.users, p, v);
    CountUpdate(ClosingSem, w.users, p, v);
    CountUpdate(ClosingShm, w.users, p, v);
    if w.users[p].pc.UnlinkSem? {
      CountPositive(ClosingSem, w.users, p);
    } else {
      CountPositive(ClosingShm, w.users, p);
    }
  }

  lemma UnlinkRest(w: World, p: nat)
    requires SharedOk(w) && UsersOk(w) && p < |w.users|
    requires w.users[p].pc.UnlinkSem? || w.users[p].pc.UnlinkShm?
    ensures SharedOk(Step(w, p)) && UsersOk(Step(w, p))
  {
    var w' := Step(w, p);
    CountUpdate(Joiner, w.users, p, w'.users[p]);
    SharedKeeps(w, w', p, w'.users[p]);
    UsersKeep(w, w', p, w'.users[p]);
  }

  // ---------------------------------------------------------------- every step

  lemma BodyInv(w: World, p: nat, s: Section)
    requires Inv(w) && p < |w.users| && w.users[p].pc == In(s)
    ensures Inv(Body(w, p, s))
  {
    match s
    case Attach => MapInv(w, p);
    case Join => JoinShared(w, p); JoinNames(w, p); JoinUsers(w, p);
    case Poll => ReadInv(w, p, s);
    case Enter => ArriveInv(w, p);
    case Spin => ReadInv(w, p, s);
    case Depart => LeaveCounts(w, p); LeaveShared(w, p); LeaveNames(w, p); LeaveUsers(w, p);
  }

  lemma StepInv(w: World, p: nat)
    requires Inv(w) && p < |w.users|
    ensures Inv(Step(w, p))
  {
    match w.users[p].pc
    case Start => OpenInv(w, p);
    case Want(s) => WaitInv(w, p, s);
    case In(s) => BodyInv(w, p, s);
    case Post(s, flag) => PostInv(w, p, s, flag);
    case Turn => TurnInv(w, p);
    case UnlinkSem => UnlinkNames(w, p); UnlinkRest(w, p);
    case UnlinkShm => UnlinkNames(w, p); UnlinkRest(w, p);
    case Ready =>
    case Gone =>
  }

  lemma CallMove(w: World, p: nat, pc: PC)
    requires Inv(w) && p < |w.users| && w.users[p].pc.Ready? && (pc == Want(Enter) || pc == Want(Depart))
    ensures Inv(Goto(w, p, pc))
  {
    QuietStep(w, p, w.users[p].(pc := pc), w.sems);
  }

  lemma CallInv(w: World, p: nat)
    requires Inv(w)
    ensures Inv(CallWait(w, p)) && Inv(CallLeave(w, p))
  {
    if p < |w.users| && w.users[p].pc.Ready? {
      CallMove(w, p, Want(Enter));
      CallMove(w, p, Want(Depart));
    }
  }

  lemma SameUsers(w: World, e: Event)
    ensures |Apply(w, e).users| == |w.users|
  {
  }

  lemma ApplyInv(w: World, e: Event)
    requires Inv(w)
    ensures Inv(Apply(w, e))
  {
    match e
    case Tick(p) => if p < |w.users| { StepInv(w, p); }
    case BeginWait(p) => CallInv(w, p);
    case BeginLeave(p) => CallInv(w, p);
  }

  lemma InitInv(n: nat)
    requires 1 <= n <= MAX_INT
    ensures Inv(Init(n))
  {
    var us := Init(n).users;
    CountRange(Leaver, us);
    CountRange(ClosingSem, us);
    CountRange(ClosingShm, us);
  }

  lemma {:induction false} RunInv(n: nat, events: seq<Event>)
    requires 1 <= n <= MAX_INT
    ensures Inv(Run(Init(n), events)) && |Run(Init(n), events).users| == n
  {
    if events == [] {
      InitInv(n);
    } else {
      var before := events[..|events| - 1];
      RunInv(n, before);
      ApplyInv(Run(Init(n), before), events[|events| - 1]);
      SameUsers(Run(Init(n), before), events[|events| - 1]);
    }
  }
}
