/**
 The sense-reversing barrier as a state machine.

 Each of the n users runs the constructor, any number of `Wait` calls and the destructor. Every
 `sem_wait`, every critical-section body and every `sem_post` is a step of its own, and a scheduler
 picks the user that moves next. Scheduling a user that is blocked in `sem_wait` changes nothing.

 `round`, `phase`, `semUnlinks` and `shmUnlinks` are history: no step reads them.
 */
module Barrier {
  import opened Basics

  const MAX_INT: nat := 0x7FFF_FFFF
  const MAX_UINT64: nat := 0xFFFF_FFFF_FFFF_FFFF

  /** The critical sections: three in the constructor, two in Wait, one in the destructor. */
  datatype Section = Attach | Join | Poll | Enter | Spin | Depart

  /** Where a user stands. `Want` is about to `sem_wait`, `In` about to run the body of the section,
      `Post` about to `sem_post`; `flag` is the local variable that decides where it goes next
      (`all_users_joined`, `last_user`, `reversed`, `remaining_users == 1`). */
  datatype PC =
    | Start
    | Want(section: Section)
    | In(section: Section)
    | Post(section: Section, flag: bool)
    | Ready // between two calls: the client decides what comes next
    | Turn // about to reverse its own sense
    | UnlinkSem
    | UnlinkShm
    | Gone

  /** The private part of one user: its handles, its `sense_`, and (history) its completed Waits. */
  datatype User = User(pc: PC, sem: nat, shm: nat, sense: bool, round: nat)

  datatype ShmData = ShmData(count: nat, sharedSense: bool, nUsers: nat)

  /** `sems` and `shms` are the kernel objects created so far; the two names may be bound to one of
      them. `phase` counts sense reversals; the last two fields list who unlinked each name. */
  datatype World = World(
    users: seq<User>,
    sems: seq<nat>,
    shms: seq<ShmData>,
    semName: Option<nat>,
    shmName: Option<nat>,
    phase: nat,
    semUnlinks: seq<nat>,
    shmUnlinks: seq<nat>)

  function Init(n: nat): World {
    World(seq(n, _ => User(Start, 0, 0, true, 0)), [], [], None, None, 0, [], [])
  }

  // ---------------------------------------------------------------- kernel operations

  function Goto(w: World, p: nat, pc: PC): World
    requires p < |w.users|
  {
    w.(users := w.users[p := w.users[p].(pc := pc)])
  }

  /** sem_open with O_CREAT and initial value 1: an existing semaphore is opened as it is. */
  function SemOpen(w: World, p: nat): World
    requires p < |w.users|
  {
    match w.semName
    case Some(id) => w.(users := w.users[p := w.users[p].(pc := Want(Attach), sem := id)])
    case None =>
      w.(users := w.users[p := w.users[p].(pc := Want(Attach), sem := |w.sems|)],
         sems := w.sems + [1],
         semName := Some(|w.sems|))
  }

  function SemWait(w: World, p: nat, s: Section): World
    requires p < |w.users|
  {
    var id := w.users[p].sem;
    if id < |w.sems| && w.sems[id] > 0 then
      Goto(w, p, In(s)).(sems := w.sems[id := w.sems[id] - 1])
    else w
  }

  function SemPost(w: World, p: nat, next: PC): World
    requires p < |w.users|
  {
    var id := w.users[p].sem;
    if id < |w.sems| then
      Goto(w, p, next).(sems := w.sems[id := w.sems[id] + 1])
    else w
  }

  /** The shared data as user p maps it. */
  function Shm(w: World, p: nat): ShmData
    requires p < |w.users|
  {
    var id := w.users[p].shm;
    if id < |w.shms| then w.shms[id] else ShmData(0, false, 0)
  }

  function SetShm(w: World, p: nat, d: ShmData): World
    requires p < |w.users|
  {
    var id := w.users[p].shm;
    if id < |w.shms| then w.(shms := w.shms[id := d]) else w
  }

  function Inc64(x: nat): nat {
    if x >= MAX_UINT64 then 0 else x + 1
  }

  function Dec64(x: nat): nat {
    if x == 0 then MAX_UINT64 else x - 1
  }

  // ---------------------------------------------------------------- critical-section bodies

  /** shm_open with O_EXCL: the creator zeroes the data, everyone else maps what exists. */
  function ShmOpen(w: World, p: nat): World
    requires p < |w.users|
  {
    match w.shmName
    case Some(id) => w.(users := w.users[p := w.users[p].(pc := Post(Attach, false), shm := id)])
    case None =>
      w.(users := w.users[p := w.users[p].(pc := Post(Attach, false), shm := |w.shms|)],
         shms := w.shms + [ShmData(0, false, 0)],
         shmName := Some(|w.shms|))
  }

  function AddUser(w: World, p: nat): World
    requires p < |w.users|
  {
    var d := Shm(w, p);
    SetShm(Goto(w, p, Post(Join, false)), p, d.(nUsers := Inc64(d.nUsers)))
  }

  /** The first critical section of Wait: the n-th arrival reverses the sense. */
  function Arrive(w: World, p: nat): World
    requires p < |w.users|
  {
    var d := Shm(w, p);
    if Inc64(d.count) == |w.users| then
      SetShm(Goto(w, p, Post(Enter, true)), p, d.(count := 0, sharedSense := !d.sharedSense))
      .(phase := w.phase + 1)
    else
      SetShm(Goto(w, p, Post(Enter, false)), p, d.(count := Inc64(d.count)))
  }

  function RemoveUser(w: World, p: nat): World
    requires p < |w.users|
  {
    var d := Shm(w, p);
    SetShm(Goto(w, p, Post(Depart, d.nUsers == 1)), p, d.(nUsers := Dec64(d.nUsers)))
  }

  // ---------------------------------------------------------------- the machine

  /** The body of a critical section. */
  function Body(w: World, p: nat, s: Section): World
    requires p < |w.users|
  {
    match s
    case Attach => ShmOpen(w, p)
    case Join => AddUser(w, p)
    case Poll => Goto(w, p, Post(Poll, Shm(w, p).nUsers >= |w.users|))
    case Enter => Arrive(w, p)
    case Spin => Goto(w, p, Post(Spin, Shm(w, p).sharedSense != w.users[p].sense))
    case Depart => RemoveUser(w, p)
  }

  /** Where a user goes after the sem_post of a section. */
  function After(s: Section, flag: bool): PC {
    match s
    case Attach => Want(Join)
    case Join => Want(Poll)
    case Poll => if flag then Ready else Want(Poll)
    case Enter => if flag then Turn else Want(Spin)
    case Spin => if flag then Want(Spin) else Turn
    case Depart => if flag then UnlinkSem else Gone
  }

  /** User p makes its next move. A Ready or Gone user has none of its own. */
  function Step(w: World, p: nat): World {
    if p >= |w.users| then w else
      var u := w.users[p];
      match u.pc
      case Start => SemOpen(w, p)
      case Want(s) => SemWait(w, p, s)
      case In(s) => Body(w, p, s)
      case Post(s, flag) => SemPost(w, p, After(s, flag))
      case Turn =>
        w.(users := w.users[p := u.(pc := Ready, sense := !u.sense, round := u.round + 1)])
      case UnlinkSem => Goto(w, p, UnlinkShm).(semName := None, semUnlinks := w.semUnlinks + [p])
      case UnlinkShm => Goto(w, p, Gone).(shmName := None, shmUnlinks := w.shmUnlinks + [p])
      case Ready => w
      case Gone => w
  }

  /** The client of user p calls Wait. */
  function CallWait(w: World, p: nat): World {
    if p < |w.users| && w.users[p].pc == Ready then Goto(w, p, Want(Enter)) else w
  }

  /** The client of user p destroys its barrier object. */
  function CallLeave(w: World, p: nat): World {
    if p < |w.users| && w.users[p].pc == Ready then Goto(w, p, Want(Depart)) else w
  }

  /** What a scheduler and arbitrary clients may do next. */
  datatype Event = Tick(pid: nat) | BeginWait(pid: nat) | BeginLeave(pid: nat)

  function Apply(w: World, e: Event): World {
    match e
    case Tick(p) => Step(w, p)
    case BeginWait(p) => CallWait(w, p)
    case BeginLeave(p) => CallLeave(w, p)
  }

  function Run(w: World, events: seq<Event>): World {
    if events == [] then w else Apply(Run(w, events[..|events| - 1]), events[|events| - 1])
  }

  // ---------------------------------------------------------------- classes of program points

  predicate Opened(pc: PC) { !pc.Start? }

  predicate InSection(pc: PC) { pc.Want? || pc.In? || pc.Post? }

  /** Holds the semaphore. */
  predicate Critical(pc: PC) { pc.In? || pc.Post? }

  predicate Mapped(pc: PC) {
    !pc.Start? && (InSection(pc) && pc.section.Attach? ==> pc.Post?)
  }

  /** Inside the constructor. */
  predicate Early(pc: PC) {
    pc.Start? || (InSection(pc) && (pc.section.Attach? || pc.section.Join? || pc.section.Poll?))
  }

  /** Has counted itself in n_users_. */
  predicate Joined(pc: PC) {
    && !pc.Start?
    && (InSection(pc) && pc.section.Attach? ==> false)
    && (InSection(pc) && pc.section.Join? ==> pc.Post?)
  }

  /** Knows that everybody joined. */
  predicate Past(pc: PC) { !Early(pc) || pc == Post(Poll, true) }

  /** Has taken itself out of n_users_. */
  predicate Left(pc: PC) {
    (pc.Post? && pc.section.Depart?) || pc.UnlinkSem? || pc.UnlinkShm? || pc.Gone?
  }

  predicate Leaving(pc: PC) { Left(pc) || (InSection(pc) && pc.section.Depart?) }

  /** Has counted itself in count_ for its current Wait. */
  predicate Arrived(pc: PC) {
    pc.Turn? || (InSection(pc) && (pc.section.Spin? || (pc.section.Enter? && pc.Post?)))
  }

  /** Has called Wait and not returned. */
  predicate InCall(pc: PC) { pc.Turn? || (InSection(pc) && (pc.section.Enter? || pc.section.Spin?)) }

  /** Waits called, and Waits in which the user has been counted. */
  function Calls(u: User): nat { u.round + if InCall(u.pc) then 1 else 0 }

  function Entered(u: User): nat { u.round + if Arrived(u.pc) then 1 else 0 }

  // ---------------------------------------------------------------- counting users

  datatype Kind =
    | Anyone | Holding | Inside | Joiner | Leaver | Member | ClosingSem | ClosingShm | Waiting(phase: nat)

  predicate Is(k: Kind, u: User) {
    match k
    case Anyone => true
    case Holding => Critical(u.pc)
    case Inside => u.pc.In?
    case Joiner => Joined(u.pc)
    case Leaver => Left(u.pc)
    case Member => Joined(u.pc) && !Left(u.pc)
    case ClosingSem => u.pc == Post(Depart, true) || u.pc.UnlinkSem?
    case ClosingShm => u.pc == Post(Depart, true) || u.pc.UnlinkSem? || u.pc.UnlinkShm?
    case Waiting(phase) => Arrived(u.pc) && u.round == phase
  }

  function One(k: Kind, u: User): nat { if Is(k, u) then 1 else 0 }

  /** The users of a kind, and how many they are. */
  function Who(k: Kind, us: seq<User>): set<nat> {
    set i: nat | i < |us| && Is(k, us[i])
  }

  function Count(k: Kind, us: seq<User>): nat { |Who(k, us)| }

  lemma SizeUpdate(s: set<nat>, t: set<nat>, p: nat)
    requires s - {p} == t - {p}
    ensures |t| + (if p in s then 1 else 0) == |s| + if p in t then 1 else 0
  {
    assert s == if p in s then (s - {p}) + {p} else s - {p};
    assert t == if p in t then (t - {p}) + {p} else t - {p};
  }

  lemma WhoUpdate(k: Kind, us: seq<User>, p: nat, v: User)
    requires p < |us|
    ensures Who(k, us[p := v]) - {p} == Who(k, us) - {p}
  {
    forall i: nat ensures i in Who(k, us[p := v]) - {p} <==> i in Who(k, us) - {p} {
      if i < |us| && i != p {
        assert us[p := v][i] == us[i];
      }
    }
  }

  lemma CountUpdate(k: Kind, us: seq<User>, p: nat, v: User)
    requires p < |us|
    ensures Count(k, us[p := v]) + One(k, us[p]) == Count(k, us) + One(k, v)
  {
    WhoUpdate(k, us, p, v);
    SizeUpdate(Who(k, us), Who(k, us[p := v]), p);
    assert p in Who(k, us) <==> Is(k, us[p]);
    assert p in Who(k, us[p := v]) <==> Is(k, us[p := v][p]);
  }

  lemma {:induction false} CountAnyone(us: seq<User>)
    ensures Count(Anyone, us) == |us|
  {
    if us != [] {
      var n := |us| - 1;
      CountAnyone(us[..n]);
      assert Who(Anyone, us) == Who(Anyone, us[..n]) + {n};
    }
  }

  lemma SubsetSize(s: set<nat>, t: set<nat>)
    requires s <= t
    ensures |s| <= |t| && (|s| == |t| ==> s == t)
  {
    assert t == s + (t - s);
    assert |t| == |s| + |t - s|;
  }

  lemma CountRange(k: Kind, us: seq<User>)
    ensures Count(k, us) <= |us|
    ensures Count(k, us) == |us| <==> forall i :: 0 <= i < |us| ==> Is(k, us[i])
    ensures Count(k, us) == 0 <==> forall i :: 0 <= i < |us| ==> !Is(k, us[i])
  {
    CountAnyone(us);
    SubsetSize(Who(k, us), Who(Anyone, us));
    assert forall i :: 0 <= i < |us| ==> i in Who(Anyone, us) && (i in Who(k, us) <==> Is(k, us[i]));
    assert (forall i :: 0 <= i < |us| ==> Is(k, us[i])) ==> Who(k, us) == Who(Anyone, us);
  }

  lemma CountExists(k: Kind, us: seq<User>) returns (i: nat)
    requires Count(k, us) > 0
    ensures i < |us| && Is(k, us[i])
  {
    CountRange(k, us);
    i :| i < |us| && Is(k, us[i]);
  }

  lemma CountPositive(k: Kind, us: seq<User>, i: nat)
    requires i < |us| && Is(k, us[i])
    ensures Count(k, us) > 0
  {
    CountRange(k, us);
  }

  // ---------------------------------------------------------------- the invariant

  predicate Even(x: nat) { x % 2 == 0 }

  predicate AllJoined(us: seq<User>) { Count(Joiner, us) == |us| }

  predicate AllLeft(us: seq<User>) { Count(Leaver, us) == |us| }

  /** What one user keeps true of itself: its handles are the shared ones, its sense is the parity
      of its round, and its round is the phase, or one less once it has been released. */
  predicate UserOk(u: User, nSems: nat, nShms: nat, phase: nat, everybody: bool) {
    && (Opened(u.pc) ==> nSems == 1 && u.sem == 0)
    && (Mapped(u.pc) ==> nShms == 1 && u.shm == 0)
    && (Early(u.pc) ==> u.round == 0)
    && (Past(u.pc) ==> everybody)
    && u.sense == Even(u.round)
    && (Arrived(u.pc) ==> u.round == phase || u.round + 1 == phase)
    && (!Arrived(u.pc) ==> u.round == phase)
    && (u.pc == Post(Enter, true) || u.pc == Post(Spin, false) || u.pc.Turn? ==> u.round + 1 == phase)
  }

  predicate UsersOk(w: World) {
    forall i :: 0 <= i < |w.users| ==>
      UserOk(w.users[i], |w.sems|, |w.shms|, w.phase, AllJoined(w.users))
  }

  predicate SharedOk(w: World) {
    && |w.sems| <= 1 && |w.shms| <= 1
    && (|w.sems| == 1 ==> w.sems[0] + Count(Holding, w.users) == 1)
    && (|w.shms| == 1 ==>
          && w.shms[0].nUsers == Count(Member, w.users)
          && w.shms[0].count == Count(Waiting(w.phase), w.users)
          && w.shms[0].count < |w.users|
          && w.shms[0].sharedSense == !Even(w.phase))
  }

  predicate NamesOk(w: World) {
    && w.semName == (if |w.sems| == 1 && w.semUnlinks == [] then Some(0) else None)
    && w.shmName == (if |w.shms| == 1 && w.shmUnlinks == [] then Some(0) else None)
    && Count(ClosingSem, w.users) + |w.semUnlinks| == (if AllLeft(w.users) then 1 else 0)
    && Count(ClosingShm, w.users) + |w.shmUnlinks| == (if AllLeft(w.users) then 1 else 0)
  }

  predicate Inv(w: World) {
    && 1 <= |w.users| <= MAX_INT
    && UsersOk(w)
    && SharedOk(w)
    && NamesOk(w)
  }
}
