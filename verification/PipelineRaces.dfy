/**
 What the pipeline's steps read and write in shared memory, and that the two sides never race: in one
 phase neither writes what the other reads or writes, so that their steps commute.
 */
module PipelineRaces {
  import opened Basics
  import opened BarrierClient
  import opened PipelineClient
  import opened PipelineInvariant
  import opened PipelineSteps
  import opened PipelineReceiver
  import opened PipelineSystem

  /** The two slots, each with its size word; and the name and the extent of the buffers. */
  datatype Location = Slot0 | Slot1 | Layout

  const EVERYTHING := {Slot0, Slot1, Layout}

  function SlotAt(i: nat): Location { if i % 2 == 0 then Slot0 else Slot1 }

  function SenderReads(s: Sender): set<Location> {
    match s.pc
    case STruncate => {Layout}
    case SResize => {Layout}
    case SZero => {Layout}
    case SAttach => {Layout}
    case SCopy => if s.j < s.size then {Layout} else {}
    case SPublish => {Layout}
    case _ => {}
  }

  function SenderWrites(k: Config, s: Sender): set<Location> {
    match s.pc
    case STruncate => EVERYTHING
    case SResize => EVERYTHING
    case SZero => if s.j < 2 + 2 * k.bufferSize then {Slot0, Slot1} else {}
    case SCopy => if s.j < s.size then {SlotAt(s.i)} else {}
    case SPublish => {SlotAt(s.i)}
    case _ => {}
  }

  function ReceiverReads(k: Config, r: Receiver): set<Location> {
    match r.pc
    case RCreate => {Layout}
    case RZero => {Layout}
    case RAttach => {Layout}
    case RBody => {Layout, SlotAt(r.i + 1)}
    case RCopy => if r.j < r.size then {Layout, SlotAt(r.i + 1)} else {}
    case RTally => if k.bench.ShmBench? then {Layout, SlotAt(r.i + 1)} else {}
    case _ => {}
  }

  function ReceiverWrites(k: Config, r: Receiver): set<Location> {
    match r.pc
    case RCreate => EVERYTHING
    case RZero => if r.j < 2 + 2 * k.bufferSize then {Slot0, Slot1} else {}
    case RFinish => if k.bench.ShmBench? then {Layout} else {}
    case _ => {}
  }

  // ---------------------------------------------------------------- these are all the accesses

  predicate SameExtent(a: Buffer, b: Buffer) { |a.sizes| == |b.sizes| && |a.bytes| == |b.bytes| }

  predicate SameLayout(c: Client, d: Client) {
    && c.name == d.name && |c.objs| == |d.objs|
    && forall id :: 0 <= id < |c.objs| ==> SameExtent(c.objs[id], d.objs[id])
  }

  /** The cells of a slot hold the same, as far as both buffers have them. */
  predicate SameCells(k: Config, a: Buffer, b: Buffer, first: bool) {
    && (forall x :: 0 <= x < |a.sizes| && x < |b.sizes| && (x == 0 <==> first) ==> a.sizes[x] == b.sizes[x])
    && (forall x :: 0 <= x < |a.bytes| && x < |b.bytes| && (x < k.bufferSize <==> first) ==> a.bytes[x] == b.bytes[x])
  }

  predicate SameSlot(k: Config, c: Client, d: Client, first: bool) {
    forall id :: 0 <= id < |c.objs| && id < |d.objs| ==> SameCells(k, c.objs[id], d.objs[id], first)
  }

  predicate Same(k: Config, c: Client, d: Client, at: Location) {
    match at
    case Slot0 => SameSlot(k, c, d, true)
    case Slot1 => SameSlot(k, c, d, false)
    case Layout => SameLayout(c, d)
  }

  lemma ByteFrame(k: Config, c: Client, id: nat, x: nat, b: Byte)
    ensures SameLayout(c, WriteByte(c, id, x, b))
    ensures SameSlot(k, c, WriteByte(c, id, x, b), !(x < k.bufferSize))
  {
  }

  lemma SizeFrame(k: Config, c: Client, id: nat, slot: nat, n: nat)
    ensures SameLayout(c, WriteSize(c, id, slot, n))
    ensures SameSlot(k, c, WriteSize(c, id, slot, n), slot != 0)
  {
  }

  lemma SlotStartIs(k: Config, i: nat)
    ensures SlotStart(k, i) == if i % 2 == 0 then 0 else k.bufferSize
  {
  }

  lemma CopyFrame(k: Config, c: Client)
    requires Valid(k) && SenderOk(k, c.s) && c.s.pc.SCopy? && c.s.j < c.s.size
    ensures var c' := SenderStep(k, c).0; SameLayout(c, c') && SameSlot(k, c, c', c.s.i % 2 != 0)
  {
    var s := c.s;
    SlotStartIs(k, s.i);
    if s.sent + s.j < |k.data| {
      ByteFrame(k, c, s.map_, SlotStart(k, s.i) + s.j, k.data[s.sent + s.j]);
    }
  }

  lemma PublishFrame(k: Config, c: Client)
    requires Valid(k) && c.s.pc.SPublish?
    ensures var c' := SenderStep(k, c).0; SameLayout(c, c') && SameSlot(k, c, c', c.s.i % 2 != 0)
  {
    SizeFrame(k, c, c.s.map_, c.s.i % 2, c.s.size);
  }

  lemma ZeroFrame(k: Config, c: Client, id: nat, j: nat)
    ensures SameLayout(c, ZeroCell(c, id, j))
  {
    if j < 2 {
      SizeFrame(k, c, id, j, 0);
    } else {
      ByteFrame(k, c, id, j - 2, 0);
    }
  }

  /** A location the sender's step does not write is afterwards as it was. */
  lemma SenderWritesOnly(k: Config, c: Client, at: Location)
    requires Valid(k) && SenderOk(k, c.s) && at !in SenderWrites(k, c.s)
    ensures Same(k, c, SenderStep(k, c).0, at)
  {
    match c.s.pc
    case SZero => ZeroFrame(k, c, c.s.map_, c.s.j);
    case SCopy =>
      if c.s.j < c.s.size {
        CopyFrame(k, c);
      }
    case SPublish => PublishFrame(k, c);
    case _ =>
  }

  lemma ReceiverWritesOnly(k: Config, c: Client, at: Location)
    requires Valid(k) && at !in ReceiverWrites(k, c.r)
    ensures Same(k, c, ReceiverStep(k, c).0, at)
  {
    if c.r.pc.RZero? {
      ZeroFrame(k, c, c.r.map_, c.r.j);
    }
  }

  /** What a step does to its own process, to the barrier and to the fault flag. */
  predicate SameSenderEffect(a: (Client, Call), b: (Client, Call)) {
    a.0.s == b.0.s && a.0.fault == b.0.fault && a.1 == b.1
  }

  predicate SameReceiverEffect(a: (Client, Call), b: (Client, Call)) {
    a.0.r == b.0.r && a.0.fault == b.0.fault && a.1 == b.1
  }

  lemma ZeroReads(c: Client, d: Client, id: nat, j: nat)
    requires SameLayout(c, d) && c.fault == d.fault
    ensures ZeroCell(c, id, j).fault == ZeroCell(d, id, j).fault
  {
  }

  lemma WritingReads(k: Config, c: Client, d: Client)
    requires Valid(k) && c.s == d.s && c.fault == d.fault && SameLayout(c, d)
    requires c.s.pc.SCopy? || c.s.pc.SPublish?
    ensures SameSenderEffect(SenderStep(k, c), SenderStep(k, d))
  {
  }

  /** What the sender does does not depend on any location that it does not read. */
  lemma SenderReadsOnly(k: Config, c: Client, d: Client)
    requires Valid(k) && c.s == d.s && c.fault == d.fault
    requires forall at <- SenderReads(c.s) :: Same(k, c, d, at)
    ensures SameSenderEffect(SenderStep(k, c), SenderStep(k, d))
  {
    assert Layout in SenderReads(c.s) ==> Same(k, c, d, Layout);
    match c.s.pc
    case SZero => ZeroReads(c, d, c.s.map_, c.s.j);
    case SCopy =>
      if c.s.j < c.s.size {
        WritingReads(k, c, d);
      }
    case SPublish => WritingReads(k, c, d);
    case _ =>
  }

  lemma ByteReads(k: Config, c: Client, d: Client, id: nat, x: nat)
    requires SameLayout(c, d) && SameSlot(k, c, d, x < k.bufferSize)
    ensures ByteAt(c, id, x) == ByteAt(d, id, x)
  {
    if id < |c.objs| {
      assert SameCells(k, c.objs[id], d.objs[id], x < k.bufferSize) && SameExtent(c.objs[id], d.objs[id]);
    }
  }

  lemma SizeReads(k: Config, c: Client, d: Client, id: nat, slot: nat)
    requires SameLayout(c, d) && SameSlot(k, c, d, slot == 0)
    ensures SizeAt(c, id, slot) == SizeAt(d, id, slot)
  {
    if id < |c.objs| {
      assert SameCells(k, c.objs[id], d.objs[id], slot == 0) && SameExtent(c.objs[id], d.objs[id]);
    }
  }

  lemma CopyReads(k: Config, c: Client, d: Client)
    requires Valid(k) && ReceiverOk(k, c.r) && c.r == d.r && c.fault == d.fault && c.r.pc.RCopy? && c.r.j < c.r.size
    requires SameLayout(c, d) && Same(k, c, d, SlotAt(c.r.i + 1))
    ensures SameReceiverEffect(ReceiverStep(k, c), ReceiverStep(k, d))
  {
    SlotStartIs(k, c.r.i + 1);
    ByteReads(k, c, d, c.r.map_, SlotStart(k, c.r.i + 1) + c.r.j);
    ByteDecides(k, c, d);
  }

  lemma ByteDecides(k: Config, c: Client, d: Client)
    requires Valid(k) && c.r == d.r && c.fault == d.fault && c.r.pc.RCopy? && c.r.j < c.r.size
    requires ByteAt(c, c.r.map_, SlotStart(k, c.r.i + 1) + c.r.j) == ByteAt(d, c.r.map_, SlotStart(k, c.r.i + 1) + c.r.j)
    ensures SameReceiverEffect(ReceiverStep(k, c), ReceiverStep(k, d))
  {
  }

  lemma WordReads(k: Config, c: Client, d: Client)
    requires Valid(k) && c.r == d.r && c.fault == d.fault && (c.r.pc.RBody? || c.r.pc.RTally?)
    requires SameLayout(c, d) && Same(k, c, d, SlotAt(c.r.i + 1))
    ensures SameReceiverEffect(ReceiverStep(k, c), ReceiverStep(k, d))
  {
    SizeReads(k, c, d, c.r.map_, (c.r.i + 1) % 2);
  }

  lemma ReadingReads(k: Config, c: Client, d: Client)
    requires Valid(k) && ReceiverOk(k, c.r) && c.r == d.r && c.fault == d.fault
    requires c.r.pc.RBody? || c.r.pc.RCopy? || c.r.pc.RTally?
    requires forall at <- ReceiverReads(k, c.r) :: Same(k, c, d, at)
    ensures SameReceiverEffect(ReceiverStep(k, c), ReceiverStep(k, d))
  {
    var at := SlotAt(c.r.i + 1);
    if at in ReceiverReads(k, c.r) {
      assert Same(k, c, d, at) && Same(k, c, d, Layout);
      if c.r.pc.RCopy? {
        CopyReads(k, c, d);
      } else {
        WordReads(k, c, d);
      }
    }
  }

  /** The same for the receiver. */
  lemma ReceiverReadsOnly(k: Config, c: Client, d: Client)
    requires Valid(k) && ReceiverOk(k, c.r) && c.r == d.r && c.fault == d.fault
    requires forall at <- ReceiverReads(k, c.r) :: Same(k, c, d, at)
    ensures SameReceiverEffect(ReceiverStep(k, c), ReceiverStep(k, d))
  {
    if c.r.pc.RBody? || c.r.pc.RCopy? || c.r.pc.RTally? {
      ReadingReads(k, c, d);
    } else {
      assert Layout in ReceiverReads(k, c.r) ==> Same(k, c, d, Layout);
      if c.r.pc.RZero? {
        ZeroReads(c, d, c.r.map_, c.r.j);
      }
    }
  }

  // ---------------------------------------------------------------- no conflict in one phase

  /** Neither side writes what the other reads or writes, and only one of them writes at all. */
  predicate Apart(k: Config, s: Sender, r: Receiver) {
    && SenderWrites(k, s) !! (ReceiverReads(k, r) + ReceiverWrites(k, r))
    && ReceiverWrites(k, r) !! (SenderReads(s) + SenderWrites(k, s))
    && (SenderWrites(k, s) == {} || ReceiverWrites(k, r) == {})
  }

  lemma CallsApart(k: Config, s: Sender, r: Receiver)
    requires Valid(k) && SenderOk(k, s) && ReceiverOk(k, r)
    requires SenderCalls(k, s) == ReceiverCalls(k, r)
    ensures Apart(k, s, r)
  {
    if s.iter == r.iter {
      ApartInIteration(k, s, r);
    } else {
      ApartAcross(k, s, r);
    }
  }

  predicate InLoop(s: Sender) { s.pc.SCopy? || s.pc.SPublish? }

  lemma ApartInIteration(k: Config, s: Sender, r: Receiver)
    requires Valid(k) && SenderOk(k, s) && ReceiverOk(k, r) && s.iter == r.iter
    requires SenderCalls(k, s) == ReceiverCalls(k, r)
    ensures Apart(k, s, r)
  {
    if InLoop(s) {
      LoopApart(k, s, r);
    }
  }

  lemma LoopApart(k: Config, s: Sender, r: Receiver)
    requires Valid(k) && SenderOk(k, s) && ReceiverOk(k, r) && s.iter == r.iter && InLoop(s)
    requires SenderCalls(k, s) == ReceiverCalls(k, r)
    ensures Apart(k, s, r)
  {
    SameBody(k, s, r);
    SlotsDiffer(s.i);
  }

  lemma SlotsDiffer(i: nat)
    ensures SlotAt(i) != SlotAt(i + 1)
  {
  }

  /** While the sender fills a slot, the receiver reads in the body of the same index, if at all. */
  lemma SameBody(k: Config, s: Sender, r: Receiver)
    requires Valid(k) && s.iter == r.iter && InLoop(s) && s.i < Pipeline(k)
    requires SenderCalls(k, s) == ReceiverCalls(k, r)
    ensures ReceiverWrites(k, r) == {}
    ensures r.pc.RBody? || r.pc.RCopy? || r.pc.RTally? ==> r.i == s.i
    ensures !r.pc.RAttach?
  {
  }

  /** In different iterations, one of the two is between its loop and its next preparations. */
  lemma ApartAcross(k: Config, s: Sender, r: Receiver)
    requires Valid(k) && SenderOk(k, s) && ReceiverOk(k, r) && s.iter != r.iter
    requires SenderCalls(k, s) == ReceiverCalls(k, r)
    ensures Apart(k, s, r)
  {
    if s.iter < r.iter {
      BaseMonotone(k, s.iter, r.iter);
      assert SenderReads(s) == {} == SenderWrites(k, s);
    } else {
      BaseMonotone(k, r.iter, s.iter);
      assert ReceiverReads(k, r) == {} && (ReceiverWrites(k, r) == {} || SenderReads(s) == {} == SenderWrites(k, s));
    }
  }

  /** The two sides never conflict in the same phase: not at once, and not at two different moments
      either, not even in two different runs. */
  lemma PhasesApart(k: Config, a: seq<nat>, b: seq<nat>)
    requires Valid(k)
    ensures var y, z := SysRun(k, PipelineSystem.Start(k), a), SysRun(k, PipelineSystem.Start(k), b);
      && |y.w.users| == |z.w.users| == 2
      && (y.w.users[SENDER].pc.Ready? && z.w.users[RECEIVER].pc.Ready? && y.w.phase == z.w.phase ==>
            Apart(k, y.c.s, z.c.r))
  {
    StartOk(k);
    SysRunOk(k, PipelineSystem.Start(k), a);
    SysRunOk(k, PipelineSystem.Start(k), b);
    var y, z := SysRun(k, PipelineSystem.Start(k), a), SysRun(k, PipelineSystem.Start(k), b);
    SysClose(k, y);
    SysClose(k, z);
    if y.w.users[SENDER].pc.Ready? && z.w.users[RECEIVER].pc.Ready? && y.w.phase == z.w.phase {
      CallsApart(k, y.c.s, z.c.r);
    }
  }

  // ---------------------------------------------------------------- the steps commute

  /** A side that writes nothing changes its own state only. */
  lemma SenderKeepsOut(k: Config, c: Client)
    requires Valid(k) && SenderWrites(k, c.s) == {}
    ensures var c' := SenderStep(k, c).0; c' == c.(s := c'.s, fault := c'.fault)
  {
  }

  lemma ReceiverKeepsOut(k: Config, c: Client)
    requires Valid(k) && ReceiverWrites(k, c.r) == {}
    ensures var c' := ReceiverStep(k, c).0; c' == c.(r := c'.r, fault := c'.fault)
  {
  }

  lemma SenderIgnoresReceiver(k: Config, c: Client, r: Receiver)
    requires Valid(k)
    ensures SenderStep(k, c.(r := r)) == (SenderStep(k, c).0.(r := r), SenderStep(k, c).1)
  {
    match c.s.pc
    case STruncate => FileIgnoresReceiver(k, c, r);
    case SResize => FileIgnoresReceiver(k, c, r);
    case SZero => FileIgnoresReceiver(k, c, r);
    case SCopy => LoopIgnoresReceiver(k, c, r);
    case SPublish => LoopIgnoresReceiver(k, c, r);
    case _ => OthersIgnoreReceiver(k, c, r);
  }

  lemma FileIgnoresReceiver(k: Config, c: Client, r: Receiver)
    requires Valid(k) && (c.s.pc.STruncate? || c.s.pc.SResize? || c.s.pc.SZero?)
    ensures SenderStep(k, c.(r := r)) == (SenderStep(k, c).0.(r := r), SenderStep(k, c).1)
  {
  }

  lemma LoopIgnoresReceiver(k: Config, c: Client, r: Receiver)
    requires Valid(k) && InLoop(c.s)
    ensures SenderStep(k, c.(r := r)) == (SenderStep(k, c).0.(r := r), SenderStep(k, c).1)
  {
  }

  lemma OthersIgnoreReceiver(k: Config, c: Client, r: Receiver)
    requires Valid(k) && !InLoop(c.s) && !c.s.pc.STruncate? && !c.s.pc.SResize? && !c.s.pc.SZero?
    ensures SenderStep(k, c.(r := r)) == (SenderStep(k, c).0.(r := r), SenderStep(k, c).1)
  {
  }

  lemma ReceiverIgnoresSender(k: Config, c: Client, s: Sender)
    requires Valid(k)
    ensures ReceiverStep(k, c.(s := s)) == (ReceiverStep(k, c).0.(s := s), ReceiverStep(k, c).1)
  {
    match c.r.pc
    case RCreate => CreateIgnoresSender(k, c, s);
    case RZero => CreateIgnoresSender(k, c, s);
    case RBody => LoopIgnoresSender(k, c, s);
    case RCopy => LoopIgnoresSender(k, c, s);
    case RTally => LoopIgnoresSender(k, c, s);
    case _ => OthersIgnoreSender(k, c, s);
  }

  lemma CreateIgnoresSender(k: Config, c: Client, s: Sender)
    requires Valid(k) && (c.r.pc.RCreate? || c.r.pc.RZero?)
    ensures ReceiverStep(k, c.(s := s)) == (ReceiverStep(k, c).0.(s := s), ReceiverStep(k, c).1)
  {
  }

  lemma LoopIgnoresSender(k: Config, c: Client, s: Sender)
    requires Valid(k) && (c.r.pc.RBody? || c.r.pc.RCopy? || c.r.pc.RTally?)
    ensures ReceiverStep(k, c.(s := s)) == (ReceiverStep(k, c).0.(s := s), ReceiverStep(k, c).1)
  {
  }

  lemma OthersIgnoreSender(k: Config, c: Client, s: Sender)
    requires Valid(k) && !c.r.pc.RCreate? && !c.r.pc.RZero? && !c.r.pc.RBody? && !c.r.pc.RCopy? && !c.r.pc.RTally?
    ensures ReceiverStep(k, c.(s := s)) == (ReceiverStep(k, c).0.(s := s), ReceiverStep(k, c).1)
  {
  }

  /** It makes no difference who goes first, neither for the state nor for the calls of the barrier. */
  predicate Commute(k: Config, c: Client)
    requires Valid(k)
  {
    var (afterS, callS) := SenderStep(k, c);
    var (afterR, callR) := ReceiverStep(k, c);
    && ReceiverStep(k, afterS) == (SenderStep(k, afterR).0, callR)
    && SenderStep(k, afterR).1 == callS
  }

  lemma ReaderCommutes(k: Config, c: Client)
    requires Valid(k) && ReceiverOk(k, c.r) && SenderOk(k, c.s) && Apart(k, c.s, c.r)
    requires ReceiverWrites(k, c.r) == {}
    requires !c.fault && !SenderStep(k, c).0.fault && !ReceiverStep(k, c).0.fault
    requires SenderStep(k, c).0.r == c.r
    ensures Commute(k, c)
  {
    var afterS := SenderStep(k, c).0;
    forall at <- ReceiverReads(k, c.r)
      ensures Same(k, c, afterS, at)
    {
      SenderWritesOnly(k, c, at);
    }
    ReceiverReadsOnly(k, c, afterS);
    ReceiverKeepsOut(k, c);
    ReceiverKeepsOut(k, afterS);
    SenderIgnoresReceiver(k, c, ReceiverStep(k, c).0.r);
  }

  lemma WriterCommutes(k: Config, c: Client)
    requires Valid(k) && ReceiverOk(k, c.r) && SenderOk(k, c.s) && Apart(k, c.s, c.r)
    requires SenderWrites(k, c.s) == {}
    requires !c.fault && !SenderStep(k, c).0.fault && !ReceiverStep(k, c).0.fault
    requires ReceiverStep(k, c).0.s == c.s
    ensures Commute(k, c)
  {
    var afterR := ReceiverStep(k, c).0;
    forall at <- SenderReads(c.s)
      ensures Same(k, c, afterR, at)
    {
      ReceiverWritesOnly(k, c, at);
    }
    SenderReadsOnly(k, c, afterR);
    SenderKeepsOut(k, c);
    SenderKeepsOut(k, afterR);
    ReceiverIgnoresSender(k, c, SenderStep(k, c).0.s);
  }

  /** Whenever both sides are between two calls of the barrier, their next steps commute. */
  lemma StepsCommute(k: Config, schedule: seq<nat>)
    requires Valid(k)
    ensures var y := SysRun(k, PipelineSystem.Start(k), schedule);
      |y.w.users| == 2 && (y.w.users[SENDER].pc.Ready? && y.w.users[RECEIVER].pc.Ready? ==> Commute(k, y.c))
  {
    StartOk(k);
    SysRunOk(k, PipelineSystem.Start(k), schedule);
    var y := SysRun(k, PipelineSystem.Start(k), schedule);
    if y.w.users[SENDER].pc.Ready? && y.w.users[RECEIVER].pc.Ready? {
      SysClose(k, y);
      ReadyCommute(k, y.c);
    }
  }

  lemma ReadyCommute(k: Config, c: Client)
    requires Valid(k) && ClientOk(k, c) && Close(k, c) && SenderCalls(k, c.s) == ReceiverCalls(k, c.r)
    ensures Commute(k, c)
  {
    CallsApart(k, c.s, c.r);
    SenderOkStep(k, c);
    ReceiverOkStep(k, c);
    if ReceiverWrites(k, c.r) == {} {
      SenderLocal(k, c);
      ReaderCommutes(k, c);
    } else {
      ReceiverCounts(k, c);
      WriterCommutes(k, c);
    }
  }
}
