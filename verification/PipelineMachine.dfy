/**
 The pipeline processes as they run: mapped buffers, counters and received data updated in place,
 one step method per side. Every method is proved against the step functions of PipelineClient, and
 Execute runs both sides on the barrier of BarrierMachine.
 */
module PipelineMachine {
  import opened Basics
  import opened Barrier
  import opened BarrierClient
  import opened PipelineClient
  import opened PipelineSystem
  import BarrierMachine

  class Machine {
    const k: Config
    var objs: seq<Buffer>
    var name: Option<nat>
    var fault: bool
    var s: Sender
    var r: Receiver

    ghost function View(): Client
      reads this
    {
      Client(s, r, objs, name, fault)
    }

    constructor (k: Config)
      ensures this.k == k && View() == InitClient(k)
    {
      this.k := k;
      objs, name, fault := [], None, false;
      s := Sender(if k.bench.MmapBench? then SBoot else SenderPC.SHead, 0, 0, 0, 0, 0, 0);
      r := Receiver(if k.bench.MmapBench? then RBoot else ReceiverPC.RHead, 0, 0, 0, 0, 0, 0, [], []);
    }

    // -------------------------------------------------------------- accesses to shared memory

    method StoreByte(id: nat, at: nat, b: Byte)
      modifies this`objs, this`fault
      ensures View() == WriteByte(old(View()), id, at, b)
    {
      if id < |objs| && at < |objs[id].bytes| {
        objs := objs[id := objs[id].(bytes := objs[id].bytes[at := b])];
      } else {
        fault := true;
      }
    }

    method StoreSize(id: nat, slot: nat, n: nat)
      modifies this`objs, this`fault
      ensures View() == WriteSize(old(View()), id, slot, n)
    {
      if id < |objs| && slot < |objs[id].sizes| {
        objs := objs[id := objs[id].(sizes := objs[id].sizes[slot := n])];
      } else {
        fault := true;
      }
    }

    method ClearCell(id: nat, j: nat)
      modifies this`objs, this`fault
      ensures View() == ZeroCell(old(View()), id, j)
    {
      if j < 2 {
        StoreSize(id, j, 0);
      } else {
        StoreByte(id, j - 2, 0);
      }
    }

    // -------------------------------------------------------------- SendProcess

    /** mmap: create or truncate the file, give it its size, zero it. */
    method PrepareFile() returns (call: Call)
      requires Valid(k) && (s.pc.STruncate? || s.pc.SResize? || s.pc.SZero?)
      modifies this
      ensures (View(), call) == SenderStep(k, old(View()))
    {
      call := Stay;
      match s.pc
      case STruncate =>
        if name.None? {
          name := Some(|objs|);
          s := s.(pc := SResize, map_ := |objs|);
          objs := objs + [Buffer([], [])];
        } else if name.value < |objs| {
          objs := objs[name.value := Buffer([], [])];
          s := s.(pc := SResize, map_ := name.value);
        } else {
          fault := true;
        }
      case SResize =>
        if s.map_ < |objs| {
          objs := objs[s.map_ := Buffer([0, 0], seq(2 * k.bufferSize, _ => 0))];
          s := s.(pc := SZero, j := 0);
          call := DoWait;
        } else {
          fault := true;
        }
      case SZero =>
        if s.j < 2 + 2 * k.bufferSize {
          ClearCell(s.map_, s.j);
          s := s.(j := s.j + 1);
        } else {
          s := s.(pc := SBegin);
          call := DoWait;
        }
    }

    /** One step inside the loop over the pipeline. */
    method SendChunk()
      requires Valid(k) && (s.pc.SBody? || s.pc.SCopy? || s.pc.SPublish?)
      modifies this
      ensures (View(), Stay) == SenderStep(k, old(View()))
    {
      match s.pc
      case SBody =>
        if s.sent <= |k.data| {
          var size := if |k.data| - s.sent <= k.bufferSize then |k.data| - s.sent else k.bufferSize;
          s := s.(pc := SCopy, size := size, j := 0);
        } else {
          fault := true;
        }
      case SCopy =>
        if s.j >= s.size {
          s := s.(pc := SPublish);
        } else if s.sent + s.j < |k.data| {
          StoreByte(s.map_, (s.i % 2) * k.bufferSize + s.j, k.data[s.sent + s.j]);
          s := s.(j := s.j + 1);
        } else {
          fault := true;
        }
      case SPublish =>
        StoreSize(s.map_, s.i % 2, s.size);
        s := s.(pc := SLoop, sent := s.sent + s.size, i := s.i + 1);
    }

    method SenderMoves() returns (call: Call)
      requires Valid(k)
      modifies this
      ensures (View(), call) == SenderStep(k, old(View()))
    {
      call := Stay;
      match s.pc
      case SBoot =>
        s := s.(pc := SHead);
        call := DoWait;
      case SHead =>
        if s.iter >= k.iterations {
          s := s.(pc := SDone);
          call := DoLeave;
        } else if k.bench.ShmBench? {
          s := s.(pc := SAttach);
          call := DoWait;
        } else {
          s := s.(pc := STruncate);
        }
      case SAttach =>
        if name.None? {
          fault := true;
        } else {
          s := s.(pc := SBegin, map_ := name.value);
          call := DoWait;
        }
      case SBegin => s := s.(pc := SLoop, sent := 0, i := 0);
      case SLoop =>
        s := s.(pc := if s.i < Pipeline(k) then SBody else SFinish);
        call := DoWait;
      case SFinish => s := s.(pc := SHead, iter := s.iter + 1);
      case SDone =>
      case STruncate => call := PrepareFile();
      case SResize => call := PrepareFile();
      case SZero => call := PrepareFile();
      case _ => SendChunk();
    }

    // -------------------------------------------------------------- ReceiveProcess

    /** shm: create the object and zero it. */
    method PrepareObject() returns (call: Call)
      requires Valid(k) && (r.pc.RCreate? || r.pc.RZero?)
      modifies this
      ensures (View(), call) == ReceiverStep(k, old(View()))
    {
      call := Stay;
      match r.pc
      case RCreate =>
        if name.None? {
          name := Some(|objs|);
          r := r.(pc := RZero, j := 0, map_ := |objs|);
          objs := objs + [Buffer([0, 0], seq(2 * k.bufferSize, _ => 0))];
        } else if name.value < |objs| && |objs[name.value].sizes| == 2 && |objs[name.value].bytes| == 2 * k.bufferSize {
          r := r.(pc := RZero, j := 0, map_ := name.value);
        } else {
          fault := true;
        }
      case RZero =>
        if r.j < 2 + 2 * k.bufferSize {
          ClearCell(r.map_, r.j);
          r := r.(j := r.j + 1);
        } else {
          r := r.(pc := RAlloc);
          call := DoWait;
        }
    }

    /** One step inside the loop over the pipeline. */
    method ReceiveChunk()
      requires Valid(k) && (r.pc.RBody? || r.pc.RCopy? || r.pc.RTally?)
      modifies this
      ensures (View(), Stay) == ReceiverStep(k, old(View()))
    {
      var slot := (r.i + 1) % 2;
      match r.pc
      case RBody =>
        if r.map_ < |objs| && slot < |objs[r.map_].sizes| {
          r := r.(pc := RCopy, size := objs[r.map_].sizes[slot], j := 0);
        } else {
          fault := true;
        }
      case RCopy =>
        var at := slot * k.bufferSize + r.j;
        if r.j >= r.size {
          r := r.(pc := RTally);
        } else if r.map_ < |objs| && at < |objs[r.map_].bytes| && r.got + r.j < |r.received| {
          r := r.(received := r.received[r.got + r.j := objs[r.map_].bytes[at]], j := r.j + 1);
        } else {
          fault := true;
        }
      case RTally =>
        if k.bench.MmapBench? {
          r := r.(pc := RLoop, got := r.got + r.size, i := r.i + 1);
        } else if r.map_ < |objs| && slot < |objs[r.map_].sizes| {
          r := r.(pc := RLoop, got := r.got + objs[r.map_].sizes[slot], i := r.i + 1);
        } else {
          fault := true;
        }
    }

    method ReceiverMoves() returns (call: Call)
      requires Valid(k)
      modifies this
      ensures (View(), call) == ReceiverStep(k, old(View()))
    {
      call := Stay;
      match r.pc
      case RBoot =>
        r := r.(pc := RHead);
        call := DoWait;
      case RHead =>
        if r.iter >= k.iterations {
          r := r.(pc := RDone);
          call := DoLeave;
        } else if k.bench.ShmBench? {
          r := r.(pc := RCreate);
        } else {
          r := r.(pc := RAttach);
          call := DoWait;
        }
      case RAlloc =>
        r := r.(pc := RBegin, received := seq(|k.data|, _ => 0));
        call := DoWait;
      case RAttach =>
        if name.Some? && name.value < |objs| && |objs[name.value].sizes| == 2 {
          r := r.(pc := RBegin, map_ := name.value, received := seq(|k.data|, _ => 0));
          call := DoWait;
        } else {
          fault := true;
        }
      case RBegin => r := r.(pc := RLoop, got := 0, i := 0);
      case RLoop =>
        r := r.(pc := if r.i < Pipeline(k) then RBody else RFinish);
        call := DoWait;
      case RFinish =>
        if k.bench.ShmBench? {
          name := None;
        }
        r := r.(pc := RHead, iter := r.iter + 1, delivered := r.delivered + [r.received]);
      case RDone =>
      case RCreate => call := PrepareObject();
      case RZero => call := PrepareObject();
      case _ => ReceiveChunk();
    }
  }

  lemma {:induction false} RunOneMore(k: Config, y: System, schedule: seq<nat>, x: nat)
    requires Valid(k) && x < |schedule|
    ensures SysRun(k, y, schedule[..x + 1]) == SysStep(k, SysRun(k, y, schedule[..x]), schedule[x])
    decreases x
  {
    if x == 0 {
      assert SysRun(k, SysStep(k, y, schedule[0]), schedule[..1][1..]) == SysStep(k, y, schedule[0]);
    } else {
      RunOneMore(k, SysStep(k, y, schedule[0]), schedule[1..], x - 1);
      assert schedule[..x + 1][1..] == schedule[1..][..x] && schedule[..x][1..] == schedule[1..][..x - 1];
    }
  }

  /** The scheduler picks a process: inside the barrier it makes a step of the barrier, otherwise one
      of its program. */
  method Advance(b: BarrierMachine.Machine, m: Machine, p: nat)
    requires Valid(m.k) && SysOk(m.k, System(b.View(), m.View()))
    modifies b, b.users, m
    ensures System(b.View(), m.View()) == SysStep(m.k, old(System(b.View(), m.View())), p)
  {
    if p < b.users.Length {
      if b.users[p].pc != Ready {
        BarrierMachine.HandlesFromInv(b.View(), p);
        b.Step(p);
      } else if p == SENDER {
        var call := m.SenderMoves();
        b.Perform(p, call);
      } else {
        var call := m.ReceiverMoves();
        b.Perform(p, call);
      }
    }
  }

  /** Two processes, any schedule: what has been handed to the verifier is what was sent. */
  method Execute(k: Config, schedule: seq<nat>) returns (b: BarrierMachine.Machine, m: Machine)
    requires Valid(k)
    ensures fresh(b) && fresh(m) && m.k == k
    ensures System(b.View(), m.View()) == SysRun(k, PipelineSystem.Start(k), schedule)
    ensures !m.fault && |m.r.delivered| == m.r.iter
    ensures forall t :: 0 <= t < |m.r.delivered| ==> m.r.delivered[t] == k.data
  {
    b := new BarrierMachine.Machine(2);
    m := new Machine(k);
    StartOk(k);
    for x := 0 to |schedule|
      invariant fresh(b) && fresh(b.users) && fresh(m) && m.k == k
      invariant SysOk(k, System(b.View(), m.View()))
      invariant System(b.View(), m.View()) == SysRun(k, PipelineSystem.Start(k), schedule[..x])
    {
      RunOneMore(k, PipelineSystem.Start(k), schedule, x);
      SysStepOk(k, System(b.View(), m.View()), schedule[x]);
      Advance(b, m, schedule[x]);
    }
    assert schedule[..|schedule|] == schedule;
    PipelineDelivers(k, schedule);
  }
}
