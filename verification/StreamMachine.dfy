/**
 The streaming processes as they run: the channel, the counters and the received data updated in
 place. Every method is proved against the step functions of StreamClient, and Execute runs both
 sides on the barrier of BarrierMachine.
 */
module StreamMachine {
  import opened Basics
  import opened Barrier
  import opened BarrierClient
  import opened StreamClient
  import opened StreamSystem
  import BarrierMachine

  class Machine {
    const k: Config
    var bytes: seq<Byte>
    var marks: seq<nat>
    var writers: nat
    var readers: nat
    var fault: bool
    var s: Sender
    var r: Receiver

    ghost function View(): Client
      reads this
    {
      Client(s, r, bytes, marks, writers, readers, fault)
    }

    constructor (k: Config)
      ensures this.k == k && View() == InitClient(k)
    {
      this.k := k;
      bytes, marks, fault := [], [], false;
      writers := if k.channel.PipeChannel? then 1 else 0;
      readers := if k.channel.PipeChannel? then 1 else 0;
      s := Sender(SenderPC.SHead, 0, 0);
      r := Receiver(ReceiverPC.RHead, 0, [], []);
    }

    // -------------------------------------------------------------- the channel

    method CloseWriteEnd()
      modifies this`writers, this`bytes
      ensures View() == CloseWriter(k, old(View()))
    {
      writers := if writers > 0 then writers - 1 else 0;
      if !k.channel.QueueChannel? && writers == 0 && readers == 0 {
        bytes := [];
      }
    }

    method CloseReadEnd()
      modifies this`readers, this`bytes
      ensures View() == CloseReader(k, old(View()))
    {
      readers := if readers > 0 then readers - 1 else 0;
      if !k.channel.QueueChannel? && writers == 0 && readers == 0 {
        bytes := [];
      }
    }

    /** One write or mq_send of the sender's loop. */
    method SendSome(amount: nat)
      requires s.total < |k.data|
      modifies this`s, this`bytes, this`marks, this`fault
      ensures View() == Write(k, old(View()), amount)
    {
      var bytesToSend := Min(k.bufferSize, |k.data| - s.total);
      if k.channel.QueueChannel? {
        if |marks| < k.capacity {
          bytes := bytes + k.data[s.total..s.total + bytesToSend];
          marks := marks + [bytesToSend];
          s := s.(total := s.total + bytesToSend);
        }
      } else if readers == 0 {
        fault := true;
      } else if |bytes| < k.capacity {
        var bytesWritten := Clamp(amount, Min(bytesToSend, k.capacity - |bytes|));
        bytes := bytes + k.data[s.total..s.total + bytesWritten];
        s := s.(total := s.total + bytesWritten);
      }
    }

    /** One read or mq_receive of the receiver's loop. */
    method ReceiveSome(amount: nat)
      modifies this`r, this`bytes, this`marks, this`fault
      ensures View() == Read(k, old(View()), amount)
    {
      if k.channel.QueueChannel? && marks == [] {
        return;
      }
      if !k.channel.QueueChannel? && bytes == [] {
        if writers == 0 {
          r := r.(pc := RFinish);
        }
        return;
      }
      var bytesRead := if k.channel.QueueChannel? then marks[0] else Clamp(amount, Min(k.bufferSize, |bytes|));
      if bytesRead > |bytes| || bytesRead > k.bufferSize {
        fault := true;
        return;
      }
      if marks != [] {
        marks := marks[1..];
      }
      if bytesRead == 0 {
        r := r.(pc := RFinish);
      } else {
        r := r.(got := r.got + bytes[..bytesRead]);
        bytes := bytes[bytesRead..];
      }
    }

    // -------------------------------------------------------------- SendProcess

    method SenderMoves(amount: nat) returns (call: Call)
      modifies this
      ensures (View(), call) == SenderStep(k, old(View()), amount)
    {
      call := Stay;
      match s.pc
      case SHead =>
        if s.iter >= k.iterations {
          s := s.(pc := SDone);
          if k.channel.PipeChannel? {
            CloseWriteEnd();
          }
          call := DoLeave;
        } else if k.channel.FifoChannel? {
          s := s.(pc := SOpening);
          writers := writers + 1;
        } else {
          s := s.(pc := SBegin);
          call := DoWait;
        }
      case SOpening =>
        if readers > 0 {
          s := s.(pc := SBegin);
          call := DoWait;
        }
      case SBegin => s := s.(pc := SLoop, total := 0);
      case SLoop =>
        if s.total >= |k.data| {
          s := s.(pc := SClose);
        } else {
          SendSome(amount);
        }
      case SClose =>
        s := s.(pc := SHead, iter := s.iter + 1);
        if k.channel.FifoChannel? {
          CloseWriteEnd();
        }
      case SDone =>
    }

    // -------------------------------------------------------------- ReceiveProcess

    method ReceiverMoves(amount: nat) returns (call: Call)
      modifies this
      ensures (View(), call) == ReceiverStep(k, old(View()), amount)
    {
      call := Stay;
      match r.pc
      case RHead =>
        if r.iter >= k.iterations {
          r := r.(pc := RDone);
          if k.channel.PipeChannel? {
            CloseReadEnd();
          }
          call := DoLeave;
        } else if k.channel.FifoChannel? {
          r := r.(pc := ROpening);
          readers := readers + 1;
        } else {
          r := r.(pc := RBegin);
          call := DoWait;
        }
      case ROpening =>
        if writers > 0 {
          r := r.(pc := RBegin);
          call := DoWait;
        }
      case RBegin => r := r.(pc := RLoop, got := []);
      case RLoop =>
        if |r.got| >= |k.data| {
          r := r.(pc := RFinish);
        } else {
          ReceiveSome(amount);
        }
      case RFinish =>
        r := r.(pc := RHead, iter := r.iter + 1, delivered := r.delivered + [r.got]);
        if k.channel.FifoChannel? {
          CloseReadEnd();
        }
      case RDone =>
    }
  }

  lemma {:induction false} RunOneMore(k: Config, y: System, schedule: seq<Choice>, x: nat)
    requires x < |schedule|
    ensures SysRun(k, y, schedule[..x + 1]) == SysStep(k, SysRun(k, y, schedule[..x]), schedule[x])
    decreases x
  {
    if x == 0 {
      assert SysRun(k, SysStep(k, y, schedule[0]), schedule[..1][1..]) == SysStep(k, y, schedule[0]);
    } else {
      RunOneMore(k, SysStep(k, y, schedule[0]), schedule[1..], x - 1);
      assert schedule[..x + 1][1..] == schedule[1..][..x] && schedule[..x][1..] == schedule[1..][..x - 1];
    }
  }

  /** The scheduler picks a process: inside the barrier it makes a step of the barrier, otherwise one
      of its program. */
  method Advance(b: BarrierMachine.Machine, m: Machine, e: Choice)
    requires SysOk(m.k, System(b.View(), m.View()))
    modifies b, b.users, m
    ensures System(b.View(), m.View()) == SysStep(m.k, old(System(b.View(), m.View())), e)
  {
    if e.pid < b.users.Length {
      if b.users[e.pid].pc != Ready {
        BarrierMachine.HandlesFromInv(b.View(), e.pid);
        b.Step(e.pid);
      } else if e.pid == SENDER {
        var call := m.SenderMoves(e.amount);
        b.Perform(e.pid, call);
      } else {
        var call := m.ReceiverMoves(e.amount);
        b.Perform(e.pid, call);
      }
    }
  }

  /** Two processes, any schedule, any short counts: what has been handed to the verifier is what was
      sent. */
  method Execute(k: Config, schedule: seq<Choice>) returns (b: BarrierMachine.Machine, m: Machine)
    requires Valid(k)
    ensures fresh(b) && fresh(m) && m.k == k
    ensures System(b.View(), m.View()) == SysRun(k, StreamSystem.Start(k), schedule)
    ensures !m.fault && |m.r.delivered| == m.r.iter
    ensures forall t :: 0 <= t < |m.r.delivered| ==> m.r.delivered[t] == k.data
  {
    b := new BarrierMachine.Machine(2);
    m := new Machine(k);
    StartOk(k);
    for x := 0 to |schedule|
      invariant fresh(b) && fresh(b.users) && fresh(m) && m.k == k
      invariant SysOk(k, System(b.View(), m.View()))
      invariant System(b.View(), m.View()) == SysRun(k, StreamSystem.Start(k), schedule[..x])
    {
      RunOneMore(k, StreamSystem.Start(k), schedule, x);
      SysStepOk(k, System(b.View(), m.View()), schedule[x]);
      Advance(b, m, schedule[x]);
    }
    assert schedule[..|schedule|] == schedule;
    StreamDelivers(k, schedule);
  }
}
