/**
 The transfers together with the block they transfer, from the random stream to the last
 verification.
 */
module EndToEnd {
  import opened Basics
  import opened Checksum
  import opened DataBlock
  import BarrierProgress
  import PipelineClient
  import PipelineSystem
  import PipelineMachine
  import StreamClient
  import StreamSystem
  import StreamMachine
  import MemcpyMt
  import MemcpyMtRun
  import MemcpyMtMachine

  /** What a benchmark has sent, what its receiver has passed to VerifyDataReceived, and what came
      back. */
  datatype Report = Report(data: seq<Byte>, delivered: seq<seq<Byte>>, verdicts: seq<bool>)

  /** The data is the stream with its checksum, what has been delivered is the data each time, and
      each verdict is the right one and favourable. */
  ghost predicate Sound(r: Report, draws: nat -> Word, dataSize: nat)
    requires dataSize > CHECKSUM_SIZE
  {
    && Generated(r.data, draws, dataSize)
    && |r.verdicts| == |r.delivered|
    && forall t :: 0 <= t < |r.delivered| ==>
         r.delivered[t] == r.data && r.verdicts[t] && Verifies(r.delivered[t], dataSize)
  }

  /** VerifyDataReceived on each delivered block. */
  method VerifyAll(blocks: seq<seq<Byte>>, dataSize: nat) returns (verdicts: seq<bool>)
    requires dataSize > CHECKSUM_SIZE
    ensures |verdicts| == |blocks|
    ensures forall t :: 0 <= t < |blocks| ==> (verdicts[t] <==> Verifies(blocks[t], dataSize))
  {
    verdicts := [];
    for t := 0 to |blocks|
      invariant |verdicts| == t
      invariant forall u :: 0 <= u < t ==> (verdicts[u] <==> Verifies(blocks[u], dataSize))
    {
      var block := blocks[t];
      var received := new Byte[|block|](i requires 0 <= i < |block| => block[i]);
      assert received[..] == block;
      var r := VerifyDataReceived(received, dataSize);
      verdicts := verdicts + [r.value];
    }
  }

  // ---------------------------------------------------------------- shm and mmap

  /** Where a schedule takes the shm or mmap benchmark. */
  function PipelineRun(bench: PipelineClient.Benchmark, iterations: nat, bufferSize: nat, data: seq<Byte>, schedule: seq<nat>)
    : PipelineSystem.System
    requires PipelineClient.Valid(PipelineClient.Config(bench, iterations, data, bufferSize))
  {
    var k := PipelineClient.Config(bench, iterations, data, bufferSize);
    PipelineSystem.SysRun(k, PipelineSystem.Start(k), schedule)
  }

  lemma PipelineEnds(k: PipelineClient.Config, schedule: seq<nat>)
    requires PipelineClient.Valid(k)
    ensures var y := PipelineSystem.SysRun(k, PipelineSystem.Start(k), schedule);
      BarrierProgress.Finished(y.w) ==> |y.c.r.delivered| == k.iterations
  {
    PipelineSystem.StartOk(k);
    PipelineSystem.SysRunOk(k, PipelineSystem.Start(k), schedule);
    var y := PipelineSystem.SysRun(k, PipelineSystem.Start(k), schedule);
    if BarrierProgress.Finished(y.w) {
      PipelineSystem.AtTheEnd(k, y);
    }
  }

  /** The shm or mmap benchmark: it stops on a size of at most 128 bytes. Otherwise, whatever the
      stream and the schedule, it delivers what the two processes on the barrier deliver for the
      generated data, no verification fails, and once both have left there is one for each iteration. */
  method PipelineBenchmark(
    bench: PipelineClient.Benchmark, iterations: nat, dataSize: nat, bufferSize: nat,
    draws: nat -> Word, schedule: seq<nat>)
    returns (r: Result<Report>)
    requires bufferSize > 0
    requires dataSize + bufferSize - 1 <= 0xFFFF_FFFF_FFFF_FFFF
    requires 16 + 2 * bufferSize <= 0xFFFF_FFFF_FFFF_FFFF
    ensures r.Stopped? <==> dataSize <= 128
    ensures r.Ok? ==> Sound(r.value, draws, dataSize)
    ensures r.Ok? ==>
      var y := PipelineRun(bench, iterations, bufferSize, r.value.data, schedule);
      && r.value.delivered == y.c.r.delivered
      && (BarrierProgress.Finished(y.w) ==> |r.value.verdicts| == iterations)
  {
    var generated := GenerateDataToSend(dataSize, draws);
    if generated.Stopped? {
      return Stopped;
    }
    var data := generated.value.cells[..];
    var k := PipelineClient.Config(bench, iterations, data, bufferSize);
    var barrier, m := PipelineMachine.Execute(k, schedule);
    var delivered := m.r.delivered;
    var verdicts := VerifyAll(delivered, dataSize);
    PipelineEnds(k, schedule);
    return Ok(Report(data, delivered, verdicts));
  }

  // ---------------------------------------------------------------- pipe, FIFO and message queue

  /** The sizes a streaming benchmark runs with: the queue cuts the buffer down to its message size. */
  function StreamConfig(channel: StreamClient.Channel, iterations: nat, bufferSize: nat, capacity: nat, data: seq<Byte>)
    : (k: StreamClient.Config)
    ensures k.channel == channel && k.iterations == iterations && k.data == data
  {
    if channel.QueueChannel? then StreamClient.QueueConfig(iterations, data, bufferSize)
    else StreamClient.Config(channel, iterations, data, bufferSize, capacity)
  }

  lemma StreamEnds(k: StreamClient.Config, schedule: seq<StreamSystem.Choice>)
    requires StreamClient.Valid(k)
    ensures var y := StreamSystem.SysRun(k, StreamSystem.Start(k), schedule);
      BarrierProgress.Finished(y.w) ==> |y.c.r.delivered| == k.iterations
  {
    StreamSystem.StartOk(k);
    StreamSystem.SysRunOk(k, StreamSystem.Start(k), schedule);
    var y := StreamSystem.SysRun(k, StreamSystem.Start(k), schedule);
    if BarrierProgress.Finished(y.w) {
      StreamSystem.AtTheEnd(k, y);
    }
  }

  /** The pipe, FIFO or message queue benchmark, for any capacity of the channel and any short counts. */
  method StreamBenchmark(
    channel: StreamClient.Channel, iterations: nat, dataSize: nat, bufferSize: nat, capacity: nat,
    draws: nat -> Word, schedule: seq<StreamSystem.Choice>)
    returns (r: Result<Report>)
    requires bufferSize > 0 && capacity > 0
    ensures r.Stopped? <==> dataSize <= 128
    ensures r.Ok? ==> Sound(r.value, draws, dataSize)
    ensures r.Ok? ==>
      var k := StreamConfig(channel, iterations, bufferSize, capacity, r.value.data);
      var y := StreamSystem.SysRun(k, StreamSystem.Start(k), schedule);
      && r.value.delivered == y.c.r.delivered
      && (BarrierProgress.Finished(y.w) ==> |r.value.verdicts| == iterations)
  {
    var generated := GenerateDataToSend(dataSize, draws);
    if generated.Stopped? {
      return Stopped;
    }
    var data := generated.value.cells[..];
    var k := StreamConfig(channel, iterations, bufferSize, capacity, data);
    var barrier, m := StreamMachine.Execute(k, schedule);
    var delivered := m.r.delivered;
    var verdicts := VerifyAll(delivered, dataSize);
    StreamEnds(k, schedule);
    return Ok(Report(data, delivered, verdicts));
  }

  // ---------------------------------------------------------------- multi-threaded memcpy

  /** The multi-threaded memcpy, for any number of threads. Only measured iterations are verified. */
  method MemcpyBenchmark(
    threads: nat, warmups: nat, iterations: nat, dataSize: nat,
    draws: nat -> Word, schedule: seq<MemcpyMtRun.Choice>)
    returns (r: Result<Report>)
    requires threads >= 1
    ensures r.Stopped? <==> dataSize <= 128
    ensures r.Ok? ==> Sound(r.value, draws, dataSize)
    ensures r.Ok? ==>
      var k := MemcpyMt.Config(threads, warmups, iterations, r.value.data);
      var w := MemcpyMtRun.Run(k, MemcpyMtRun.Start(k), schedule);
      && r.value.delivered == w.checked
      && (w.main.Done? ==> |r.value.verdicts| == iterations)
  {
    var generated := GenerateDataToSend(dataSize, draws);
    if generated.Stopped? {
      return Stopped;
    }
    var src := generated.value.cells;
    var data := src[..];
    ghost var k := MemcpyMt.Config(threads, warmups, iterations, data);
    var m := MemcpyMtMachine.Execute(threads, warmups, iterations, src, schedule);
    var delivered := m.checked;
    var verdicts := VerifyAll(delivered, dataSize);
    MemcpyMtRun.CopyIsExact(k, schedule);
    return Ok(Report(data, delivered, verdicts));
  }

  // ---------------------------------------------------------------- any block that verifies

  /** The transfers pass on verification of whatever block they are given. */
  lemma PipelineVerifies(k: PipelineClient.Config, schedule: seq<nat>)
    requires PipelineClient.Valid(k) && |k.data| > CHECKSUM_SIZE && Verifies(k.data, |k.data|)
    ensures forall block <- PipelineSystem.SysRun(k, PipelineSystem.Start(k), schedule).c.r.delivered ::
      Verifies(block, |k.data|)
  {
    PipelineSystem.PipelineDelivers(k, schedule);
  }

  lemma StreamVerifies(k: StreamClient.Config, schedule: seq<StreamSystem.Choice>)
    requires StreamClient.Valid(k) && |k.data| > CHECKSUM_SIZE && Verifies(k.data, |k.data|)
    ensures forall block <- StreamSystem.SysRun(k, StreamSystem.Start(k), schedule).c.r.delivered ::
      Verifies(block, |k.data|)
  {
    StreamSystem.StreamDelivers(k, schedule);
  }

  lemma MemcpyVerifies(k: MemcpyMt.Config, schedule: seq<MemcpyMtRun.Choice>)
    requires MemcpyMt.Valid(k) && |k.src| > CHECKSUM_SIZE && Verifies(k.src, |k.src|)
    ensures forall block <- MemcpyMtRun.Run(k, MemcpyMtRun.Start(k), schedule).checked ::
      Verifies(block, |k.src|)
  {
    MemcpyMtRun.CopyIsExact(k, schedule);
  }
}
