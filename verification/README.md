# akbench: protocols and proofs

akbench measures how fast two processes or threads can hand data and signals to each other. Each
number it prints rests on a small concurrent protocol: a barrier in shared memory, a double-buffered
pipeline, a stream with partial reads and writes, a pair of flags, a condition variable. This project
models those protocols at the granularity of single shared accesses, lets an arbitrary scheduler
interleave them, and proves what the benchmarks rely on.

Each protocol is written three times and the three are tied together:

- *specification functions* over values: a state and a `Step` function, a run being a sequence of
  scheduler choices (`Barrier`, `PipelineClient`/`PipelineSystem`, `StreamClient`/`StreamSystem`,
  `FlagHandshake`, `CondVar`, `MemcpyMtRun`, `BarrierLatency`);
- *classes* whose methods update fields and arrays in place, one method per step, each proved equal to
  the specification (`BarrierMachine`, `PipelineMachine`, `StreamMachine`, `FlagMachine`,
  `CondVarMachine`, `MemcpyMtMachine`, `BarrierLatencyMachine`; `DataBlock` and `OneTripStatistics`
  hold the plain loops);
- *theorems* about all runs, by inductive invariants and measures.

How the parts build on each other:

- `Barrier` is the sense-reversing barrier for n users: `sem_wait`, every critical-section body and
  `sem_post` are separate steps, and the constructor, `Wait`, the destructor and the unlinking are all
  there. `BarrierInvariant` is the invariant, `BarrierSafety` the refinement of `IdealBarrier`,
  `BarrierProgress` the measure, `BarrierLifecycle` the life cycle, `BarrierLatency` one lifetime after
  another. `BarrierClient` is what programs above the barrier may use.
- `BarrierPlaces`, `PipelinePlaces`, `StreamPlaces`, `FlagLoads` and `CondVarPlaces` say in plain numbers
  what single steps may do: which branch follows, which counts and values the scheduler may choose, when a
  step is blocked, how many Waits or signals there have been. The small lemmas beside those in the table
  pin down single accesses: counters that wrap at 2^64, faults, blocking reads, the FIFO's opens, sleeping
  and waking.
- The pipeline (`Pipeline*`) and the streams (`Stream*`) run on these same barrier steps, not on an
  assumed barrier. Copies go byte by byte, so that freedom from races is a theorem: `PipelineRaces`
  says what each step reads and writes, proves that this is all it reads and writes, and that the two
  sides' steps never conflict and always commute. The pipe, the FIFO and the message queue are one
  model with a channel parameter. `PipelineBounds` and `StreamBounds` bound the busy steps of every run.
- `FlagHandshake` has the two flags twice over the same control flow, sequentially consistent and with
  stale loads; `FlagTheorems` relates the two.
- `CondVar` has explicit mutexes, wait sets, spurious wake-ups, and the notify after the unlock.
- `Checksum` and `DataBlock` are the checked block that the transfers carry; `EndToEnd` composes
  generation, transfer and verification into whole benchmarks. `Basics` holds what several models share.

Two promises turn out to hold under a condition only, and the condition is proved exact:
a benchmark whose processes make no `Wait` between construction and destruction can hang
(`BarrierLifecycle.FinishIff`, `BarrierLatency.CompletesIff`, `PipelineCompletion.CompletesIff`,
`StreamCompletion.CompletesIff`), and what `CalculateOneTripDuration` calls the average of the filtered
durations is that average only if it is zero (`OneTripStatistics.AverageIsMeanIff`; `AverageDiffers` is
an input where it is not): the sum leaves out two samples, the divisor does not. Where a comment and the code differ, as here, the model follows the
code.

## Model

| member | source | states |
|---|---|---|
| BarrierSafety.RoundsApart | akbench/barrier.cc:99-133 | For any number of users, clients and schedules: nobody has returned from its k-th Wait before everybody has entered it, no two users are more than one round apart, and the private sense bit is the parity of the round |
| BarrierSafety.SharedWords | akbench/barrier.cc:101-113 | count_ is the number of users that have entered the current round, shared_sense_ is the parity of the phase, and the phase is the least number of Waits anybody has entered |
| BarrierSafety.PhaseMoves | akbench/barrier.cc:103-112 | The arrival that finds all others already in the round moves the phase on by one; no other step of anybody moves it |
| BarrierSafety.EventRefines | akbench/barrier.cc:99-133 | Each step of the shared-memory barrier is an enabled Enter or Return of the ideal barrier, or invisible to it, and which of these is fixed by the program point |
| BarrierSafety.RunRefines | akbench/barrier.cc:21-167 | Every run of the shared-memory barrier is a run of the ideal barrier, in which a Return is enabled only once everybody has entered |
| IdealBarrier.AlwaysSynchronized | akbench/barrier.cc:99-133 | In every run of the ideal barrier nobody has returned from more Waits than anybody else has entered, and everybody is in at most one |
| BarrierPlaces.ArrivalGoes | akbench/barrier.cc:99-115 | The arrival that finds all others in its round moves the phase on and is through after its sem_post, without another sem_wait; every other arrival goes on to look at the sense |
| BarrierPlaces.SpinGoes | akbench/barrier.cc:120-127 | A waiting user is let through by a look at the sense if and only if the phase has moved on since it came |
| BarrierPlaces.PollGoes | akbench/barrier.cc:84-92 | The constructor returns from a poll if and only if all users have joined and none has left again |
| BarrierPlaces.DepartGoes | akbench/barrier.cc:135-140 | The destructor goes on to unlink if and only if all others have already taken themselves out of n_users_ |
| BarrierPlaces.BlockedIff | akbench/barrier.cc:21-167 | A user inside the barrier is blocked only in sem_wait, and there exactly while somebody is in a critical section |
| BarrierPlaces.IdlesAlone | akbench/barrier.cc:84-127 | A user that counts as idle, running alone for however long, changes neither the shared words nor the phase and stays idle |
| BarrierInvariant.StepInv | akbench/barrier.cc:21-167 | Each step of each user keeps the whole invariant: handles, senses, semaphore, counters and names |
| BarrierLifecycle.MutualExclusion | akbench/barrier.cc:24-73 | Once the semaphore exists its value and the number of users inside critical sections add up to one; before, nobody has opened it |
| BarrierLifecycle.JoinsBeforeLeaves | akbench/barrier.cc:76-92 | When any user has left, every user has joined, and all hold the same semaphore and the same shared data |
| BarrierLifecycle.OneUnlinker | akbench/barrier.cc:135-153 | At most one user unlinks, it unlinks both names, and only after every user has taken itself out of n_users_ |
| BarrierLifecycle.LastToLeaveUnlinks | akbench/barrier.cc:136-153 | In every run the user that unlinks is the one whose decrement of n_users_ came last of all n |
| BarrierLifecycle.CleanEnd | akbench/barrier.cc:135-167 | When all are gone, exactly one user has unlinked both names once, the names are free, and everybody has made all its Waits |
| BarrierLifecycle.NextLifetime | akbench/barrier.cc:12-19 | After a finished lifetime ClearResource finds nothing to clear and new users start as if the names had never been used |
| BarrierPlaces.ClearedIsFresh | akbench/barrier.cc:12-19 | Whatever state the names were left in, after ClearResource new users start as if the names had never been used; without it they do so only if both names are free |
| BarrierLifecycle.FinishIff | akbench/barrier.cc:84-92 | n users that wait R times each can be brought to the end from every reachable state if and only if R > 0 or n = 1; otherwise an early leaver strands the others in the join loop |
| BarrierProgress.MoveLowers | akbench/barrier.cc:84-127 | Every step that is not idle polling or spinning lowers the remaining work, and an idle one leaves it as it is |
| BarrierProgress.Finish | akbench/barrier.cc:21-167 | From every reachable state a schedule exists that takes all users through their remaining Waits and destructors |
| BarrierProgress.RunIsBounded | akbench/barrier.cc:21-167 | Under any schedule n users that wait R times make at most n(16R+40) moves besides idle ones |
| BarrierMachine.Machine.Enter | akbench/barrier.cc:102-112 | The body of Wait's first critical section, updating count_ and shared_sense_ in place, is the specification's arrival |
| BarrierMachine.Machine.Step | akbench/barrier.cc:21-167 | The in-place machine makes exactly the specification's step at every program point |
| BarrierMachine.Execute | akbench/barrier.cc:21-167 | Any schedule run on the in-place machine is the specification's run and keeps the invariant |
| BarrierLatency.LifetimesAreFresh | akbench/barrier_latency.cc:41-99 | Every run of the latency benchmark uses the barrier as if its name were new; the parent destroys its barrier only after the child has exited, is the one that unlinks, and one measurement is kept per measured run |
| BarrierLatency.BlockedIff | akbench/barrier_latency.cc:41-79 | A process of the latency benchmark is blocked only in sem_wait while the other one is in a critical section or, the parent, in waitpid after its Waits while the child is there |
| BarrierLatency.CompletesIff | akbench/barrier_latency.cc:20-67 | The benchmark can be completed from every reachable state if and only if loop_size > 0 or there are no runs at all |
| BarrierLatency.RunIsBounded | akbench/barrier_latency.cc:41-99 | Under any schedule the whole benchmark has at most (runs+1)(32 loop_size+81) steps that are not idle |
| BarrierLatencyMachine.RunBenchmark | akbench/barrier_latency.cc:82-99 | The loops that make and destroy barriers and push measurements, for any schedule: the kept latencies are those of the measured runs, in order |
| PipelineSystem.PipelineDelivers | akbench/shm_bandwidth.cc:76-105 | For every schedule of byte copies and barrier steps, every data size and every positive buffer size: no access leaves its buffer, and each iteration hands the verifier exactly the bytes sent |
| PipelineRaces.PhasesApart | akbench/shm_bandwidth.cc:172-180 | In the same phase, in one run or in two different ones, neither side writes a slot, a size word, the name or the extent of a buffer that the other reads or writes |
| PipelineRaces.SenderWritesOnly | akbench/mmap_bandwidth.cc:40-91 | A sender step leaves every slot, size word, name and extent that is not in its write set as it was, truncating, resizing and zeroing included |
| PipelineRaces.ReceiverWritesOnly | akbench/shm_bandwidth.cc:51-67 | The same for a receiver step, creating, zeroing and unlinking included |
| PipelineRaces.SenderReadsOnly | akbench/mmap_bandwidth.cc:40-91 | What a sender step does to its process and calls does not depend on anything outside its read set |
| PipelineRaces.ReceiverReadsOnly | akbench/shm_bandwidth.cc:82-91 | What a receiver step receives, counts and calls does not depend on anything outside its read set |
| PipelineRaces.StepsCommute | akbench/shm_bandwidth.cc:84-91 | In every reachable state in which both sides are between two calls of the barrier, it makes no difference to the state or to the calls which of them goes first |
| PipelineSystem.LoopStartsBlank | akbench/mmap_bandwidth.cc:62-93 | Whenever the receiver enters the pipeline loop the whole buffer, both size words and both slots, is zero, so that its first read copies nothing and no earlier chunk leaks in |
| PipelineSystem.PipelineCompletes | akbench/mmap_bandwidth.cc:33-95 | From every reachable state the benchmark can be completed; then every iteration has delivered the data, and both sides have made iterations * (4 + q) Waits, one more each for mmap, where q buffers hold the data and q - 1 do not |
| PipelineSteps.PipelineIs | akbench/shm_bandwidth.cc:83 | n_pipeline is q + 1, where q buffers hold the data and q - 1 do not; q is 0 without data |
| PipelinePlaces.WaitPlaces | akbench/shm_bandwidth.cc:148-182 | In every run the number of Waits each side has made is fixed, in plain numbers, by its program point, iteration and round |
| PipelinePlaces.ChunkPlaces | akbench/shm_bandwidth.cc:174-179 | In round i the sender copies min(buffer_size, what is left) bytes from place i * buffer_size on, and the receiver takes those of round i - 1 |
| PipelinePlaces.CopyPlaces | akbench/shm_bandwidth.cc:175-177 | Byte j of a chunk goes to place j of slot i mod 2, and no other byte of the buffer changes |
| PipelinePlaces.BlockedIff | akbench/shm_bandwidth.cc:76-94 | A process that has not exited is blocked only in sem_wait while the other one is in a critical section; between two Waits neither ever waits |
| PipelineSystem.SysStepOk | akbench/shm_bandwidth.cc:148-182 | Each barrier step and each program step keeps the composed invariant of barrier, buffers and both loops |
| PipelineSteps.SenderOkStep | akbench/shm_bandwidth.cc:174-179 | Given what the barrier guarantees, a sender step keeps the buffers, sizes and positions consistent and stays in bounds |
| PipelineReceiver.ReceiverOkStep | akbench/shm_bandwidth.cc:86-91 | The same for a receiver step |
| PipelineCompletion.CompletesIff | akbench/shm_bandwidth.cc:33-94 | The benchmark can be completed from every reachable state if and only if it has an iteration or is the mmap one, which waits once before its loop |
| PipelineBounds.RunIsBounded | akbench/shm_bandwidth.cc:38-94 | Any run has at most (32R+81)(4 buffer_size+13) steps that are not idle, R = iterations * (4 + q), one more for mmap, q as above |
| PipelineMachine.Machine.SenderMoves | akbench/mmap_bandwidth.cc:30-107 | The sender's loop body in place, shm and mmap, equals the specification's step |
| PipelineMachine.Machine.ReceiverMoves | akbench/mmap_bandwidth.cc:119-203 | The receiver's loop body in place, shm and mmap, equals the specification's step |
| PipelineMachine.Execute | akbench/shm_bandwidth.cc:206-215 | Both processes on the in-place barrier, under any schedule: what was handed to the verifier is what was sent |
| StreamSystem.StreamDelivers | akbench/pipe_bandwidth.cc:42-55 | For any positive short reads and writes (StreamPlaces says which): nobody writes without a reader, no early end-of-file, every iteration delivers exactly the data, and in every reachable state received, in transit and unsent bytes make up the data |
| StreamPlaces.AnyWriteCount | akbench/pipe_bandwidth.cc:47-54 | A write to a pipe or FIFO with a reader may take every count from 1 up to what was asked for and fits, and takes exactly the next bytes |
| StreamPlaces.OnlyWriteCounts | akbench/pipe_bandwidth.cc:47-54 | And no other count |
| StreamPlaces.AnyReadCount | akbench/pipe_bandwidth.cc:108-124 | A read from a pipe or FIFO may return every count from 1 up to a whole buffer and what is in transit, and gets exactly the first bytes |
| StreamPlaces.OnlyReadCounts | akbench/pipe_bandwidth.cc:108-124 | And no other count |
| StreamPlaces.WholeMessageSent | akbench/mq_bandwidth.cc:57-68 | A message is exactly min(buffer_size, what is left) bytes long, for any queue that is not full |
| StreamPlaces.WholeMessageReceived | akbench/mq_bandwidth.cc:131-152 | mq_receive takes exactly the first message |
| StreamPlaces.RoomForTen | akbench/mq_bandwidth.cc:197-205 | With fewer than 10 messages queued a send of min(buffer_size, 8192, what is left) bytes goes through |
| StreamPlaces.WaitPlaces | akbench/fifo_bandwidth.cc:45-56 | In every run both sides make one Wait an iteration, after the open and before the first byte |
| StreamPlaces.BlockedIff | akbench/fifo_bandwidth.cc:31-78 | A process that has not exited is blocked only in sem_wait, in an open without the other end, in a write to a full channel or in a read from an empty one |
| StreamSystem.EmptyAtRelease | akbench/pipe_bandwidth.cc:104-125 | When the barrier lets the sender into an iteration nothing of an earlier one is left, although the receiver asks for a whole buffer each time |
| StreamSystem.QueueBounded | akbench/mq_bandwidth.cc:197-205 | At most 10 messages are queued, none empty, none longer than min(buffer_size, 8192), and their lengths add up to the bytes in transit |
| StreamSystem.StreamCompletes | akbench/fifo_bandwidth.cc:45-77 | Neither the open rendezvous, nor a full or empty channel, nor the barrier can block the benchmark for good; at the end every iteration has been delivered and nothing is in transit |
| StreamSteps.SenderOkStep | akbench/fifo_bandwidth.cc:46-77 | Given what the barrier guarantees, opening, writing and closing keep the channel's contents and ends consistent |
| StreamSteps.ReceiverOkStep | akbench/fifo_bandwidth.cc:116-164 | The same for opening, reading and closing on the receiver's side |
| StreamCompletion.CompletesIff | akbench/pipe_bandwidth.cc:21-66 | The streaming benchmarks can be completed from every reachable state if and only if they have an iteration |
| StreamBounds.RunIsBounded | akbench/fifo_bandwidth.cc:31-78 | Any run has at most (32 iterations+81)(2 data_size+11) steps that are neither idle nor blocked, however short the reads and writes |
| StreamMachine.Machine.SendSome | akbench/mq_bandwidth.cc:57-69 | One write or mq_send in place equals the specification's |
| StreamMachine.Machine.ReceiveSome | akbench/mq_bandwidth.cc:130-153 | One read or mq_receive in place equals the specification's |
| StreamMachine.Execute | akbench/pipe_bandwidth.cc:162-190 | Both processes on the in-place barrier, under any schedule and any short counts: what was handed to the verifier is what was sent |
| FlagTheorems.Lockstep | akbench/atomic_rel_acq_latency.cc:15-41 | With loads as stale as coherence allows (FlagLoads says which), neither flag is ever more than one change ahead of what the other thread has read |
| FlagLoads.ParentMayRead | akbench/atomic_rel_acq_latency.cc:19-25 | For every place of the child's modification order that is not older than the parent's view some choice makes the parent load that value, which becomes its view and decides whether it leaves its loop |
| FlagLoads.ParentOnlyReads | akbench/atomic_rel_acq_latency.cc:19-25 | And no choice makes it load anything else |
| FlagLoads.ChildMayRead | akbench/atomic_rel_acq_latency.cc:32-38 | The same for the child |
| FlagLoads.ChildOnlyReads | akbench/atomic_rel_acq_latency.cc:32-38 | And no other value |
| FlagLoads.StaleLoadSpins | akbench/atomic_rel_acq_latency.cc:19-38 | In every state that satisfies the invariant a thread may load the value it read last again, and then spins |
| FlagLoads.StaleLoadHappens | akbench/atomic_rel_acq_latency.cc:32 | With one round: after the parent has stored true, the child may still read false and spin, or read true |
| FlagTheorems.CleanBetweenIterations | akbench/atomic_rel_acq_latency.cc:51-71 | Between iterations both flags are false, each has been stored to 2 * loop_size times per iteration, and each thread's view is up to date; at the end all iterations are over |
| FlagTheorems.StrongRunIsWeak | akbench/atomic_latency.cc:15-41 | Every run of the sequentially consistent handshake is a run of the relaxed one |
| FlagTheorems.WeakRunIsStrong | akbench/atomic_rel_acq_latency.cc:15-41 | Every run of the relaxed handshake, its stale loads dropped, is a run of the sequentially consistent one |
| FlagTheorems.StepFollowsCycle | akbench/atomic_rel_acq_latency.cc:15-41 | A store moves (parent, child) to the next place of the cycle FF, TF, TT, FT; nothing else moves them |
| FlagTheorems.CycleInEveryRun | akbench/atomic_latency.cc:15-41 | So do the flags of every sequentially consistent run |
| FlagHandshake.WeakStepOk | akbench/atomic_rel_acq_latency.cc:15-41 | Each step of either thread, with any permitted load, keeps both modification orders alternating and each view within one change |
| FlagProgress.CanFinish | akbench/atomic_rel_acq_latency.cc:51-62 | From every reachable state a schedule no longer than the remaining work ends all iterations |
| FlagProgress.BusyIsBounded | akbench/atomic_rel_acq_latency.cc:15-41 | However stale the loads, all but a fixed number of the steps of a run is spinning |
| FlagMachine.StrongMachine.ParentMoves | akbench/atomic_latency.cc:15-27 | ParentFlip in place equals the specification's step |
| FlagMachine.WeakMachine.ChildMoves | akbench/atomic_rel_acq_latency.cc:29-41 | ChildFlip in place on relaxed flags equals the specification's step |
| FlagMachine.Execute | akbench/atomic_rel_acq_latency.cc:45-62 | Any schedule in place: at the end both flags are false and have been stored to 2 * loop_size * iterations times |
| CondVar.StepInv | akbench/condition_variable_latency.cc:16-52 | Each step, spurious wake-ups included, keeps mutexes, flags, wait sets and loop counters consistent |
| CondVarTheorems.NoLostWakeup | akbench/condition_variable_latency.cc:21-31 | A thread that sleeps although its flag is up has the other thread's notify_one still to come, and that call wakes it |
| CondVarTheorems.NothingOverwritten | akbench/condition_variable_latency.cc:39-50 | No flag is set while an earlier signal is unconsumed, and none is cleared without one |
| CondVarTheorems.TouchedUnderMutex | akbench/condition_variable_latency.cc:16-52 | A thread that touches a flag holds that flag's mutex and the other one is outside |
| CondVarTheorems.ResetIsIdle | akbench/condition_variable_latency.cc:88-90 | At the reset both flags are already false, both mutexes free and both wait sets empty, and both threads have done the same number of rounds |
| CondVarPlaces.SignalsCounted | akbench/condition_variable_latency.cc:20-52 | Between iterations each thread has raised its flag exactly loop_size times per iteration, however many spurious wake-ups there were; at the end all iterations are over |
| CondVarPlaces.NotifyWakesOne | akbench/condition_variable_latency.cc:25-50 | notify_one takes exactly one sleeper out of the wait set if there is any |
| CondVarPlaces.NotifyAfterUnlock | akbench/condition_variable_latency.cc:21-25 | In every run the mutex has been given up before notify_one |
| CondVarPlaces.ParentBlockedIff | akbench/condition_variable_latency.cc:16-33 | The parent is blocked exactly on an owned mutex, asleep in the wait set, or in join |
| CondVarPlaces.ChildBlockedIff | akbench/condition_variable_latency.cc:35-52 | The same for the child |
| CondVarTheorems.CanFinish | akbench/condition_variable_latency.cc:16-52 | From every reachable state some schedule ends the benchmark without a single spurious wake-up |
| CondVarTheorems.BusyIsBounded | akbench/condition_variable_latency.cc:16-52 | Under any schedule a run does at most a fixed number of steps plus three for each spurious wake-up |
| CondVarMachine.SharedFlag.AwaitStep | akbench/condition_variable_latency.cc:28-30 | unique_lock, the predicate wait, the clearing and the unlock in place equal the specification's steps |
| CondVarMachine.Execute | akbench/condition_variable_latency.cc:56-91 | Any schedule in place: at the end all flags, mutexes and wait sets are as at the start |
| Checksum.AcceptedIff | akbench/common.cc:61-84 | A changed copy, of the same size, of a block that verifies is accepted if and only if the errors XOR to zero in every column |
| Checksum.BurstRejected | akbench/common.cc:61-84 | Any change confined to 128 consecutive context bytes is rejected |
| Checksum.ChecksumChangeRejected | akbench/common.cc:74-81 | Any change confined to the checksum is rejected |
| Checksum.ColumnPermutationAccepted | akbench/common.cc:12-23 | A copy whose context bytes only changed places within their columns (each column holds the same bytes equally often) is accepted |
| Checksum.VerifiesIff | akbench/common.cc:61-84 | A block verifies if and only if it has the given size, more than 128, and its last 128 bytes are the XOR of the columns before them |
| Checksum.ColumnIs | akbench/common.cc:19-21 | Column c holds the bytes at c, c + 128, c + 256 and so on, in order, and no others |
| DataBlock.CalcChecksum | akbench/common.cc:12-23 | The loop computes the XOR of each column, and stops the program on a size of at most 128 |
| DataBlock.VerifyDataReceived | akbench/common.cc:61-84 | The answer is true exactly for blocks of the given size whose last 128 bytes are the columns of the rest |
| DataBlock.Vector.Store | akbench/common.cc:34-42 | A store changes one cell and is appended to the vector's log; the cells are always what replaying the log on zeros gives |
| DataBlock.FillContext | akbench/common.cc:36-43 | By the log, the 8-byte loop and the tail loop store to each context byte exactly once and to nothing beyond; with q = (context_size - 1) / 8, byte p is byte p mod 8 of draw p / 8 before 8q and the low byte of draw q + (p - 8q) from there on |
| DataBlock.WordsIs | akbench/common.cc:37-41 | The 8-byte loop leaves between one and eight bytes to the tail loop unless there are none at all: eight when the size is divisible by 8 |
| DataBlock.LastByte | akbench/common.cc:41-43 | The last context byte is the low byte of the last draw, number (n - 1) / 8 + (n - 1) mod 8 |
| DataBlock.GenerateDataToSend | akbench/common.cc:25-59 | For every size above 128 and every random stream the block verifies, its context is the stream, and by the log every byte was stored to exactly once |
| DataBlock.GeneratedBytes | akbench/common.cc:36-51 | Byte by byte what is sent: the context bytes by their draws, the last 128 as the XOR of their columns |
| DataBlock.GeneratedOnce | akbench/common.cc:36-51 | A stream and a size determine the block |
| EndToEnd.PipelineBenchmark | akbench/shm_bandwidth.cc:129-182 | The shm and mmap benchmarks from random stream to last verification: the data is the stream with its checksum, what is delivered is what the two processes on the barrier deliver for it, each block equals the data, each verdict is right and favourable, and a finished run has one per iteration |
| EndToEnd.StreamBenchmark | akbench/pipe_bandwidth.cc:162-190 | The same for the pipe, the FIFO and the message queue |
| EndToEnd.MemcpyBenchmark | akbench/memcpy_mt_bandwidth.cc:14-57 | The same for the multi-threaded memcpy, with one verdict per measured iteration |
| EndToEnd.PipelineVerifies | akbench/mmap_bandwidth.cc:192-199 | Whatever block that verifies is sent, every delivered block verifies |
| EndToEnd.StreamVerifies | akbench/fifo_bandwidth.cc:156-162 | No verification fails in the pipe, FIFO and message queue benchmarks |
| EndToEnd.MemcpyVerifies | akbench/memcpy_mt_bandwidth.cc:46-56 | No verification fails in the multi-threaded memcpy |
| MemcpyMt.ChunksPartition | akbench/memcpy_mt_bandwidth.cc:18-25 | For every thread count from one on, more threads than bytes included, the chunks cover the data and no byte lies in two |
| MemcpyMt.ChunksAre | akbench/memcpy_mt_bandwidth.cc:18-23 | Each chunk but the last has c bytes, where n_threads * c <= data_size < n_threads * (c + 1), and the last one takes the rest |
| MemcpyMt.ChunkInside | akbench/memcpy_mt_bandwidth.cc:21-23 | Start and end of every chunk are in order, within data_size, and adjoining |
| MemcpyMtRun.CopyIsExact | akbench/memcpy_mt_bandwidth.cc:28-57 | Under every interleaving of byte copies, creations and joins dst equals src after the joins, and each measured iteration checks that |
| MemcpyMtRun.IterationsAre | akbench/memcpy_mt_bandwidth.cc:28-47 | dst is all zero when the threads are created, and the run ends after exactly warm-ups plus iterations, of which the measured ones have been checked |
| MemcpyMtRun.BlockedIff | akbench/memcpy_mt_bandwidth.cc:33-38 | The main thread waits only for a thread with bytes left to copy, and a thread stands still only before it is created and after its last byte |
| MemcpyMtRun.NoRace | akbench/memcpy_mt_bandwidth.cc:20-25 | The byte a thread is about to store to is inside both vectors, in no other thread's chunk, and no earlier store of this iteration went to it |
| MemcpyMtRun.StoredOnce | akbench/memcpy_mt_bandwidth.cc:33-38 | When the joins are over the threads have stored to every byte of dst, and to none twice |
| MemcpyMtRun.CanFinish | akbench/memcpy_mt_bandwidth.cc:33-38 | From every reachable state some schedule ends all iterations |
| MemcpyMtRun.RunIsBounded | akbench/memcpy_mt_bandwidth.cc:28-57 | Any run has at most iterations * (data_size + 2 n_threads + 5) + 1 steps that do something, warm-ups counted |
| MemcpyMtMachine.Execute | akbench/memcpy_mt_bandwidth.cc:14-57 | The same on arrays copied into in place |
| OneTripStatistics.CalculateOneTripDuration | akbench/common.cc:112-130 | No sample stops the program, one sample gives a range that C++ leaves undefined; otherwise average times count is the sum of all samples less the first and the last, and the variance is the squared deviations of the kept samples over the full count |
| OneTripStatistics.ThreeSamples | akbench/common.cc:116-126 | Samples 4, 1, 7 give average 1/3 and variance 4/27 |
| OneTripStatistics.Trimmed | akbench/common.cc:116-126 | With n >= 3 samples, m and v the mean and population variance of the middle ones: the average is m(n-2)/n and the squared deviation (n-2)/n * (v + e), e = d*d, d = 2m/n |
| OneTripStatistics.AverageIsMeanIff | akbench/common.cc:116-119 | The average is the mean of the filtered samples if and only if these sum to zero |
| OneTripStatistics.AverageDiffers | akbench/common.cc:116-119 | Three samples of 1 are an input where it is not |
| OneTripStatistics.AverageTooSmall | akbench/common.cc:116-119 | For positive durations the average that is reported is smaller than their mean, by the factor (n-2)/n |

## Left out

- PipelineSystem.PipelineDelivers: needs that data_size + buffer_size - 1 and 16 + 2 * buffer_size do not wrap around in 64 bits, and buffer_size > 0, which akbench/akbench.cc:552-567 does not check for type `all`.
- OneTripStatistics.CalculateOneTripDuration: over reals and on the variance, without rounding and the square root; what a program does after the undefined case of one sample is not modelled.
- DataBlock.GenerateDataToSend: 64-bit words are given by their eight bytes, lowest first, so an 8-byte store is eight byte stores in little-endian order; the ghost log sees stores made through `Vector.Store`.
- BarrierSafety.RoundsApart: n users on a barrier for n; more or fewer users than the count the barrier was made for are not modelled.
- FlagHandshake.WeakStepOk: coherence of each flag only, which is all the handshake uses; ordering between different locations is not modelled, and thread creation and join make everything visible.
- PipelineMachine.Execute: buffers and received data are sequence-valued fields that the methods reassign, so aliasing between two mappings of one object is by a shared identifier and not by address.
- Completion theorems (`FinishIff`, `CompletesIff`, `Complete`, `CanFinish`): some continuation ends, and the busy steps of every run are bounded (`RunIsBounded` of the barrier, the latency benchmark, the pipeline, the streams and the memcpy, where there is at least one Wait to make, and `BusyIsBounded` of the flags and the condition variable); that a fair scheduler picks such a continuation is not stated.
- Pipe and FIFO ends: only the two ends the benchmark uses; the unused descriptors that both processes close after fork, and the default pipe capacity, which is a parameter here. A FIFO end counts as open as soon as its open has begun, which is what lets the two opens meet.
- Message queue descriptors: mq_open and mq_close per iteration do not change the queue and are not steps.
- Closing the semaphore and unmapping in the barrier's destructor: they end a user's access and have no effect on the others.
- Failing system calls, logging, clocks and random generation: calls succeed, a failed AKCHECK stops, the random stream and the clock's readings are parameters.
- akbench/tcp_bandwidth.cc and akbench/uds_bandwidth.cc: the transfer loop is the pipe's, the rest is connection plumbing.
- akbench/semaphore_latency.cc, akbench/syscall_latency.cc and akbench/memcpy_bandwidth.cc: no protocol beyond those above.
- akbench/mpi_bandwidth.cc and benchmark_comparison/: wrappers over libraries that are not part of this model.
- Command line, dispatch and output in akbench/akbench.cc, and `CalculateBandwidth` in akbench/common.cc: mean and deviation of all samples without trimming.
