# Verified models of the profiler's concurrent and arithmetic core

The profiler logs tuples on channels while an application runs.  This project
models the parts of it whose correctness is not visible from reading one
function, and proves what they keep over every run.  `dafny verify dfyconfig.toml`
checks everything.

**Buffered log pipeline** (`pipeline_*.dfy`, `io_thread.dfy`,
`buffer_handler.dfy`).  A channel's logging thread fills blocks of 1000000
records.  Full blocks go through a compression queue, any number of compression
threads, and an io queue to one IO thread, which restores their order in a
reorder buffer and writes the file; empty blocks go back through a return queue.
`PipelineModel` is a transition system for any number of channels and compression
threads; a step is one atomic access to shared state, and the IO thread's loop
guard is four separate reads, as in the code.  Opening a channel is three steps:
count it and create the IO thread, count it as compressed, create the compression
threads and its blocks; a flag and the threads that it guards are created together.
The results hold in every reachable state: `FileIsOrderedPrefix` (each file is
exactly the blocks handed over so far, in order, so its content is a prefix of the
log),
`BlocksAreConserved` (each of a channel's 32 blocks is in exactly one place), and
`CompleteIffNotStranded` and `ShutdownLosesNothing` (when all threads have ended, a
closed channel's file is complete and closed exactly if none of its blocks was
left in the compression queue or the io queue, or dropped).  The IO thread, the
handler, closing and the final drain are also given as imperative classes that
refine the steps.

Shutdown is not loss-free in general.  `PipelineRuns` has five runs in which the
code loses a record.  The loop guard reads `comp_thread_created` twice and can be
torn by the creation of the compression threads.  The result of the compression
thread's push to the io queue is ignored, so a full queue loses a block and the
channel's file never closes.  With compressed and uncompressed channels mixed the IO
thread leaves as soon as the compressed ones are closed.  A compressed channel that
is counted in `num_buf_comp_ch` after the last one was closed gets no threads if
`comp_thread_created` is still set, and gets a second set of threads but no IO thread
if the IO thread has already reset it.  `ShutdownLosesNothing` has the negation of
these as its conditions; a history variable (`torn`, `dropped`, `late`) records
whether the first two, or one of the last two, happened.

**File formats** (`log_format.dfy`, `ascii_format.dfy`, `pipeline_files.dfy`).
Records are 40 bytes, little-endian; compressed files are length-prefixed frames; the
codec is any invertible pair of functions.  `FormatsAgree`: cut into blocks in any way,
decompressing the compressed file gives the file of the binary path.
`ConvertedFileIsPrefix` puts pipeline and converter together, also for files that
were cut off at any byte.  `AsciiRoundTrip`: the text that the converter writes
shows every record.

**Fast periodic counters** (`fpc_*.dfy`).  Sampling threads, one per period, are
created and end themselves while channels move between them by jobs.
`NoLostJob`, `UniqueOwner`, `MapIsExact`, `JobsFindTheirChannel` and
`ThreadsNeverStuck` are the protocol's safety; `EventsAreConserved`,
`IntervalsAreConserved` and `TotalCountIsRight` are its bookkeeping.  `FpcRuns` has two
runs that the comments of the code do not expect: removal can report remaining
closures when the last channel is being closed, and the thread of the default
period ends although a channel is open.  The code was followed in both.  When they
happen is known exactly: `RemovalFindsClosures` for the first, and for the second the
last clause of `RemovalErrors` (a thread that tries removal ends if and only if its
queue is empty and it samples no channel, whatever channels are open elsewhere).
`OpenCountIsExact` ties the reference counter to the channels.  The sampling,
processing and job loops are runs of the transition system (`fpc_loops.dfy`), and the
imperative ones end in the same states.

**Bucket pool** (`bucket_*.dfy`).  Producer and consumer share buckets without
copying: `BucketsArePartitioned`, `WritesAreExclusive`, `DeliveriesAreFifo`, and that
the two are never stuck together.

**Synchronisation** (`barrier.dfy`, `gpio*.dfy`).  The counting barrier for any
number of threads, and the sense-reversing handshake between two boards, with the
proof that its one-bit tests stand for counts.

**Slot scheduler** (`slots.dfy`, `slot_sorting.dfy`, `placement.dfy`).  The order of
free slots is a permutation, fair in every prefix; executors are dealt out
evenly.  `ScheduleTopology` fails exactly when slots are free but more slots are
already in use than workers are wanted (the code then asks for a sublist with a
negative end).

**Exact arithmetic** (`timespec.dfy`, `periodic_*.dfy`, `decimal_text.dfy`,
`duration_text.dfy`, `xoy.dfy`).  The flush grid of the periodic counter, with the exact
condition (fewer than 2^32 - 1 elapsed periods) under which a flush lands in the
future; duration texts that can be read back; and the mask that stands for a
modulo.  The header of the XoY handler promises to reject a Y that is not a power
of two and factors that are not positive: the code accepts a Y that becomes a power of
two when rounded to a double (`RoundingAccepts`: 2^53 + 1, or -1 converted to
unsigned), and zero for both.  `MaskIsModulo` says exactly which Y are right.

## Model

| member | source | states |
|---|---|---|
| PipelineSafety.FileIsOrderedPrefix | src/cp/handlers/io_thread/io_thread.cpp:146-176 | in every reachable state a file is the blocks 0 to next-1 handed over, in order, its content a prefix of the log, and every id in the reorder buffer is beyond next |
| PipelineSafety.BlocksAreConserved | src/cp/handlers/buffer_id_handler.cpp:166-178 | every own block of a channel is in exactly one place; returned blocks are empty; writes stay inside the block; block ids count the blocks handed over |
| PipelineSafety.ReturnQueueHasRoom | src/cp/handlers/io_thread/block_data.cpp:39-41 | sending a block back never finds the return queue full |
| PipelineSafety.WaitingBlocksAreUnderWay | src/cp/handlers/buffer_id_handler.cpp:78-80 | a logging thread that polls an empty return queue has all its blocks with the other threads |
| PipelineSafety.StepKeeps | src/cp/handlers/compression_thread/comp_thread.cpp:82-97 | each step of each thread keeps the invariant behind these results |
| PipelineInvariant.WriteCompressedInv | src/cp/handlers/io_thread/io_thread.cpp:146-176 | writing or parking a block keeps the channel's file, counter and reorder buffer consistent |
| PipelineShutdown.CompleteIffNotStranded | src/cp/handlers/io_thread/cleanup.cpp:79-93 | after all threads ended, a closed channel's file is complete and closed if and only if none of its blocks is left in the compression queue or the io queue or was dropped |
| PipelineShutdown.ShutdownLosesNothing | src/cp/handlers/buffer_id_handler.cpp:39-64 | with channels of one kind, none late, no torn guard and no failed push, the end state has empty queues and complete, closed files |
| PipelineShutdown.QueueEmptied | src/cp/handlers/io_thread/io_thread.cpp:37-57 | with channels of one kind, no compressed one late, and no torn guard the IO thread ends with an empty io queue, which stays empty |
| PipelineShutdown.StopKeeps | src/cp/handlers/compression_thread/comp_thread.cpp:14-29 | each step keeps the counting of open channels and of finished compression threads that shutdown relies on |
| PipelineRuns.TornGuardLosesTheLog | src/cp/handlers/io_thread/io_thread.cpp:37-38 | a run in which the two reads of comp_thread_created differ and the only record is never written |
| PipelineRuns.FullQueueLosesABlock | src/cp/handlers/compression_thread/comp_thread.cpp:93-96 | a reachable state in which a push to the full io queue was ignored and the block is gone |
| PipelineRuns.MixedKindsLoseTheLog | src/cp/handlers/io_thread/io_thread.cpp:37-38 | a run with one compressed and one uncompressed channel that ends with an unwritten record |
| PipelineRuns.LateChannelLosesTheLog | src/cp/handlers/buffer_id_handler.cpp:150-164 | a run with two compressed channels in which the second is counted after all compression threads finished, and its block stays in the compression queue |
| PipelineRuns.SecondSetLosesTheLog | src/cp/handlers/io_thread/io_thread.cpp:59-63 | a run in which the flag was reset before that, a second set of threads is created, and the block stays in the io queue |
| IoThreadCode.IoThread.DrainPending | src/cp/handlers/io_thread/io_thread.cpp:157-169 | the drain loop terminates and leaves file, counter and reorder buffer as the model's drain |
| IoThreadCode.IoThread.WriteCompressedBlock | src/cp/handlers/io_thread/io_thread.cpp:146-176 | the imperative reorder buffer refines the model's step and leaves other channels alone |
| IoThreadCode.FlushBlockInQueues | src/cp/handlers/io_thread/cleanup.cpp:79-93 | the final drain writes every queued block in queue order |
| IoThreadCode.FlushRun | src/cp/handlers/io_thread/cleanup.cpp:79-93 | the IO thread's steps alone reach the state that the drain loop computes |
| BufferHandlerCode.BlockData.WriteOnBlock | src/cp/handlers/io_thread/block_data.cpp:47-51 | one record is appended, the rest of the array is unchanged |
| BufferHandlerCode.BlockData.CheckBlockIsFull | src/cp/handlers/io_thread/block_data.cpp:43-45 | true exactly when the block holds BUFFER_BLOCK_SIZE records |
| BufferHandlerCode.WriteUncompressedBlock | src/cp/handlers/io_thread/io_thread.cpp:131-144 | all records are written in order, the file closed if asked, the block emptied, as in the model |
| BufferHandlerCode.BufferClosure.BufferIdentityHandler | src/cp/handlers/buffer_id_handler.cpp:66-86 | logging a record, and handing over a full block, refine the model's steps |
| BufferHandlerCode.BufferClosure.CloseChannel | src/cp/handlers/buffer_id_handler.cpp:39-64 | the last block is marked and handed over, then the counters go down, in that order, and once only |
| BufferHandlerCode.CloseStepsRun | src/cp/handlers/buffer_id_handler.cpp:52-58 | these accesses in this order are a run of the model that closes the channel |
| BufferHandlerCode.BufferClosure.LogTS | src/cp/handlers/buffer_id_handler.cpp:66-86 | after closing, the null handler writes nothing |
| LogFormat.RecordRoundTrip | src/cp/handlers/id_handler.cpp:69-82 | a record read back from its 40 bytes is the record written |
| LogFormat.BinaryRoundTrip | src/postprocessing/btoa_converter.cpp:183-191 | reading a binary file record by record recovers the sequence written |
| LogFormat.RecordsOfPrefix | src/postprocessing/btoa_converter.cpp:183-191 | a binary file cut off anywhere yields the whole records in front of the cut |
| LogFormat.FormatsAgree | src/postprocessing/btoa_converter.cpp:220-244 | for any division into blocks, decompressing the compressed file gives the binary file of the same records |
| LogFormat.FramesOfPrefix | src/postprocessing/btoa_converter.cpp:220-229 | a compressed file cut off anywhere yields the whole frames in front of the cut |
| LogFormat.TruncatedFile | src/postprocessing/btoa_converter.cpp:220-244 | what a cut-off compressed file decompresses to |
| LogFormat.Decompress | src/postprocessing/btoa_converter.cpp:199-252 | the converter's loop computes the decompression of all whole frames |
| LogFormat.ConvertBinary | src/postprocessing/btoa_converter.cpp:165-195 | the converter's loop writes the text of exactly the whole records of the file |
| LogFormat.ConvertedText | src/postprocessing/btoa_converter.cpp:183-191 | the text converted from a binary file cut off anywhere shows the records in front of the cut |
| AsciiFormat.AsciiRoundTrip | src/cp/handlers/id_handler.cpp:60-63 | every record written as a line is read back from the text |
| AsciiFormat.ReadAsciiOfPrefix | src/cp/handlers/id_handler.cpp:60-63 | text cut off anywhere yields the whole lines in front of the cut |
| PipelineFiles.ConvertedFileIsPrefix | src/postprocessing/btoa_converter.cpp:220-244 | at any moment of any run, converting any cut-off copy of a compressed file gives first records of the log |
| PipelineFiles.FilesHoldTheLogs | src/cp/handlers/io_thread/io_thread.cpp:118-144 | after a loss-free shutdown both kinds of file are the bytes of the log and read back as it |
| FpcProtocol.NoLostJob | src/cp/handlers/fast_periodic_counter_handler.cpp:373-408 | while a call waits its job is in exactly one queue of a registered, running thread, once, or in exactly one thread's hand; otherwise nowhere |
| FpcProtocol.UniqueOwner | src/cp/handlers/fast_periodic_counter_handler.cpp:193-247 | at most one thread samples a channel; an idle or closing channel is sampled by exactly the thread registered for its period |
| FpcProtocol.MapIsExact | src/cp/handlers/fast_periodic_counter_handler.cpp:370-449 | the thread map and the running threads correspond one to one |
| FpcProtocol.JobsFindTheirChannel | src/cp/handlers/fast_periodic_counter_handler.cpp:216-261 | DELETE is executed by the sampling thread; MOVE misses its channel exactly when it was closed; INSERT finds it nowhere |
| FpcProtocol.ThreadsNeverStuck | src/cp/handlers/fast_periodic_counter_handler.cpp:212-214 | a running thread can always take its next step, in particular never pops an empty queue |
| FpcProtocol.RemovalErrors | src/cp/handlers/fast_periodic_counter_handler.cpp:410-449 | removal never misses its thread, finds closures only at the default period, and succeeds if and only if there are no jobs and no closures (the exact condition of `DefaultThreadEnds`) |
| FpcProtocol.StepKeeps | src/cp/handlers/fast_periodic_counter_handler.cpp:209-352 | every step keeps map, closures, queues, jobs in hand and callers consistent |
| FpcRemoval.OpenCountIsExact | src/cp/handlers/fast_periodic_counter_handler.cpp:25-29 | in every reachable state the reference counter is the number of channels between opening and closing |
| FpcRemoval.RemovalFindsClosures | src/cp/handlers/fast_periodic_counter_handler.cpp:431-440 | a removal with an empty queue finds closures if and only if the thread has the default period and a channel of that period is out of the count with its DELETE job still to be submitted |
| FpcLoops.SampleRun | src/cp/handlers/fast_periodic_counter_handler.cpp:301-307 | the sampling loop is a run of the thread alone that samples exactly its channels |
| FpcLoops.ProcessRun | src/cp/handlers/fast_periodic_counter_handler.cpp:308-322 | so is the processing loop |
| FpcLoops.JobLoopRun | src/cp/handlers/fast_periodic_counter_handler.cpp:209-264 | the job loop is a finite run of the thread alone; every job that it hands on is then in the queue of the registered thread of its channel's period |
| FpcConservation.EventsAreConserved | src/cp/handlers/fast_periodic_counter_handler.cpp:64-67 | handler calls are the counter, what is sampled and unprocessed, and the counts in the file |
| FpcConservation.IntervalsAreConserved | src/cp/handlers/fast_periodic_counter_handler.cpp:309-322 | sampling rounds are the count lines, the skipped intervals reported, and those pending |
| FpcConservation.TotalCountIsRight | src/cp/handlers/fast_periodic_counter_handler.cpp:249-261 | the total count line is there exactly after closing, is last, and is the sum of the counts above |
| FpcRuns.RemovalCanFindClosures | src/cp/handlers/fast_periodic_counter_handler.cpp:266-281 | a run in which the default thread tries removal while it still samples a channel |
| FpcRuns.DefaultThreadEnds | src/cp/handlers/fast_periodic_counter_handler.cpp:274-277 | a run in which the default thread terminates while a channel is open |
| FpcClosureCode.FpcClosure.Process | src/cp/handlers/fast_periodic_counter_handler.cpp:309-322 | processing a sample is the model's step |
| FpcClosureCode.FpcClosure.Insert | src/cp/handlers/fast_periodic_counter_handler.cpp:217-227 | an INSERT job is the model's step on the channel |
| FpcClosureCode.FpcClosure.MoveAway | src/cp/handlers/fast_periodic_counter_handler.cpp:228-243 | a MOVE job is the model's step on the channel |
| FpcClosureCode.FpcClosure.Delete | src/cp/handlers/fast_periodic_counter_handler.cpp:249-261 | a DELETE job is the model's step on the channel |
| FpcClosureCode.ThrDescriptor.SampleAll | src/cp/handlers/fast_periodic_counter_handler.cpp:301-307 | exactly the thread's channels are sampled, as in the model's run |
| FpcClosureCode.ThrDescriptor.ProcessAll | src/cp/handlers/fast_periodic_counter_handler.cpp:308-322 | exactly the thread's channels are processed, as in the model's run |
| FpcClosureCode.ThrDescriptor.ProcessJobQueue | src/cp/handlers/fast_periodic_counter_handler.cpp:209-264 | the job loop ends in the state of a run of the model's thread alone, with all queued jobs executed in order and exactly the moved ones submitted |
| BucketPool.BucketsArePartitioned | src/cp/java/JObjFactory.java:208-215 | the QUEUE_SIZE+1 buckets of a socket are split up without duplicates between back queue, values queue, producer and consumer |
| BucketPool.WritesAreExclusive | src/cp/java/JObjFactory.java:245-251 | the bucket a producer writes is in no queue and not held by the consumer |
| BucketPool.DeliveriesAreFifo | src/cp/java/JObjFactory.java:267-272 | batches are delivered in order; the held bucket keeps its batch and length, and goes back to its own socket |
| BucketPool.ConsumerNeverStuck | src/cp/java/JObjFactory.java:97-104 | giving back never fails; taking waits only for a producer that can offer |
| BucketPool.ProducerNeverStuck | src/cp/java/JObjFactory.java:245-272 | a waiting producer has a bucket queued that the consumer can take |
| BucketPool.StepKeeps | src/cp/java/JObjFactory.java:241-276 | every step keeps buckets, contents and lengths consistent |
| BucketFactoryCode.JObjFactory.FetchVBucketNB | src/cp/java/JObjFactory.java:92-150 | a call gives back, polls and takes, spinning if the producer is between its two offers, and returns the bucket and its length |
| BucketFactoryCode.FetchedIsRun | src/cp/java/JObjFactory.java:92-150 | a call is a run of the model: consumer steps, and one step of the producer exactly if the call spins |
| BucketFactoryCode.AwaitedIsReady | src/cp/java/JObjFactory.java:113-114 | the bucket of a polled length is queued, or the producer's next step queues it |
| BucketFactoryCode.SocketsTakeTurns | src/cp/java/JObjFactory.java:112-139 | calls poll the sockets in turn; a call succeeds exactly when a length is queued |
| BucketFactoryCode.FillBackQueue | src/cp/java/JObjFactory.java:211-215 | the constructor offers every bucket and none is dropped |
| BucketFactoryCode.FillBucket | src/cp/java/JObjFactory.java:249-265 | the batch replaces the front of the bucket, the rest stays |
| BucketFactoryCode.FilledUpBucket | src/cp/java/JObjFactory.java:249-265 | the model's filling steps have the same effect |
| Barrier.NobodyLeavesEarly | src/cp/armfreq/barrier.cpp:22-28 | no thread returns from its k-th call before every thread entered its k-th |
| Barrier.CountersAreClose | src/cp/armfreq/barrier.cpp:22-28 | any two counters differ by at most one |
| Barrier.NoWaitingChains | src/cp/armfreq/barrier.cpp:25-27 | whoever a thread waits for is not waiting itself, so the threads never all wait |
| Barrier.AllArrivedPass | src/cp/armfreq/barrier.cpp:25-27 | once all have entered, a waiting thread returns by its own steps |
| Barrier.BarrierCode.BarrierInit | src/cp/armfreq/barrier.cpp:15-20 | exactly the counters in use are cleared |
| Barrier.BarrierCode.BarrierWait | src/cp/armfreq/barrier.cpp:22-28 | whatever steps the other threads take while it spins, the call and they are a run of the model; it returns only when no counter is behind its level, otherwise those steps are used up and it is blocked; it waits for nobody if it arrives last |
| Gpio.BitsStandForCounts | src/cp/handlers/gpiortt_handler.cpp:79-91 | a one-bit test blocks exactly while the other side's count is behind |
| Gpio.RoundsInLockstep | src/cp/handlers/gpiortt_handler.cpp:435-443 | the client finishes a round only after the master answered it; counts are at most one apart |
| Gpio.PinsShowParity | src/cp/handlers/gpiortt_handler.cpp:88-89 | each pin is the parity of its owner's toggles |
| Gpio.StartTogether | src/cp/handlers/gpiortt_handler.cpp:242-247 | no round begins before both sides passed the start barrier |
| Gpio.NeverBothBlocked | src/cp/handlers/gpiortt_handler.cpp:435-443 | the two sides are never both blocked |
| Gpio.ClientIsAnswered | src/cp/handlers/gpiortt_handler.cpp:425-443 | a blocked client is released by a few steps of the master alone |
| GpioCode.ToggleOne | src/cp/handlers/gpiortt_handler.cpp:89 | exclusive or with a pin's bit toggles that pin of the four and no other |
| GpioCode.GPIORTTClosure.constructor | src/cp/handlers/gpiortt_handler.cpp:393-400 | initialisation sets this side's pins low |
| GpioCode.GPIORTTClosure.ClientConnect | src/cp/handlers/gpiortt_handler.cpp:242-245 | the client's side of the start barrier is the model's step |
| GpioCode.GPIORTTClosure.ClientSignal | src/cp/handlers/gpiortt_handler.cpp:79-89 | a handler call up to its wait is two steps of the model |
| GpioCode.GPIORTTClosure.ClientWaitsForAnswer | src/cp/handlers/gpiortt_handler.cpp:91 | the waiting test is the model's blocking condition |
| GpioCode.GPIORTTClosure.MasterSignalStart | src/cp/handlers/gpiortt_handler.cpp:427-430 | after its wait the master's start signal is two steps of the model |
| GpioCode.GPIORTTClosure.MasterAnswer | src/cp/handlers/gpiortt_handler.cpp:439-442 | after its wait the master's answer is two steps of the model |
| Slots.InterleaveAll | src/3rdparty/streaming-benchmarks/EvenScheduler/src/main/java/org/apache/storm/utils/ServerUtils.java:9-26 | terminates on every list of lists, null or empty ones included, and computes the interleaving |
| Slots.InterleaveIsFair | src/3rdparty/streaming-benchmarks/EvenScheduler/src/main/java/org/apache/storm/utils/ServerUtils.java:9-26 | in every prefix, no node is more than one slot ahead of another that has slots left |
| Slots.InterleaveKeepsNodes | src/3rdparty/streaming-benchmarks/EvenScheduler/src/main/java/org/apache/storm/utils/ServerUtils.java:9-26 | each node's slots are all there, in their order |
| SlotSorting.SortSlots | src/3rdparty/streaming-benchmarks/EvenScheduler/src/main/java/org/apache/storm/scheduler/EvenScheduler.java:41-91 | the loops compute the slot order; null exactly without slots |
| SlotSorting.GroupByNode | src/3rdparty/streaming-benchmarks/EvenScheduler/src/main/java/org/apache/storm/scheduler/EvenScheduler.java:54-66 | one group for each node with slots, in the order of the input |
| SlotSorting.OrderIsPermutation | src/3rdparty/streaming-benchmarks/EvenScheduler/src/main/java/org/apache/storm/scheduler/EvenScheduler.java:41-91 | the order is a permutation of the slots |
| SlotSorting.OrderKeepsNodes | src/3rdparty/streaming-benchmarks/EvenScheduler/src/main/java/org/apache/storm/scheduler/EvenScheduler.java:68-76 | each node's slots are by ascending port, equal ports in their old order |
| SlotSorting.OrderIsFair | src/3rdparty/streaming-benchmarks/EvenScheduler/src/main/java/org/apache/storm/scheduler/EvenScheduler.java:41-91 | every prefix of the order is fair between any two nodes |
| SlotSorting.LargestNodeFirst | src/3rdparty/streaming-benchmarks/EvenScheduler/src/main/java/org/apache/storm/scheduler/EvenScheduler.java:78-85 | the first slot is on a node with the most slots |
| Placement.ReverseMap | src/3rdparty/streaming-benchmarks/EvenScheduler/src/main/java/org/apache/storm/utils/Utils.java:27-43 | for every value, exactly the keys with it, each once, in whatever order entries come |
| Placement.ReverseDeterminesMap | src/3rdparty/streaming-benchmarks/EvenScheduler/src/main/java/org/apache/storm/utils/Utils.java:27-43 | the map can be read back from its reverse |
| Placement.ScheduleTopology | src/3rdparty/streaming-benchmarks/EvenScheduler/src/main/java/org/apache/storm/scheduler/EvenScheduler.java:103-147 | fails exactly when slots are free and more are in use than wanted; otherwise deals out the unassigned executors |
| Placement.PlacementIsBalanced | src/3rdparty/streaming-benchmarks/EvenScheduler/src/main/java/org/apache/storm/scheduler/EvenScheduler.java:131-141 | every unassigned executor gets one chosen slot; loads differ by at most one |
| Placement.AssignedListsAreBalanced | src/3rdparty/streaming-benchmarks/EvenScheduler/src/main/java/org/apache/storm/scheduler/EvenScheduler.java:149-161 | the lists handed to the cluster slot by slot differ in length by at most one |
| Timespecs.TimespecVar.AddTS | src/cp/time.cpp:51-62 | exact addition in normal form, and of the 64-bit counters, also when the result is an operand |
| Timespecs.TimespecVar.SubtractTS | src/cp/time.cpp:64-76 | exact subtraction, and of the 64-bit counters, also when the result is an operand |
| Timespecs.CompareTS | src/cp/time.cpp:89-98 | the order of the times in nanoseconds |
| PeriodicCounter.CounterIsExact | src/cp/handlers/periodic_counter_handler.cpp:48-68 | over any operations the flush time is on the grid, one period past the reported ones and within a period of now; events are the counter and the written counts |
| PeriodicCounter.FlushTimeIsAhead | src/cp/handlers/periodic_counter_handler.cpp:185-214 | a flush lands in (now, now + period], and advances by as many periods as it reports |
| PeriodicCounter.FlushLandsAhead | src/cp/handlers/periodic_counter_handler.cpp:196-199 | a flush lands in the future if and only if fewer than 2^32 - 1 periods have passed |
| PeriodicCounter.FlushReportsAll | src/cp/handlers/periodic_counter_handler.cpp:149-183 | a stop writes all events, and reports all periods ended since the start |
| PeriodicClosureCode.PCClosure.PeriodicCounterHandler | src/cp/handlers/periodic_counter_handler.cpp:48-68 | the handler on seconds and nanoseconds is the model's step |
| PeriodicClosureCode.PCClosure.GetNextShotAndFlushCtr | src/cp/handlers/periodic_counter_handler.cpp:185-214 | the next shot, in 32- and 64-bit arithmetic, and the lines written |
| PeriodicClosureCode.PCClosure.FlushCtr | src/cp/handlers/periodic_counter_handler.cpp:149-183 | the lines written when the counter stops |
| PeriodicClosureCode.PCClosure.CloseChannel | src/cp/handlers/periodic_counter_handler.cpp:35-46 | header if missing, flush, shut-down line, closed |
| PeriodicClosureCode.PCClosure.SetArg | src/cp/handlers/periodic_counter_handler.cpp:85-121 | a valid period restarts the grid now; anything else closes the channel |
| DecimalText.L2aCommas | src/cp/util.c:33-58 | the decimal digits with a comma before each full group of three from the right, and a sign |
| DecimalText.FromRightIsGrouped | src/cp/util.c:37-47 | grouping from the right, digit by digit, is grouping by thousands |
| DecimalText.NumGrouped | src/cp/util.c:33-58 | the digits of the text are those of the number |
| DurationText.FormatDuration | src/cp/time.cpp:100-142 | the text of each branch, and that it reads back as the seconds and nanoseconds |
| DurationText.TextIsDecodable | src/cp/time.cpp:104-137 | every duration below 2^31 days can be read back, at exact boundaries too, with or without the unit |
| DurationText.FormatDurationNs | src/cp/time.cpp:148-152 | a duration in nanoseconds can be read back |
| XoY.MaskIsModulo | src/cp/handlers/XoY_handler.h:12-18 | masking with y - 1 is reducing modulo y for all tuples if and only if y is a power of two |
| XoY.CheckMeans | src/cp/handlers/XoY_handler.cpp:83-91 | the check accepts exactly x <= y with y zero, or a power of two once rounded to a double |
| XoY.CheckIsExact | src/cp/handlers/XoY_handler.cpp:83-91 | up to 2^53 it accepts exactly powers of two |
| XoY.RoundingAccepts | src/cp/handlers/XoY_handler.cpp:83-91 | 2^53 + 1, the conversion of -1, and zero are accepted |
| XoY.LogsFirstXOfY | src/cp/handlers/XoY_handler.cpp:20-28 | after any parameter calls with Y up to 2^53, a tuple is logged iff its number modulo Y is below X |
| XoY.XoYClosure.XoYHandler | src/cp/handlers/XoY_handler.cpp:20-28 | exactly the tuples under the mask are logged: when Y is a power of two, those with number modulo Y below X |
| XoY.XoYClosure.SetArgXoYHandler | src/cp/handlers/XoY_handler.cpp:40-81 | one parameter is set if consistent, otherwise the channel is closed and nothing changes |
| XoY.XoYClosure.SetArgsXoYHandler | src/cp/handlers/XoY_handler.cpp:47-60 | all arguments: Y first, then X |

## Left out

- TSC variants of the handlers: their channels are not flushed by closing, so no file of theirs need be complete.
- A second IO thread: channels opened after the open count has returned to 0, or after the IO thread has ended.
- Closing a channel while another thread logs on it.
- Queues are atomic FIFO queues; memory ordering inside the lock-free queues, and several compression threads pushing to one return queue, are not modelled.
- Compression codecs are an arbitrary invertible pair of functions, and compression never fails; a size that does not fit the converter's buffer is excluded by `UsableCodec`.
- Channel numbers are below 200, as the IO thread's tables are; block ids and counters do not wrap.
- PipelineShutdown.ShutdownLosesNothing: weaker than the design promises, because the code loses records with mixed kinds of channel, a torn guard, a full io queue or a late compressed channel; the five runs show each.
- PipelineShutdown.QueueEmptied: has the same conditions on kinds, guard and late channels.
- Writing times of blocks, log messages and quick termination by a signal.
- FpcModel: setting the period by argument -1 uses the argument count as period and is not modelled; a negative period closes the channel, which is the closing step.
- FpcModel: sampling clocks are reduced to whether the flush time has passed; 64-bit counters do not wrap.
- FpcClosureCode.ThrDescriptor.ProcessJobQueue: jobs that arrive while the loop runs are in the transition system only.
- BucketFactoryCode.JObjFactory.FetchVBucketNB: other steps of producers during a call are in the transition system only.
- BucketPool: elements of a batch are numbers; deserialisation and the shared overflow flag are not modelled.
- Barrier.BarrierCode.BarrierWait: steps of other threads between two reads of a call that does not spin are in the transition system only.  Counters do not wrap at 2^64.
- Gpio: both sides start from low pins; the master never stops.
- SlotSorting.SortSlots: library sorting is the stable sort it is documented to be; node names are numbers with the same order; port differences do not overflow.
- Placement.ScheduleTopology: sets list their elements in any order; the cluster's own bookkeeping is not modelled.
- Timespecs: seconds do not overflow 64 bits.  Counters of structures that the code leaves uninitialised are 0.
- PeriodicCounter: a period of 0, which the code accepts and then divides by, is excluded; lines hold times as numbers instead of formatted dates.
- PeriodicCounter.CounterIsExact: every operation satisfies `NoWrap` (the time since the flush time, plus one period, is below 2^64 ns, or 584 years) and `InRange`, the condition of `FlushLandsAhead`.
- PeriodicCounter.FlushLandsAhead: under `NoWrap` as well.
- DecimalText.L2aCommas: the smallest 64-bit number is excluded, because its negation overflows.
- DurationText.FormatDuration: the buffer is long enough for the text.
- XoY: the C library's logarithm is any function that is exact at powers of two.
- The median handler, the RTT scheduler, configuration tables, network and JNI code.
