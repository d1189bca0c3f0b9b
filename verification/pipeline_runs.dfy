/** Runs in which records are lost: each shows that one condition of the shutdown
    theorem is needed.  The runs are built step by step from the initial state, so
    that they are runs of the same transition system that the theorem is about; a
    record that they lose is one that the logging call has accepted. */
module PipelineRuns {
  import opened Base
  import opened LogRecord
  import opened PipelineModel
  import opened PipelineInvariant
  import opened PipelineSafety
  import opened PipelineShutdown

  /** The number of compression threads the profiler creates. */
  const COMP_THREAD_NUM: nat := 4

  /** Take one step of a reachable run. */
  lemma Take(kinds: seq<bool>, s: State, a: Step) returns (s': State)
    requires Reachable(kinds, COMP_THREAD_NUM, s) && Enabled(s, a)
    ensures Reachable(kinds, COMP_THREAD_NUM, s') && s' == Next(s, a)
  {
    ReachableNext(kinds, COMP_THREAD_NUM, s, a);
    s' := Next(s, a);
  }

  /** A compression thread that finds nothing to do finishes. */
  lemma FinishThread(kinds: seq<bool>, s: State, t: nat) returns (s': State)
    requires Reachable(kinds, COMP_THREAD_NUM, s) && t < |s.comps| && s.comps[t].CompGuard?
    requires s.numBufCompCh == 0 && s.compq == []
    ensures Reachable(kinds, COMP_THREAD_NUM, s')
    ensures s' == s.(comps := s.comps[t := CompExited], stopIo := s.stopIo + 1)
  {
    var s1 := Take(kinds, s, StepComp(t));
    var s2 := Take(kinds, s1, StepComp(t));
    s' := Take(kinds, s2, StepComp(t));
    assert s'.comps == s.comps[t := CompExited];
  }

  lemma FinishThreads(kinds: seq<bool>, s: State) returns (s': State)
    requires Reachable(kinds, COMP_THREAD_NUM, s) && s.comps == seq(COMP_THREAD_NUM, i => CompGuard)
    requires s.numBufCompCh == 0 && s.compq == []
    ensures Reachable(kinds, COMP_THREAD_NUM, s')
    ensures s' == s.(comps := seq(COMP_THREAD_NUM, i => CompExited), stopIo := s.stopIo + 4)
  {
    var s1 := FinishThread(kinds, s, 0);
    var s2 := FinishThread(kinds, s1, 1);
    var s3 := FinishThread(kinds, s2, 2);
    s' := FinishThread(kinds, s3, 3);
    assert s'.comps == seq(COMP_THREAD_NUM, i => CompExited);
  }

  /** The only block of the compression queue has been copied, sent back, and its
      copy pushed, or dropped when the io queue is full. */
  function Compressed(s: State): State
    requires |s.compq| == 1 && s.compq[0].ch < |s.chs|
  {
    var b := s.compq[0];
    var s1 := s.(compq := [], chs := s.chs[b.ch := SentBack(s.chs[b.ch], b)]);
    if |s.ioq| < IO_QUEUE_SIZE then s1.(ioq := s.ioq + [b.(origin := Fresh)])
    else s1.(dropped := s.dropped + [b.(origin := Fresh)])
  }

  /** Compression thread 0 takes the only block of the queue to the io queue. */
  lemma CompressOne(kinds: seq<bool>, s: State) returns (s': State)
    requires Reachable(kinds, COMP_THREAD_NUM, s) && s.comps == seq(COMP_THREAD_NUM, i => CompGuard)
    requires s.numBufCompCh != 0 && |s.compq| == 1
    ensures Reachable(kinds, COMP_THREAD_NUM, s')
    ensures s.compq[0].ch < |s.chs| && s' == Compressed(s)
  {
    var b := s.compq[0];
    ReachableInv(kinds, COMP_THREAD_NUM, s);
    assert b in s.compq && Original(s, b);
    BlocksAreConserved(kinds, COMP_THREAD_NUM, s, b.ch);
    s' := CompressSteps(kinds, s);
  }

  lemma CompressSteps(kinds: seq<bool>, s: State) returns (s': State)
    requires Reachable(kinds, COMP_THREAD_NUM, s) && s.comps == seq(COMP_THREAD_NUM, i => CompGuard)
    requires s.numBufCompCh != 0 && |s.compq| == 1
    requires var b := s.compq[0]; b.ch < |s.chs| && |s.chs[b.ch].returned| < RETURN_QUEUE_SIZE
    ensures Reachable(kinds, COMP_THREAD_NUM, s')
    ensures s' == Compressed(s)
  {
    var s2 := TakeBlock(kinds, s);
    var s3 := Take(kinds, s2, StepComp(0));
    s' := Take(kinds, s3, StepComp(0));
    assert s'.comps == s.comps;
  }

  lemma TakeBlock(kinds: seq<bool>, s: State) returns (s': State)
    requires Reachable(kinds, COMP_THREAD_NUM, s) && s.comps == seq(COMP_THREAD_NUM, i => CompGuard)
    requires s.numBufCompCh != 0 && |s.compq| == 1
    ensures Reachable(kinds, COMP_THREAD_NUM, s')
    ensures s' == s.(comps := s.comps[0 := CompHold(s.compq[0], false)], compq := [])
  {
    var s1 := Take(kinds, s, StepComp(0));
    assert s1.comps[0] == CompPop(false);
    s' := Take(kinds, s1, StepComp(0));
    assert s'.comps == s.comps[0 := CompHold(s.compq[0], false)];
  }

  /** One channel opened, its threads created. */
  lemma OpenOne(kinds: seq<bool>) returns (s: State)
    requires |kinds| > 0 && kinds[0]
    ensures Reachable(kinds, COMP_THREAD_NUM, s)
    ensures s == Init(kinds, COMP_THREAD_NUM).(
      chs := Init(kinds, COMP_THREAD_NUM).chs[0 := Started(0, NewChannel(true))],
      comps := seq(COMP_THREAD_NUM, i => CompGuard), io := IoGuardCreated,
      numBufCh := 1, numBufCompCh := 1, compCreated := true)
  {
    var s0 := Init(kinds, COMP_THREAD_NUM);
    ReachableInit(kinds, COMP_THREAD_NUM);
    var s1 := Take(kinds, s0, StepOpen(0));
    var s2 := Take(kinds, s1, StepCount(0));
    s := Take(kinds, s2, StepInit(0));
    assert s.chs == s0.chs[0 := Started(0, NewChannel(true))];
    assert s.comps == seq(COMP_THREAD_NUM, i => CompGuard);
  }

  // ---- a torn guard -------------------------------------------------------

  /** The IO thread reads comp_thread_created as false, the opening thread then
      creates the compression threads, and the second read of the same guard
      ends the loop before anything was logged. */
  lemma TornStart() returns (s: State)
    ensures Reachable([true], COMP_THREAD_NUM, s) && s.io.IoDone? && s.torn
    ensures s.chs == [Started(0, NewChannel(true))] && s.comps == seq(COMP_THREAD_NUM, i => CompGuard)
    ensures s.compq == [] && s.ioq == [] && s.dropped == [] && s.numBufCompCh == 1 && !s.late
  {
    var kinds := [true];
    ReachableInit(kinds, COMP_THREAD_NUM);
    var s1 := Take(kinds, Init(kinds, COMP_THREAD_NUM), StepOpen(0));
    var s2 := Take(kinds, s1, StepIo);
    assert s2.io.IoGuardCreatedAgain?;
    var s2c := Take(kinds, s2, StepCount(0));
    var s3 := Take(kinds, s2c, StepInit(0));
    assert s3.chs == [Started(0, NewChannel(true))];
    var s4 := Take(kinds, s3, StepIo);
    assert s4.torn;
    var s5 := Take(kinds, s4, StepIo);
    s := Take(kinds, s5, StepIo);
  }

  /** One record is logged, and the channel closed, after the IO thread has ended. */
  lemma TornLog(rec: LogData) returns (s: State)
    ensures Reachable([true], COMP_THREAD_NUM, s) && s.io.IoDone? && s.torn && !s.late && s.dropped == []
    ensures s.comps == seq(COMP_THREAD_NUM, i => CompGuard) && s.compq == [] && s.numBufCompCh == 0
    ensures |s.chs| == 1 && s.chs[0].phase.Closed? && s.chs[0].compress
    ensures s.chs[0].log == [rec] && s.chs[0].file == [] && !s.chs[0].fileClosed
  {
    var s1 := TornStart();
    var s2 := LogOne(s1, rec);
    s := LogThenClose([true], s2);
  }

  lemma TornGuardLosesTheLog(rec: LogData) returns (s: State)
    ensures Reachable([true], COMP_THREAD_NUM, s) && Terminal(s) && AllCompress(s)
    ensures s.torn && !s.late && s.dropped == [] && |s.chs| == 1
    ensures s.chs[0].log == [rec] && s.chs[0].file == [] && !s.chs[0].fileClosed
  {
    var s1 := TornLog(rec);
    s := FinishThreads([true], s1);
  }

  lemma LogOne(s: State, rec: LogData) returns (s': State)
    requires Reachable([true], COMP_THREAD_NUM, s) && s.chs == [Started(0, NewChannel(true))]
    ensures Reachable([true], COMP_THREAD_NUM, s') && s' == s.(chs := s'.chs) && |s'.chs| == 1
    ensures s'.chs[0].phase.Filling? && s'.chs[0].compress && s'.chs[0].log == [rec]
    ensures s'.chs[0].file == [] && !s'.chs[0].fileClosed
  {
    s' := Take([true], s, StepLog(0, rec));
  }

  /** From a channel with one record to all its blocks handed over. */
  lemma LogThenClose(kinds: seq<bool>, s: State) returns (s': State)
    requires Reachable(kinds, COMP_THREAD_NUM, s) && |s.chs| == 1 && s.chs[0].compress
    requires s.chs[0].phase.Filling? && s.comps == seq(COMP_THREAD_NUM, i => CompGuard)
    requires s.compq == [] && s.ioq == [] && s.numBufCompCh == 1
    ensures Reachable(kinds, COMP_THREAD_NUM, s')
    ensures |s'.chs| == 1 && s'.chs[0].phase.Closed?
    ensures s'.chs[0].log == s.chs[0].log && s'.chs[0].file == s.chs[0].file
    ensures s'.chs[0].fileClosed == s.chs[0].fileClosed && s'.chs[0].compress
    ensures s' == s.(chs := s'.chs, ioq := s'.ioq, numBufCh := s'.numBufCh, numBufCompCh := 0)
  {
    var s1 := Take(kinds, s, StepClose(0));
    var s2 := Take(kinds, s1, StepCloseEnqueue(0));
    assert |s2.compq| == 1;
    var s3 := CompressOne(kinds, s2);
    assert s3.chs[0].phase == CloseDecComp;
    var s4 := Take(kinds, s3, StepDecComp(0));
    s' := Take(kinds, s4, StepDecAll(0));
  }

  // ---- a full io queue ----------------------------------------------------

  /** n equal records are logged into the block at hand. */
  lemma {:induction false} LogMany(kinds: seq<bool>, s: State, rec: LogData, n: nat) returns (s': State)
    requires Reachable(kinds, COMP_THREAD_NUM, s) && |s.chs| == 1 && s.chs[0].phase.Filling?
    requires 0 < n && |s.chs[0].phase.block.data| + n <= BUFFER_BLOCK_SIZE
    ensures Reachable(kinds, COMP_THREAD_NUM, s') && s' == s.(chs := s'.chs) && |s'.chs| == 1
    ensures s'.chs[0] == s.chs[0].(phase := s'.chs[0].phase, log := s'.chs[0].log)
    ensures if |s.chs[0].phase.block.data| + n == BUFFER_BLOCK_SIZE then s'.chs[0].phase.Full?
            else s'.chs[0].phase.Filling? && |s'.chs[0].phase.block.data| == |s.chs[0].phase.block.data| + n
    decreases n
  {
    var s1 := Take(kinds, s, StepLog(0, rec));
    if n == 1 {
      s' := s1;
    } else {
      s' := LogMany(kinds, s1, rec, n - 1);
    }
  }

  /** One channel, filling an empty block; nothing queued but in the io queue. */
  ghost predicate BetweenBlocks(s: State) {
    && Reachable([true], COMP_THREAD_NUM, s)
    && |s.chs| == 1 && s.chs[0].compress && s.chs[0].phase.Filling? && s.chs[0].phase.block.data == []
    && s.comps == seq(COMP_THREAD_NUM, i => CompGuard)
    && s.compq == [] && s.numBufCompCh == 1 && !s.torn && !s.late
  }

  /** One more block goes its way while the IO thread does not run. */
  lemma OneMoreBlock(s: State, rec: LogData) returns (s': State)
    requires BetweenBlocks(s)
    ensures BetweenBlocks(s')
    ensures if |s.ioq| < IO_QUEUE_SIZE then |s'.ioq| == |s.ioq| + 1 else s'.dropped != []
  {
    var kinds := [true];
    var s1 := LogMany(kinds, s, rec, BUFFER_BLOCK_SIZE);
    var s2 := Take(kinds, s1, StepEnqueue(0));
    assert |s2.compq| == 1 && s2.chs[0].phase.Waiting?;
    var s3 := CompressOne(kinds, s2);
    assert s3.chs[0].returned != [];
    ReachableInv(kinds, COMP_THREAD_NUM, s3);
    assert ChannelInv(0, s3.chs[0]);
    assert s3.chs[0].returned[0] in s3.chs[0].returned;
    s' := Take(kinds, s3, StepDequeue(0));
  }

  lemma {:induction false} FillQueue(rec: LogData, n: nat) returns (s: State)
    requires n <= IO_QUEUE_SIZE
    ensures BetweenBlocks(s) && |s.ioq| == n
  {
    if n == 0 {
      s := OpenOne([true]);
    } else {
      var s1 := FillQueue(rec, n - 1);
      s := OneMoreBlock(s1, rec);
    }
  }

  /** A block of the channel is lost and its file is still open. */
  predicate LostFor(s: State, c: nat) {
    c < |s.chs| && Stranded(s, c) && !s.chs[c].fileClosed
  }

  /** With a slow IO thread one logging thread can fill the io queue, and the
      next compressed block is lost: the channel's file is never closed. */
  lemma FullQueueLosesABlock(rec: LogData) returns (s: State)
    ensures Reachable([true], COMP_THREAD_NUM, s) && AllCompress(s) && s.dropped != [] && !s.torn && !s.late
    ensures forall run :: Legal(s, run) ==> LostFor(Exec(s, run), 0)
  {
    var s1 := FillQueue(rec, IO_QUEUE_SIZE);
    s := OneMoreBlock(s1, rec);
    ReachableInv([true], COMP_THREAD_NUM, s);
    forall run | Legal(s, run) ensures LostFor(Exec(s, run), 0) {
      DroppedForever(s, run);
    }
  }

  lemma DroppedForever(s: State, run: seq<Step>)
    requires Inv(s) && Legal(s, run) && s.dropped != [] && |s.chs| == 1
    ensures LostFor(Exec(s, run), 0)
  {
    RunKeeps(s, run);
    DroppedStays(s, run);
    var s' := Exec(s, run);
    assert s'.dropped[0] in s'.dropped && Copied(s', s'.dropped[0]);
    SomethingStranded(s', 0);
  }

  lemma CompDropped(s: State, t: nat)
    requires CompEnabled(s, t)
    ensures s.dropped <= CompStep(s, t).dropped && |CompStep(s, t).chs| == |s.chs|
  {
  }

  lemma IoDropped(s: State)
    requires IoEnabled(s)
    ensures s.dropped == IoStep(s).dropped && |IoStep(s).chs| == |s.chs|
  {
  }

  lemma DroppedStep(s: State, a: Step)
    requires Enabled(s, a)
    ensures s.dropped <= Next(s, a).dropped && |Next(s, a).chs| == |s.chs|
  {
    if a.StepComp? {
      CompDropped(s, a.t);
    } else if a.StepIo? {
      IoDropped(s);
    }
  }

  lemma {:induction false} DroppedStays(s: State, run: seq<Step>)
    requires Legal(s, run)
    ensures s.dropped <= Exec(s, run).dropped && |Exec(s, run).chs| == |s.chs|
    decreases |run|
  {
    if run != [] {
      DroppedStep(s, run[0]);
      DroppedStays(Next(s, run[0]), run[1..]);
    }
  }

  // ---- channels of both kinds ---------------------------------------------

  /** An uncompressed channel opened beside a compressed one: once the compressed
      one is closed the IO thread ends, and what the other logs is lost. */
  lemma MixedKindsLoseTheLog(rec: LogData) returns (s: State)
    ensures Reachable([true, false], COMP_THREAD_NUM, s) && Terminal(s)
    ensures !s.torn && !s.late && s.dropped == [] && |s.chs| == 2
    ensures s.chs[1].log == [rec] && s.chs[1].file == [] && !s.chs[1].fileClosed
  {
    var s1 := MixedStart();
    var s2 := MixedLog(s1, rec);
    s := MixedEnd(s2);
  }

  lemma MixedLog(s: State, rec: LogData) returns (s': State)
    requires Reachable([true, false], COMP_THREAD_NUM, s) && |s.chs| == 2
    requires s.chs[1] == Started(1, NewChannel(false))
    ensures Reachable([true, false], COMP_THREAD_NUM, s') && s' == s.(chs := s'.chs)
    ensures |s'.chs| == 2 && s'.chs[0] == s.chs[0] && !s'.chs[1].compress && s'.chs[1].phase.Filling?
    ensures s'.chs[1].log == [rec] && s'.chs[1].file == [] && !s'.chs[1].fileClosed
  {
    s' := Take([true, false], s, StepLog(1, rec));
  }

  lemma MixedEnd(s: State) returns (s': State)
    requires Reachable([true, false], COMP_THREAD_NUM, s) && |s.chs| == 2 && s.ioq == []
    requires !s.chs[1].compress && s.chs[1].phase.Filling?
    ensures Reachable([true, false], COMP_THREAD_NUM, s')
    ensures s' == s.(chs := s'.chs, ioq := s'.ioq, numBufCh := s'.numBufCh)
    ensures |s'.chs| == 2 && s'.chs[0] == s.chs[0] && s'.chs[1].phase.Closed? && s'.chs[1].log == s.chs[1].log
    ensures s'.chs[1].file == s.chs[1].file && s'.chs[1].fileClosed == s.chs[1].fileClosed
  {
    var kinds := [true, false];
    var s1 := Take(kinds, s, StepClose(1));
    var s2 := Take(kinds, s1, StepCloseEnqueue(1));
    assert s2.chs[1].phase.CloseDecAll?;
    s' := Take(kinds, s2, StepDecAll(1));
  }

  lemma MixedOpen() returns (s: State)
    ensures Reachable([true, false], COMP_THREAD_NUM, s)
    ensures s.chs == [Started(0, NewChannel(true)), Started(1, NewChannel(false))]
    ensures s.comps == seq(COMP_THREAD_NUM, i => CompGuard) && s.compq == [] && s.ioq == []
    ensures s.io.IoGuardCreated? && s.numBufCompCh == 1 && s.compCreated && s.stopIo == 0
    ensures !s.torn && !s.late && s.dropped == []
  {
    var kinds := [true, false];
    var s1 := OpenOne(kinds);
    assert s1.chs == [Started(0, NewChannel(true)), NewChannel(false)];
    var s2 := Take(kinds, s1, StepOpen(1));
    var s3 := Take(kinds, s2, StepCount(1));
    s := Take(kinds, s3, StepInit(1));
    assert s.chs == [Started(0, NewChannel(true)), Started(1, NewChannel(false))];
  }

  /** The compressed channel has been closed, its only block is in the io queue. */
  lemma MixedClose(s: State) returns (s': State)
    requires Reachable([true, false], COMP_THREAD_NUM, s)
    requires s.chs == [Started(0, NewChannel(true)), Started(1, NewChannel(false))]
    requires s.comps == seq(COMP_THREAD_NUM, i => CompGuard) && s.compq == [] && s.ioq == []
    requires s.numBufCompCh == 1
    ensures Reachable([true, false], COMP_THREAD_NUM, s')
    ensures |s'.chs| == 2 && s'.chs[0].phase.Closed? && s'.chs[0].compress && s'.chs[1] == s.chs[1]
    ensures |s'.ioq| == 1 && s'.ioq[0].ch == 0
    ensures s' == s.(chs := s'.chs, ioq := s'.ioq, numBufCh := s'.numBufCh, numBufCompCh := 0)
  {
    var kinds := [true, false];
    var s1 := MixedHandOver(s);
    var s2 := CompressOne(kinds, s1);
    assert s2.chs[0].phase == CloseDecComp && s2.chs[1] == s.chs[1];
    var s3 := Take(kinds, s2, StepDecComp(0));
    s' := Take(kinds, s3, StepDecAll(0));
  }

  lemma MixedHandOver(s: State) returns (s': State)
    requires Reachable([true, false], COMP_THREAD_NUM, s) && s.compq == []
    requires s.chs == [Started(0, NewChannel(true)), Started(1, NewChannel(false))]
    ensures Reachable([true, false], COMP_THREAD_NUM, s')
    ensures s' == s.(chs := s'.chs, compq := s'.compq) && |s'.compq| == 1 && s'.compq[0].ch == 0
    ensures |s'.chs| == 2 && s'.chs[0].phase == CloseDecComp && s'.chs[0].compress && s'.chs[1] == s.chs[1]
  {
    var s1 := Take([true, false], s, StepClose(0));
    s' := Take([true, false], s1, StepCloseEnqueue(0));
  }

  /** Both channels open; the compressed one closed and all other threads done. */
  lemma MixedStart() returns (s: State)
    ensures Reachable([true, false], COMP_THREAD_NUM, s) && s.io.IoDone? && !s.torn && !s.late && s.dropped == []
    ensures s.comps == seq(COMP_THREAD_NUM, i => CompExited) && |s.chs| == 2 && s.ioq == []
    ensures s.chs[0].phase.Closed? && s.chs[1] == Started(1, NewChannel(false))
  {
    var s1 := MixedOpen();
    var s2 := MixedClose(s1);
    var s3 := FinishThreads([true, false], s2);
    s := EndIo([true, false], s3);
  }

  /** All compression threads done and one compressed block queued: the IO
      thread leaves its loop, writes the block, and ends. */
  lemma EndIo(kinds: seq<bool>, s: State) returns (s': State)
    requires Reachable(kinds, COMP_THREAD_NUM, s) && s.io.IoGuardCreated? && s.compCreated
    requires |s.comps| == s.stopIo && |s.ioq| == 1 && s.ioq[0].ch == 0 && |s.chs| == 2 && s.chs[0].compress
    ensures Reachable(kinds, COMP_THREAD_NUM, s')
    ensures s' == s.(chs := s'.chs, io := IoDone, ioq := [], compCreated := false)
    ensures |s'.chs| == 2 && s'.chs == s.chs[0 := s'.chs[0]] && s'.chs[0].phase == s.chs[0].phase
    ensures s'.chs[0].compress
  {
    var s1 := Take(kinds, s, StepIo);
    var s2 := Take(kinds, s1, StepIo);
    var s3 := Take(kinds, s2, StepIo);
    assert s3.io == IoPop(true);
    var s4 := Take(kinds, s3, StepIo);
    assert s4.ioq == [];
    IoSamePhases(s4);
    var s5 := Take(kinds, s4, StepIo);
    var s6 := Take(kinds, s5, StepIo);
    s' := Take(kinds, s6, StepIo);
  }

  // ---- a late channel -----------------------------------------------------

  /** A second compressed channel has been opened, but is not yet counted as
      compressed; the first one is about to hand over its only block. */
  lemma LateOpen() returns (s: State)
    ensures Reachable([true, true], COMP_THREAD_NUM, s)
    ensures |s.chs| == 2 && s.chs[0] == Started(0, NewChannel(true))
    ensures s.chs[1] == NewChannel(true).(phase := Opening)
    ensures s.comps == seq(COMP_THREAD_NUM, i => CompGuard) && s.compq == [] && s.ioq == []
    ensures s.io.IoGuardCreated? && s.numBufCompCh == 1 && s.compCreated && s.stopIo == 0
    ensures !s.torn && s.dropped == []
  {
    var s1 := OpenOne([true, true]);
    s := Take([true, true], s1, StepOpen(1));
  }

  lemma LateHandOver(s: State) returns (s': State)
    requires Reachable([true, true], COMP_THREAD_NUM, s) && |s.chs| == 2
    requires s.chs[0] == Started(0, NewChannel(true)) && s.compq == []
    ensures Reachable([true, true], COMP_THREAD_NUM, s')
    ensures s' == s.(chs := s'.chs, compq := s'.compq) && |s'.compq| == 1 && s'.compq[0].ch == 0
    ensures |s'.chs| == 2 && s'.chs[0].phase == CloseDecComp && s'.chs[0].compress && s'.chs[1] == s.chs[1]
  {
    var s1 := Take([true, true], s, StepClose(0));
    s' := Take([true, true], s1, StepCloseEnqueue(0));
  }

  /** The first channel is closed, and all compression threads have finished. */
  lemma LateStart() returns (s: State)
    ensures Reachable([true, true], COMP_THREAD_NUM, s) && s.io.IoGuardCreated? && s.compCreated
    ensures s.comps == seq(COMP_THREAD_NUM, i => CompExited) && s.stopIo == COMP_THREAD_NUM && s.numBufCompCh == 0
    ensures |s.chs| == 2 && s.chs[0].phase.Closed? && s.chs[0].compress
    ensures s.chs[1] == NewChannel(true).(phase := Opening)
    ensures |s.ioq| == 1 && s.ioq[0].ch == 0 && s.compq == [] && !s.torn && s.dropped == []
  {
    var kinds := [true, true];
    var s1 := LateOpen();
    var s2 := LateHandOver(s1);
    var s3 := CompressOne(kinds, s2);
    assert s3.chs[0].phase == CloseDecComp && s3.chs[1] == s1.chs[1];
    var s4 := Take(kinds, s3, StepDecComp(0));
    var s5 := Take(kinds, s4, StepDecAll(0));
    s := FinishThreads(kinds, s5);
  }

  /** The second channel is counted, finds that compression threads were created,
      and takes a record. */
  lemma LateLog(s: State, rec: LogData) returns (s': State)
    requires Reachable([true, true], COMP_THREAD_NUM, s) && s.io.IoGuardCreated? && s.compCreated && s.numBufCompCh == 0
    requires |s.chs| == 2 && s.chs[1] == NewChannel(true).(phase := Opening)
    ensures Reachable([true, true], COMP_THREAD_NUM, s') && s' == s.(chs := s'.chs, numBufCompCh := 1, late := true)
    ensures |s'.chs| == 2 && s'.chs[0] == s.chs[0] && s'.chs[1].compress && s'.chs[1].phase.Filling?
    ensures s'.chs[1].log == [rec] && s'.chs[1].file == [] && !s'.chs[1].fileClosed
  {
    var kinds := [true, true];
    var s1 := Take(kinds, s, StepCount(1));
    var s2 := Take(kinds, s1, StepInit(1));
    s' := Take(kinds, s2, StepLog(1, rec));
  }

  lemma LateClose(s: State) returns (s': State)
    requires Reachable([true, true], COMP_THREAD_NUM, s) && s.compq == [] && s.numBufCompCh == 1
    requires |s.chs| == 2 && s.chs[1].compress && s.chs[1].phase.Filling?
    ensures Reachable([true, true], COMP_THREAD_NUM, s') && |s'.compq| == 1 && s'.compq[0].ch == 1
    ensures s' == s.(chs := s'.chs, compq := s'.compq, numBufCh := s'.numBufCh, numBufCompCh := 0)
    ensures |s'.chs| == 2 && s'.chs[0] == s.chs[0] && s'.chs[1].compress && s'.chs[1].phase.Closed?
    ensures s'.chs[1].log == s.chs[1].log && s'.chs[1].file == s.chs[1].file
    ensures s'.chs[1].fileClosed == s.chs[1].fileClosed && s'.chs[1].returned == s.chs[1].returned
  {
    var kinds := [true, true];
    ReachableInv(kinds, COMP_THREAD_NUM, s);
    assert ChannelInv(1, s.chs[1]);
    var s1 := Take(kinds, s, StepClose(1));
    var s2 := Take(kinds, s1, StepCloseEnqueue(1));
    assert s2.chs[1].phase.CloseDecComp?;
    var s3 := Take(kinds, s2, StepDecComp(1));
    s' := Take(kinds, s3, StepDecAll(1));
  }

  lemma LateEnd(rec: LogData) returns (s: State)
    ensures Reachable([true, true], COMP_THREAD_NUM, s) && s.io.IoDone?
    ensures s.comps == seq(COMP_THREAD_NUM, i => CompExited)
    ensures s.late && !s.torn && s.dropped == [] && s.ioq == [] && s.compq != [] && |s.chs| == 2
    ensures s.chs[0].compress && s.chs[0].phase.Closed? && s.chs[1].compress && s.chs[1].phase.Closed?
    ensures s.chs[1].log == [rec] && s.chs[1].file == [] && !s.chs[1].fileClosed
  {
    var s1 := LateStart();
    var s2 := LateLog(s1, rec);
    var s3 := LateClose(s2);
    s := EndIo([true, true], s3);
    assert s.chs[1] == s3.chs[1];
  }

  /** A compressed channel that is counted after the last one was closed, and all
      compression threads have finished, gets no new threads: its block stays in the
      compression queue. */
  lemma LateChannelLosesTheLog(rec: LogData) returns (s: State)
    ensures Reachable([true, true], COMP_THREAD_NUM, s) && Terminal(s) && AllCompress(s)
    ensures s.late && !s.torn && s.dropped == [] && s.ioq == [] && s.compq != [] && |s.chs| == 2
    ensures s.chs[1].log == [rec] && s.chs[1].file == [] && !s.chs[1].fileClosed
  {
    s := LateEnd(rec);
  }

  // ---- a second set of compression threads --------------------------------

  /** Four threads that have finished, and the second set. */
  function SecondSet(): seq<CompPc> {
    seq(COMP_THREAD_NUM, i => CompExited) + seq(COMP_THREAD_NUM, i => CompGuard)
  }

  /** The IO thread ends and resets the flag before the second channel is counted as
      compressed, which therefore creates threads once more, and takes a record. */
  lemma SecondSetStarts(rec: LogData) returns (s: State)
    ensures Reachable([true, true], COMP_THREAD_NUM, s) && s.io.IoDone? && s.comps == SecondSet()
    ensures s.numBufCompCh == 1 && s.compq == [] && s.ioq == [] && s.late && !s.torn && s.dropped == []
    ensures |s.chs| == 2 && s.chs[0].compress && s.chs[0].phase.Closed?
    ensures s.chs[1].compress && s.chs[1].phase.Filling? && |s.chs[1].returned| == NUM_BUFFER_BLOCK - 1
    ensures s.chs[1].log == [rec] && s.chs[1].file == [] && !s.chs[1].fileClosed
  {
    var kinds := [true, true];
    var s1 := LateStart();
    var s2 := EndIo(kinds, s1);
    assert s2.chs[1] == s1.chs[1];
    var s3 := Take(kinds, s2, StepCount(1));
    var s4 := Take(kinds, s3, StepInit(1));
    s := Take(kinds, s4, StepLog(1, rec));
  }

  /** The first thread of the second set takes the last block to the io queue. */
  lemma SecondSetCompresses(s: State) returns (s': State)
    requires Reachable([true, true], COMP_THREAD_NUM, s) && s.comps == SecondSet() && s.numBufCompCh == 0
    requires |s.compq| == 1 && s.compq[0].ch == 1 && |s.chs| == 2 && |s.chs[1].returned| < RETURN_QUEUE_SIZE
    requires s.ioq == []
    ensures Reachable([true, true], COMP_THREAD_NUM, s') && s'.comps == SecondSet()[4 := CompPop(true)]
    ensures s' == s.(comps := s'.comps, compq := [], ioq := s'.ioq, chs := s'.chs) && s'.ioq != []
    ensures s'.chs == s.chs[1 := SentBack(s.chs[1], s.compq[0])]
  {
    var s1 := SecondSetTakes(s);
    var s2 := Take([true, true], s1, StepComp(4));
    s' := Take([true, true], s2, StepComp(4));
    assert s'.comps == s.comps[4 := CompPop(true)];
  }

  lemma SecondSetTakes(s: State) returns (s': State)
    requires Reachable([true, true], COMP_THREAD_NUM, s) && s.comps == SecondSet() && s.numBufCompCh == 0
    requires |s.compq| == 1
    ensures Reachable([true, true], COMP_THREAD_NUM, s')
    ensures s' == s.(comps := SecondSet()[4 := CompHold(s.compq[0], true)], compq := [])
  {
    var s1 := Take([true, true], s, StepComp(4));
    s' := Take([true, true], s1, StepComp(4));
    assert s'.comps == s.comps[4 := CompHold(s.compq[0], true)];
  }

  lemma SecondSetEnds(s: State) returns (s': State)
    requires Reachable([true, true], COMP_THREAD_NUM, s) && s.comps == SecondSet()[4 := CompPop(true)]
    requires s.numBufCompCh == 0 && s.compq == []
    ensures Reachable([true, true], COMP_THREAD_NUM, s')
    ensures s' == s.(comps := seq(2 * COMP_THREAD_NUM, i => CompExited), stopIo := s.stopIo + 4)
  {
    var kinds := [true, true];
    var s1 := FirstEnds(s);
    var s2 := FinishThread(kinds, s1, 5);
    var s3 := FinishThread(kinds, s2, 6);
    s' := FinishThread(kinds, s3, 7);
    assert s'.comps == seq(2 * COMP_THREAD_NUM, i => CompExited);
  }

  lemma FirstEnds(s: State) returns (s': State)
    requires Reachable([true, true], COMP_THREAD_NUM, s) && s.comps == SecondSet()[4 := CompPop(true)]
    requires s.compq == []
    ensures Reachable([true, true], COMP_THREAD_NUM, s')
    ensures s' == s.(comps := SecondSet()[4 := CompExited], stopIo := s.stopIo + 1)
  {
    var s1 := Take([true, true], s, StepComp(4));
    s' := Take([true, true], s1, StepComp(4));
    assert s'.comps == SecondSet()[4 := CompExited];
  }

  /** The second set of threads does its work, but there is no IO thread any more: the
      block stays in the io queue. */
  lemma SecondSetLosesTheLog(rec: LogData) returns (s: State)
    ensures Reachable([true, true], COMP_THREAD_NUM, s) && Terminal(s) && AllCompress(s)
    ensures s.late && !s.torn && s.dropped == [] && s.ioq != [] && s.compq == [] && |s.chs| == 2
    ensures s.chs[1].log == [rec] && s.chs[1].file == [] && !s.chs[1].fileClosed
  {
    var s1 := SecondSetStarts(rec);
    var s2 := LateClose(s1);
    var s3 := SecondSetCompresses(s2);
    s := SecondSetEnds(s3);
  }
}
