/** The shutdown handshake: what is still under way when every thread has
    finished, and exactly when nothing is lost. */
module PipelineShutdown {
  import opened Base
  import opened LogRecord
  import opened Sums
  import opened PipelineModel
  import opened PipelineInvariant
  import opened PipelineSafety

  // ---- the counters -------------------------------------------------------

  /** Counted in num_buf_ch. */
  function OpenCount(ch: Channel): nat {
    if ch.phase.Unopened? || ch.phase.Closed? then 0 else 1
  }

  /** Counted in num_buf_comp_ch. */
  function CompCount(ch: Channel): nat {
    if !ch.compress || ch.phase.Unopened? || ch.phase.Opening? || ch.phase.CloseDecAll? || ch.phase.Closed? then 0
    else 1
  }

  function ExitCount(pc: CompPc): nat {
    if pc.CompExited? then 1 else 0
  }

  predicate CountInv(s: State) {
    && s.numBufCh == Total(OpenCount, s.chs)
    && s.numBufCompCh == Total(CompCount, s.chs)
    && s.stopIo == Total(ExitCount, s.comps)
  }

  /** The thread has read an open count of 0. */
  predicate PastGuard(pc: CompPc) {
    match pc
    case CompPop(drain) => drain
    case CompHold(_, drain) => drain
    case CompSend(_, drain) => drain
    case CompSignal => true
    case CompExited => true
    case _ => false
  }

  /** The thread has found the compression queue empty after that. */
  predicate Finished(pc: CompPc) { pc.CompSignal? || pc.CompExited? }

  /** No compressed channel is open once a thread has read that, and nothing is
      queued for compression once a thread has finished, unless a channel came
      late. */
  predicate GuardInv(s: State) {
    !s.late ==> forall t :: 0 <= t < |s.comps| && PastGuard(s.comps[t]) ==> s.numBufCompCh == 0
  }

  predicate FinishedInv(s: State) {
    !s.late ==> forall t :: 0 <= t < |s.comps| && Finished(s.comps[t]) ==> s.compq == []
  }

  predicate SomeThread(s: State) { exists t :: 0 <= t < |s.comps| && !s.comps[t].NotCreated? }

  /** A compressed channel that has its blocks has compression threads. */
  predicate ServedInv(s: State) {
    && (s.compCreated ==> SomeThread(s))
    && forall c :: 0 <= c < |s.chs| && s.chs[c].compress && !NotStarted(s.chs[c]) ==> SomeThread(s)
  }

  predicate SomeOpened(s: State) {
    !s.io.IoNotCreated? ==> exists c :: 0 <= c < |s.chs| && !s.chs[c].phase.Unopened?
  }

  predicate CompStopInv(s: State) {
    GuardInv(s) && FinishedInv(s) && ServedInv(s) && SomeOpened(s)
  }

  predicate AllCompress(s: State) { forall c :: 0 <= c < |s.chs| ==> s.chs[c].compress }

  predicate NoneCompress(s: State) { forall c :: 0 <= c < |s.chs| ==> !s.chs[c].compress }

  predicate Draining(pc: IoPc) {
    match pc
    case IoPop(drain) => drain
    case IoWrite(_, drain) => drain
    case IoSendBack(_, drain) => drain
    case IoCleanup => true
    case IoDone => true
    case _ => false
  }

  /** No thread can push to the io queue any more. */
  predicate NoMorePushes(s: State) {
    if AllCompress(s) then forall t :: 0 <= t < |s.comps| ==> s.comps[t].CompExited?
    else s.numBufCh == 0
  }

  /** Channels of one kind, no compressed one late, and an untorn guard. */
  predicate Orderly(s: State) { ((AllCompress(s) && !s.late) || NoneCompress(s)) && !s.torn }

  predicate DrainInv(s: State) {
    && (NoneCompress(s) && !AllCompress(s) ==> !s.compCreated)
    && (Orderly(s) && Draining(s.io) ==> NoMorePushes(s))
    && (Orderly(s) && (s.io.IoCleanup? || s.io.IoDone?) ==> s.ioq == [])
  }

  predicate StopInv(s: State) {
    CountInv(s) && CompStopInv(s) && DrainInv(s) && |s.comps| > 0
  }

  // ---- every step keeps them ----------------------------------------------

  /** With an open count of 0 no compressed channel can hand a block over. */
  lemma NoneOpenToCompress(s: State, c: nat)
    requires CountInv(s) && s.numBufCompCh == 0 && c < |s.chs|
    ensures CompCount(s.chs[c]) == 0
  {
    TotalContains(CompCount, s.chs, c);
  }

  lemma NoneOpen(s: State, c: nat)
    requires CountInv(s) && s.numBufCh == 0 && c < |s.chs|
    ensures OpenCount(s.chs[c]) == 0
  {
    TotalContains(OpenCount, s.chs, c);
  }

  /** A logging thread's step changes its own channel, and counts as it does. */
  lemma LoggerShape(s: State, a: Step, c: nat)
    requires Enabled(s, a) && !a.StepComp? && !a.StepIo? && a.c == c && HandInv(c, s.chs[c])
    ensures OpenShape(s, Next(s, a), c)
  {
    if HandsOver(a) { HandOverShape(s, a); } else { OtherShape(s, a); }
  }

  predicate OpenShape(s: State, s': State, c: nat)
    requires c < |s.chs|
  {
    && |s'.chs| == |s.chs| && s'.chs == s.chs[c := s'.chs[c]]
    && s'.numBufCh + OpenCount(s.chs[c]) == s.numBufCh + OpenCount(s'.chs[c])
  }

  lemma HandOverShape(s: State, a: Step)
    requires Enabled(s, a) && HandsOver(a)
    ensures OpenShape(s, Next(s, a), a.c)
  {
  }

  lemma OtherShape(s: State, a: Step)
    requires Enabled(s, a) && !a.StepComp? && !a.StepIo? && !HandsOver(a) && HandInv(a.c, s.chs[a.c])
    ensures OpenShape(s, Next(s, a), a.c)
  {
  }

  predicate HandsOver(a: Step) { a.StepEnqueue? || a.StepCloseEnqueue? }

  /** The compressed channels that a step adds to the open count. */
  predicate CompShape(s: State, s': State, c: nat)
    requires c < |s.chs|
  {
    |s'.chs| == |s.chs| && s'.numBufCompCh + CompCount(s.chs[c]) == s.numBufCompCh + CompCount(s'.chs[c])
  }

  lemma HandOverCompShape(s: State, a: Step)
    requires Enabled(s, a) && HandsOver(a)
    ensures CompShape(s, Next(s, a), a.c)
  {
  }

  lemma OtherCompShape(s: State, a: Step)
    requires Enabled(s, a) && !a.StepComp? && !a.StepIo? && !HandsOver(a) && HandInv(a.c, s.chs[a.c])
    ensures CompShape(s, Next(s, a), a.c)
  {
  }

  lemma LoggerCompShape(s: State, a: Step, c: nat)
    requires Enabled(s, a) && !a.StepComp? && !a.StepIo? && a.c == c && HandInv(c, s.chs[c])
    ensures CompShape(s, Next(s, a), c)
  {
    if HandsOver(a) { HandOverCompShape(s, a); } else { OtherCompShape(s, a); }
  }

  lemma CountShift(w: Channel -> nat, chs: seq<Channel>, chs': seq<Channel>, c: nat, n: int, n': int)
    requires c < |chs| == |chs'| && chs' == chs[c := chs'[c]]
    requires n == Total(w, chs) && n' + w(chs[c]) == n + w(chs'[c])
    ensures n' == Total(w, chs')
  {
    TotalUpdate(w, chs, c, chs'[c]);
  }

  lemma LoggerSpawns(s: State, a: Step)
    requires CreatedInv(s) && Enabled(s, a) && !a.StepComp? && !a.StepIo?
    ensures Spawned(s.comps, Next(s, a).comps)
  {
  }

  lemma LoggerCounts(s: State, a: Step, c: nat)
    requires CreatedInv(s) && CountInv(s) && Enabled(s, a) && !a.StepComp? && !a.StepIo? && a.c == c
    requires HandInv(c, s.chs[c])
    ensures CountInv(Next(s, a))
  {
    var s' := Next(s, a);
    LoggerShape(s, a, c);
    LoggerCompShape(s, a, c);
    CountShift(OpenCount, s.chs, s'.chs, c, s.numBufCh, s'.numBufCh);
    CountShift(CompCount, s.chs, s'.chs, c, s.numBufCompCh, s'.numBufCompCh);
    LoggerSpawns(s, a);
    SpawnedTotal(ExitCount, s.comps, s'.comps);
  }

  lemma LoggerGuard(s: State, a: Step, c: nat)
    requires CreatedInv(s) && CountInv(s) && GuardInv(s)
    requires Enabled(s, a) && !a.StepComp? && !a.StepIo? && a.c == c && HandInv(c, s.chs[c])
    ensures GuardInv(Next(s, a))
  {
    if s.numBufCompCh == 0 { NoneOpenToCompress(s, c); }
  }

  lemma LoggerFinished(s: State, a: Step, c: nat)
    requires CreatedInv(s) && CountInv(s) && GuardInv(s) && FinishedInv(s)
    requires Enabled(s, a) && !a.StepComp? && !a.StepIo? && a.c == c
    ensures FinishedInv(Next(s, a))
  {
    if s.numBufCompCh == 0 { NoneOpenToCompress(s, c); }
  }

  lemma LoggerServed(s: State, a: Step, c: nat)
    requires CreatedInv(s) && ServedInv(s) && SomeOpened(s) && |s.comps| > 0
    requires Enabled(s, a) && !a.StepComp? && !a.StepIo? && a.c == c
    ensures ServedInv(Next(s, a)) && SomeOpened(Next(s, a))
  {
    var s' := Next(s, a);
    assert s'.chs == s.chs[c := s'.chs[c]];
    assert s'.chs[c].phase != Unopened;
    LoggerSpawns(s, a);
    if SomeThread(s) {
      var t :| 0 <= t < |s.comps| && !s.comps[t].NotCreated?;
      assert !s'.comps[t].NotCreated?;
    } else if s'.compCreated {
      var t := |s'.comps| - 1;
      assert !s'.comps[t].NotCreated?;
    }
  }

  /** After all compression threads have finished, logging threads of compressed
      channels hand nothing over and create no thread. */
  lemma LoggerQuietAll(s: State, a: Step, c: nat)
    requires CountInv(s) && GuardInv(s) && |s.comps| > 0 && AllCompress(s) && !s.late
    requires forall t :: 0 <= t < |s.comps| ==> s.comps[t].CompExited?
    requires Enabled(s, a) && !a.StepComp? && !a.StepIo? && a.c == c
    ensures Next(s, a).comps == s.comps && Next(s, a).ioq == s.ioq
  {
    assert PastGuard(s.comps[0]);
    NoneOpenToCompress(s, c);
  }

  lemma LoggerKinds(s: State, a: Step, c: nat)
    requires Enabled(s, a) && !a.StepComp? && !a.StepIo? && a.c == c
    ensures AllCompress(Next(s, a)) == AllCompress(s) && NoneCompress(Next(s, a)) == NoneCompress(s)
    ensures Next(s, a).torn == s.torn && |Next(s, a).comps| >= |s.comps| && (s.late ==> Next(s, a).late)
    ensures s.io.IoNotCreated? || Next(s, a).io == s.io
    ensures Draining(Next(s, a).io) == Draining(s.io)
    ensures NoneCompress(s) ==> Next(s, a).compCreated == s.compCreated
  {
    LoggerCompress(s, a, c);
    KindsKept(s, Next(s, a));
  }

  lemma LoggerCompress(s: State, a: Step, c: nat)
    requires Enabled(s, a) && !a.StepComp? && !a.StepIo? && a.c == c
    ensures SameKinds(s, Next(s, a))
  {
    var s' := Next(s, a);
    assert s'.chs == s.chs[c := s'.chs[c]] && s'.chs[c].compress == s.chs[c].compress;
  }

  predicate SameKinds(s: State, s': State) {
    |s'.chs| == |s.chs| && forall d :: 0 <= d < |s.chs| ==> s'.chs[d].compress == s.chs[d].compress
  }

  lemma KindsKept(s: State, s': State)
    requires SameKinds(s, s')
    ensures AllCompress(s') == AllCompress(s) && NoneCompress(s') == NoneCompress(s)
  {
  }

  lemma LoggerDrains(s: State, a: Step, c: nat)
    requires CreatedInv(s) && CountInv(s) && GuardInv(s) && DrainInv(s) && |s.comps| > 0
    requires Enabled(s, a) && !a.StepComp? && !a.StepIo? && a.c == c
    ensures DrainInv(Next(s, a))
  {
    LoggerKinds(s, a, c);
    if Orderly(s) && Draining(s.io) {
      if AllCompress(s) && !s.late {
        LoggerQuietAll(s, a, c);
      } else {
        NoneOpen(s, c);
      }
    }
  }

  /** Phases and kinds, all that the counters see of a channel, stay the same. */
  predicate SamePhases(s: State, s': State) {
    |s.chs| == |s'.chs| &&
    forall d :: 0 <= d < |s.chs| ==> s'.chs[d].phase == s.chs[d].phase && s'.chs[d].compress == s.chs[d].compress
  }

  lemma {:induction false} SamePhaseTotals(a: seq<Channel>, b: seq<Channel>)
    requires |a| == |b|
    requires forall d :: 0 <= d < |a| ==> b[d].phase == a[d].phase && b[d].compress == a[d].compress
    ensures Total(OpenCount, a) == Total(OpenCount, b) && Total(CompCount, a) == Total(CompCount, b)
  {
    if a != [] { SamePhaseTotals(a[1..], b[1..]); }
  }

  lemma CompSamePhases(s: State, t: nat)
    requires CompEnabled(s, t)
    ensures SamePhases(s, CompStep(s, t))
  {
  }

  /** The open counts follow the phases. */
  lemma PhaseCounts(s: State, s': State)
    requires CountInv(s) && SamePhases(s, s') && s'.numBufCh == s.numBufCh && s'.numBufCompCh == s.numBufCompCh
    ensures s'.numBufCh == Total(OpenCount, s'.chs) && s'.numBufCompCh == Total(CompCount, s'.chs)
  {
    SamePhaseTotals(s.chs, s'.chs);
  }

  lemma CompExits(s: State, t: nat)
    requires s.stopIo == Total(ExitCount, s.comps) && CompEnabled(s, t)
    ensures CompStep(s, t).stopIo == Total(ExitCount, CompStep(s, t).comps)
  {
    var s' := CompStep(s, t);
    assert s'.comps == s.comps[t := s'.comps[t]];
    TotalUpdate(ExitCount, s.comps, t, s'.comps[t]);
  }

  lemma CompCounts(s: State, t: nat)
    requires CountInv(s) && CompEnabled(s, t)
    ensures CountInv(CompStep(s, t)) && SamePhases(s, CompStep(s, t))
  {
    CompSamePhases(s, t);
    PhaseCounts(s, CompStep(s, t));
    CompExits(s, t);
  }

  lemma CompStops(s: State, t: nat)
    requires CompStopInv(s) && CompEnabled(s, t) && SamePhases(s, CompStep(s, t))
    ensures CompStopInv(CompStep(s, t))
  {
    var s' := CompStep(s, t);
    assert s'.comps == s.comps[t := s'.comps[t]];
    assert GuardInv(s');
    assert FinishedInv(s');
    assert ServedInv(s');
  }

  lemma CompDrains(s: State, t: nat)
    requires CompEnabled(s, t) && CompInv(s, s.comps[t]) && DrainInv(s)
    requires SamePhases(s, CompStep(s, t))
    ensures DrainInv(CompStep(s, t))
  {
    var s' := CompStep(s, t);
    assert AllCompress(s') == AllCompress(s) && NoneCompress(s') == NoneCompress(s);
  }

  lemma {:induction false} DrainKeepsPhase(ch: Channel)
    ensures Drain(ch).phase == ch.phase && Drain(ch).compress == ch.compress
    decreases |ch.pending|
  {
    if ch.pending != [] && ch.pending[0].id == ch.next {
      var top := ch.pending[0];
      DrainKeepsPhase(CloseIf(Append(ch, top.data).(next := ch.next + 1, pending := ch.pending[1..]), top.closeFile));
    }
  }

  lemma IoSamePhases(s: State)
    requires IoEnabled(s)
    ensures SamePhases(s, IoStep(s))
  {
    if s.io.IoWrite? {
      var b := s.io.block;
      DrainKeepsPhase(Append(s.chs[b.ch], b.data).(next := s.chs[b.ch].next + 1));
    }
  }

  lemma IoCounts(s: State)
    requires CountInv(s) && IoEnabled(s) && SamePhases(s, IoStep(s))
    ensures CountInv(IoStep(s))
  {
    PhaseCounts(s, IoStep(s));
  }

  lemma IoStops(s: State)
    requires CompStopInv(s) && IoEnabled(s) && SamePhases(s, IoStep(s))
    ensures CompStopInv(IoStep(s))
  {
    var s' := IoStep(s);
    assert s'.comps == s.comps && s'.compq == s.compq && s'.numBufCompCh == s.numBufCompCh;
    assert ServedInv(s');
  }

  /** When the IO thread leaves its loop with an untorn guard, no thread can push
      to its queue any more. */
  lemma LeaveLoopQuiet(s: State)
    requires CreatedInv(s) && CountInv(s) && CompStopInv(s) && DrainInv(s) && |s.comps| > 0
    requires Orderly(s) && !LeaveLoop(s).torn
    requires (s.io.IoGuardCreatedAgain? && s.compCreated) || (s.io.IoGuardOpen? && s.numBufCh == 0)
    ensures NoMorePushes(s)
  {
    if AllCompress(s) {
      if s.compCreated {
        TotalFull(ExitCount, s.comps);
      } else {
        // some channel is being opened, so the open count is positive
        var c :| 0 <= c < |s.chs| && !s.chs[c].phase.Unopened?;
        NoneOpen(s, c);
        assert false;
      }
    }
  }

  lemma IoDrains(s: State)
    requires CreatedInv(s) && CountInv(s) && CompStopInv(s) && DrainInv(s) && |s.comps| > 0
    requires IoEnabled(s) && SamePhases(s, IoStep(s))
    ensures DrainInv(IoStep(s))
  {
    var s' := IoStep(s);
    assert AllCompress(s') == AllCompress(s) && NoneCompress(s') == NoneCompress(s);
    if Orderly(s') && Draining(s'.io) && !Draining(s.io) {
      LeaveLoopQuiet(s);
    }
  }

  lemma LoggerKeeps(s: State, a: Step, c: nat)
    requires CreatedInv(s) && StopInv(s) && Enabled(s, a) && !a.StepComp? && !a.StepIo? && a.c == c
    requires HandInv(c, s.chs[c])
    ensures StopInv(Next(s, a))
  {
    LoggerCounts(s, a, c);
    LoggerGuard(s, a, c);
    LoggerFinished(s, a, c);
    LoggerServed(s, a, c);
    LoggerDrains(s, a, c);
    LoggerKinds(s, a, c);
  }

  lemma CompKeepsStop(s: State, t: nat)
    requires StopInv(s) && CompEnabled(s, t) && CompInv(s, s.comps[t])
    ensures StopInv(CompStep(s, t))
  {
    CompCounts(s, t);
    CompStops(s, t);
    CompDrains(s, t);
  }

  lemma IoKeepsStop(s: State)
    requires CreatedInv(s) && StopInv(s) && IoEnabled(s)
    ensures StopInv(IoStep(s))
  {
    IoSamePhases(s);
    IoCounts(s);
    IoStops(s);
    IoDrains(s);
  }

  lemma StopKeeps(s: State, a: Step)
    requires Inv(s) && StopInv(s) && Enabled(s, a)
    ensures StopInv(Next(s, a))
  {
    if a.StepComp? {
      assert CompInv(s, s.comps[a.t]);
      CompKeepsStop(s, a.t);
    } else if a.StepIo? {
      IoKeepsStop(s);
    } else {
      assert ChannelInv(a.c, s.chs[a.c]);
      LoggerKeeps(s, a, a.c);
    }
  }

  lemma {:induction false} RunStops(s: State, run: seq<Step>)
    requires Inv(s) && StopInv(s) && Legal(s, run)
    ensures StopInv(Exec(s, run))
    decreases |run|
  {
    if run != [] {
      StepKeeps(s, run[0]);
      StopKeeps(s, run[0]);
      RunStops(Next(s, run[0]), run[1..]);
    }
  }

  lemma ReachableStop(kinds: seq<bool>, threads: nat, s: State)
    requires Reachable(kinds, threads, s) && threads > 0
    ensures StopInv(s)
  {
    var s0 := Init(kinds, threads);
    var run :| Legal(s0, run) && Exec(s0, run) == s;
    InitInv(kinds, threads);
    InitStop(kinds, threads);
    RunStops(s0, run);
  }

  lemma InitStop(kinds: seq<bool>, threads: nat)
    requires threads > 0
    ensures StopInv(Init(kinds, threads))
  {
    var s := Init(kinds, threads);
    TotalZero(OpenCount, s.chs);
    TotalZero(CompCount, s.chs);
    TotalZero(ExitCount, s.comps);
  }

  // ---- main results -------------------------------------------------------

  /** The block is where it can no longer reach its file once all threads have
      finished: left in a queue, or dropped on a failed push. */
  predicate Stranded(s: State, c: nat) {
    || (exists b :: b in s.compq && b.ch == c)
    || (exists b :: b in s.ioq && b.ch == c)
    || (exists b :: b in s.dropped && b.ch == c)
  }

  /** Its whole log is in its file, and the file is closed. */
  predicate Complete(ch: Channel) {
    ch.fileClosed && Flatten(ch.file) == ch.log && ch.pending == []
  }

  /** At the end no block is in a thread's hand. */
  lemma OnlyQueuesLeft(s: State, c: nat, i: int)
    requires Terminal(s)
    ensures Places(s, c, i) ==
      Total(IsBlock(c, i), s.compq) + Total(IsBlock(c, i), s.ioq) + Total(InPending(c, i), s.chs)
      + Total(IsBlock(c, i), s.dropped)
  {
    TotalZero(CompHolds(c, i), s.comps);
  }

  /** If nothing of the channel is stranded, everything is written: the block due
      next is in none of the places left, not even in the reorder buffer. */
  lemma EverythingWritten(s: State, c: nat)
    requires ChannelsInv(s) && BlockInv(s) && TokenInv(s) && Terminal(s)
    requires c < |s.chs| && s.chs[c].phase.Closed? && !Stranded(s, c) && |s.chs[c].file| <= |s.chs[c].sent|
    ensures |s.chs[c].file| == |s.chs[c].sent|
  {
    var n := |s.chs[c].file|;
    if n < |s.chs[c].sent| {
      assert Unwritten(s, c, n);
      assert Places(s, c, n) == 1;
      OnlyQueuesLeft(s, c, n);
      NotIn(c, n, s.compq);
      NotIn(c, n, s.ioq);
      NotIn(c, n, s.dropped);
      NotPendingNext(s, c);
    }
  }

  lemma NotIn(c: nat, i: int, q: seq<Block>)
    requires forall b :: b in q ==> b.ch != c
    ensures Total(IsBlock(c, i), q) == 0
  {
    forall j | 0 <= j < |q| ensures Is(c, i, q[j]) == 0 { assert q[j] in q; }
    TotalZero(IsBlock(c, i), q);
  }

  /** A channel of which nothing is stranded has an empty reorder buffer and a
      complete file. */
  lemma NothingStranded(s: State, c: nat)
    requires Inv(s) && Terminal(s) && c < |s.chs| && s.chs[c].phase.Closed? && !Stranded(s, c)
    ensures Complete(s.chs[c])
  {
    var ch := s.chs[c];
    assert ChannelInv(c, ch);
    EverythingWritten(s, c);
    PendingRange(s, c);
    assert ch.sent[..|ch.file|] == ch.sent;
    assert ch.log == Flatten(ch.sent) + [];
  }

  lemma PendingRange(s: State, c: nat)
    requires ChannelsInv(s) && BlockInv(s) && c < |s.chs|
    ensures forall b :: b in s.chs[c].pending ==> |s.chs[c].file| < b.id < |s.chs[c].sent|
    ensures |s.chs[c].pending| > 0 ==> |s.chs[c].file| < |s.chs[c].sent|
  {
    assert ChannelInv(c, s.chs[c]);
    forall b | b in s.chs[c].pending ensures |s.chs[c].file| < b.id < |s.chs[c].sent| {
      assert Copied(s, b);
      AscendingAbove(|s.chs[c].file|, s.chs[c].pending, b);
    }
    if |s.chs[c].pending| > 0 { assert s.chs[c].pending[0] in s.chs[c].pending; }
  }

  lemma NotPendingNext(s: State, c: nat)
    requires ChannelsInv(s) && BlockInv(s) && c < |s.chs|
    ensures Total(InPending(c, |s.chs[c].file|), s.chs) == 0
  {
    var n := |s.chs[c].file|;
    forall d | 0 <= d < |s.chs| ensures InPending(c, n)(s.chs[d]) == 0 {
      assert ChannelInv(d, s.chs[d]);
      forall j | 0 <= j < |s.chs[d].pending| ensures Is(c, n, s.chs[d].pending[j]) == 0 {
        assert s.chs[d].pending[j] in s.chs[d].pending;
        if d == c { AscendingAbove(n, s.chs[d].pending, s.chs[d].pending[j]); }
      }
      TotalZero(IsBlock(c, n), s.chs[d].pending);
    }
    TotalZero(InPending(c, n), s.chs);
  }

  /** A block in one of these queues is counted among the places. */
  lemma QueuedIsPlaced(s: State, b: Block)
    requires b in s.compq || b in s.ioq || b in s.dropped
    ensures Places(s, b.ch, b.id) >= 1
  {
    if b in s.compq {
      var j :| 0 <= j < |s.compq| && s.compq[j] == b;
      TotalContains(IsBlock(b.ch, b.id), s.compq, j);
    } else if b in s.ioq {
      var j :| 0 <= j < |s.ioq| && s.ioq[j] == b;
      TotalContains(IsBlock(b.ch, b.id), s.ioq, j);
    } else {
      var j :| 0 <= j < |s.dropped| && s.dropped[j] == b;
      TotalContains(IsBlock(b.ch, b.id), s.dropped, j);
    }
  }

  /** A stranded block keeps its channel's file open and incomplete. */
  lemma SomethingStranded(s: State, c: nat)
    requires Inv(s) && c < |s.chs| && Stranded(s, c)
    ensures !s.chs[c].fileClosed && |s.chs[c].file| < |s.chs[c].sent|
  {
    var b :| (b in s.compq || b in s.ioq || b in s.dropped) && b.ch == c;
    QueuedIsPlaced(s, b);
    assert Unwritten(s, c, b.id);
    assert ChannelInv(c, s.chs[c]);
  }

  /** When all threads have finished, a closed channel's file is complete and
      closed exactly if none of its blocks is stranded. */
  lemma CompleteIffNotStranded(kinds: seq<bool>, threads: nat, s: State, c: nat)
    requires Reachable(kinds, threads, s) && Terminal(s)
    requires c < |s.chs| && s.chs[c].phase.Closed?
    ensures Complete(s.chs[c]) <==> !Stranded(s, c)
    ensures s.chs[c].fileClosed <==> !Stranded(s, c)
  {
    ReachableInv(kinds, threads, s);
    if Stranded(s, c) { SomethingStranded(s, c); } else { NothingStranded(s, c); }
  }

  /** Channels of one kind, none late, and an untorn guard leave the io queue empty. */
  lemma QueueEmptied(kinds: seq<bool>, threads: nat, s: State)
    requires Reachable(kinds, threads, s) && threads > 0 && s.io.IoDone?
    requires Orderly(s)
    ensures s.ioq == []
  {
    ReachableStop(kinds, threads, s);
  }

  /** A block in the compression queue has threads to serve it, and they have not
      finished, unless a channel came late. */
  lemma QueuedIsServed(s: State)
    requires BlockInv(s) && ChannelsInv(s) && FinishedInv(s) && ServedInv(s) && |s.comps| > 0
    requires s.compq != [] && !s.late
    ensures exists t :: 0 <= t < |s.comps| && !s.comps[t].NotCreated? && !s.comps[t].CompExited?
  {
    var b := s.compq[0];
    assert b in s.compq && Original(s, b);
    assert ChannelInv(b.ch, s.chs[b.ch]);
    var t :| 0 <= t < |s.comps| && !s.comps[t].NotCreated?;
    assert !Finished(s.comps[t]);
  }

  /** Shutdown loses nothing: if the channels are of one kind, no compressed one
      came late, the IO thread's guard was not torn, and no push to the io queue
      failed, then when all threads have finished every closed channel's file is
      closed and holds its whole log, and all queues are empty. */
  lemma ShutdownLosesNothing(kinds: seq<bool>, threads: nat, s: State)
    requires Reachable(kinds, threads, s) && threads > 0 && Terminal(s)
    requires (AllCompress(s) || NoneCompress(s)) && !s.torn && !s.late && s.dropped == []
    ensures s.ioq == [] && s.compq == []
    ensures forall c :: 0 <= c < |s.chs| && s.chs[c].phase.Closed? ==> Complete(s.chs[c])
  {
    QueueEmptied(kinds, threads, s);
    if s.compq != [] {
      ReachableInv(kinds, threads, s);
      ReachableStop(kinds, threads, s);
      QueuedIsServed(s);
    }
    forall c | 0 <= c < |s.chs| && s.chs[c].phase.Closed? ensures Complete(s.chs[c]) {
      CompleteIffNotStranded(kinds, threads, s, c);
    }
  }
}
