/** The buffered log pipeline as a transition system.

    One logging thread per channel fills blocks; full blocks travel through the
    compression queue (compressed channels) or straight to the io queue; any
    number of compression threads copy a block, send the original back to its
    channel and push the copy to the io queue; one IO thread restores the block
    order and writes the files.  A step is one atomic access to shared state, so
    a sequence of steps is an interleaving of the threads. */
module PipelineModel {
  import opened Base
  import opened LogRecord

  const BUFFER_BLOCK_SIZE: nat := 1000000
  const NUM_BUFFER_BLOCK: nat := 32
  const RETURN_QUEUE_SIZE: nat := 10000
  const COMPRESS_QUEUE_SIZE: nat := 100000
  const IO_QUEUE_SIZE: nat := 100000

  /** A block is one of the channel's own blocks, or the fresh copy that carries
      compressed data to the IO thread. */
  datatype Origin = Own(slot: nat) | Fresh

  /** `data` has `block_idx` elements.  For a fresh copy it is what the
      compressed bytes decompress to. */
  datatype Block = Block(ch: nat, id: int, data: seq<LogData>, closeFile: bool, origin: Origin)

  /** Where a channel's logging thread is. */
  datatype Phase =
    | Unopened
    | Opening                 // counted in num_buf_ch
    | Counted                 // a compressed one also in num_buf_comp_ch; no threads or blocks created yet
    | Filling(block: Block)
    | Full(block: Block)      // block full, not yet handed over
    | Waiting                 // polling the return queue
    | CloseEnqueue(block: Block)
    | CloseDecComp
    | CloseDecAll
    | Closed

  /** `log` and `sent` are histories: every record logged, and the contents of
      every block handed over, in order.  `file` lists the blocks written. */
  datatype Channel = Channel(
    compress: bool,
    phase: Phase,
    blockCnt: nat,
    returned: seq<Block>,
    next: int,
    pending: seq<Block>,
    file: seq<seq<LogData>>,
    fileClosed: bool,
    log: seq<LogData>,
    sent: seq<seq<LogData>>)

  datatype CompPc =
    | NotCreated
    | CompGuard
    | CompPop(drain: bool)
    | CompHold(block: Block, drain: bool)
    | CompSend(copy: Block, drain: bool)
    | CompSignal
    | CompExited

  /** The IO thread's loop guard is four separate reads of shared variables. */
  datatype IoPc =
    | IoNotCreated
    | IoGuardCreated          // about to read comp_thread_created
    | IoGuardStop             // read true; about to read stop_io_thread
    | IoGuardCreatedAgain     // first disjunct false; reads comp_thread_created again
    | IoGuardOpen             // read false; about to read num_buf_ch
    | IoPop(drain: bool)
    | IoWrite(block: Block, drain: bool)
    | IoSendBack(block: Block, drain: bool)
    | IoCleanup               // queue flushed; about to reset comp_thread_created
    | IoDone

  /** `dropped`, `torn` and `late` are histories: the copies whose push to the full
      io queue failed; whether the IO thread left its loop while compression threads
      existed that had not all finished; and whether a compressed channel was counted
      when the compression threads, or even the IO thread, had found none open. */
  datatype State = State(
    chs: seq<Channel>,
    compq: seq<Block>,
    comps: seq<CompPc>,
    ioq: seq<Block>,
    io: IoPc,
    numBufCh: int,
    numBufCompCh: int,
    compCreated: bool,
    stopIo: int,
    dropped: seq<Block>,
    torn: bool,
    late: bool)

  function NewChannel(compress: bool): Channel {
    Channel(compress, Unopened, 0, [], 0, [], [], false, [], [])
  }

  /** No channel opened, no thread created. `kinds` says which channels compress. */
  function Init(kinds: seq<bool>, threads: nat): State {
    State(seq(|kinds|, i requires 0 <= i < |kinds| => NewChannel(kinds[i])), [],
          seq(threads, i => NotCreated), [], IoNotCreated, 0, 0, false, 0, [], false, false)
  }

  datatype Step =
    | StepOpen(c: nat)
    | StepCount(c: nat)
    | StepInit(c: nat)
    | StepLog(c: nat, rec: LogData)
    | StepEnqueue(c: nat)
    | StepDequeue(c: nat)
    | StepClose(c: nat)
    | StepCloseEnqueue(c: nat)
    | StepDecComp(c: nat)
    | StepDecAll(c: nat)
    | StepComp(t: nat)
    | StepIo

  // ---- the logging thread -------------------------------------------------

  function OwnBlock(c: nat, slot: nat): Block {
    Block(c, 0, [], false, Own(slot))
  }

  /** The blocks 1 .. NUM_BUFFER_BLOCK-1 that stay in the return queue after the
      first block is taken for writing. */
  function FreshBlocks(c: nat): seq<Block> {
    seq(NUM_BUFFER_BLOCK - 1, i requires 0 <= i => OwnBlock(c, i + 1))
  }

  function Started(c: nat, ch: Channel): Channel {
    ch.(phase := Filling(OwnBlock(c, 0)), blockCnt := 1, returned := FreshBlocks(c))
  }

  /** `writeOnBlock` followed by the full check. */
  function Logged(ch: Channel, rec: LogData): Channel
    requires ch.phase.Filling?
  {
    var b := ch.phase.block.(data := ch.phase.block.data + [rec]);
    ch.(phase := if |b.data| == BUFFER_BLOCK_SIZE then Full(b) else Filling(b), log := ch.log + [rec])
  }

  /** The block goes to the compression queue or the io queue. */
  function Handed(s: State, c: nat, b: Block, phase: Phase): State
    requires c < |s.chs|
  {
    var ch := s.chs[c].(phase := phase, sent := s.chs[c].sent + [b.data]);
    if ch.compress then s.(chs := s.chs[c := ch], compq := s.compq + [b])
    else s.(chs := s.chs[c := ch], ioq := s.ioq + [b])
  }

  predicate QueueHasRoom(s: State, c: nat)
    requires c < |s.chs|
  {
    if s.chs[c].compress then |s.compq| < COMPRESS_QUEUE_SIZE else |s.ioq| < IO_QUEUE_SIZE
  }

  function Dequeued(ch: Channel): Channel
    requires ch.returned != []
  {
    ch.(phase := Filling(ch.returned[0].(id := ch.blockCnt)), returned := ch.returned[1..],
        blockCnt := ch.blockCnt + 1)
  }

  // ---- the compression threads --------------------------------------------

  predicate CompEnabled(s: State, t: nat) {
    t < |s.comps| &&
    match s.comps[t]
    case NotCreated | CompExited => false
    case CompHold(b, _) => b.ch < |s.chs| && |s.chs[b.ch].returned| < RETURN_QUEUE_SIZE
    case _ => true
  }

  function CompStep(s: State, t: nat): State
    requires CompEnabled(s, t)
  {
    match s.comps[t]
    case CompGuard =>
      s.(comps := s.comps[t := CompPop(s.numBufCompCh == 0)])
    case CompPop(drain) =>
      if s.compq != [] then
        s.(comps := s.comps[t := CompHold(s.compq[0], drain)], compq := s.compq[1..])
      else
        s.(comps := s.comps[t := if drain then CompSignal else CompGuard])
    case CompHold(b, drain) =>
      s.(comps := s.comps[t := CompSend(b.(origin := Fresh), drain)],
         chs := s.chs[b.ch := SentBack(s.chs[b.ch], b)])
    case CompSend(copy, drain) =>
      var s1 := s.(comps := s.comps[t := if drain then CompPop(true) else CompGuard]);
      // the result of the push is ignored by the caller
      if |s.ioq| < IO_QUEUE_SIZE then s1.(ioq := s.ioq + [copy]) else s1.(dropped := s.dropped + [copy])
    case CompSignal =>
      s.(comps := s.comps[t := CompExited], stopIo := s.stopIo + 1)
  }

  /** The original block returns to its channel with `block_idx` 0. */
  function SentBack(ch: Channel, b: Block): Channel {
    ch.(returned := ch.returned + [b.(data := [])])
  }

  // ---- the IO thread ------------------------------------------------------

  /** A write to a closed stream has no effect. */
  function Append(ch: Channel, data: seq<LogData>): Channel {
    if ch.fileClosed then ch else ch.(file := ch.file + [data])
  }

  /** The priority queue ordered by block id, smallest first. */
  function Insert(q: seq<Block>, b: Block): seq<Block> {
    if q == [] || b.id < q[0].id then [b] + q else [q[0]] + Insert(q[1..], b)
  }

  function CloseIf(ch: Channel, close: bool): Channel {
    if close then ch.(fileClosed := true) else ch
  }

  /** Write the pending blocks that have become next in order. */
  function Drain(ch: Channel): Channel
    decreases |ch.pending|
  {
    if ch.pending != [] && ch.pending[0].id == ch.next then
      var top := ch.pending[0];
      var ch1 := Append(ch, top.data).(next := ch.next + 1, pending := ch.pending[1..]);
      Drain(CloseIf(ch1, top.closeFile))
    else ch
  }

  /** `writeCompressedBlock`. */
  function WriteCompressed(ch: Channel, b: Block): Channel {
    if b.id != ch.next then ch.(pending := Insert(ch.pending, b))
    else CloseIf(Drain(Append(ch, b.data).(next := ch.next + 1)), b.closeFile)
  }

  /** `writeUncompressedBlock` up to sending the block back. */
  function WriteUncompressed(ch: Channel, b: Block): Channel {
    CloseIf(Append(ch, b.data), b.closeFile)
  }

  predicate IoEnabled(s: State) {
    match s.io
    case IoNotCreated | IoDone => false
    case IoWrite(b, _) => b.ch < |s.chs|
    case IoSendBack(b, _) => b.ch < |s.chs| && |s.chs[b.ch].returned| < RETURN_QUEUE_SIZE
    case _ => true
  }

  /** The IO thread leaves its loop and starts the final flush. */
  function LeaveLoop(s: State): State {
    s.(io := IoPop(true), torn := s.torn || (s.compCreated && s.stopIo != |s.comps|))
  }

  function LoopHead(drain: bool): IoPc {
    if drain then IoPop(true) else IoGuardCreated
  }

  function IoStep(s: State): State
    requires IoEnabled(s)
  {
    match s.io
    case IoGuardCreated => s.(io := if s.compCreated then IoGuardStop else IoGuardCreatedAgain)
    case IoGuardStop => s.(io := if s.stopIo != |s.comps| then IoPop(false) else IoGuardCreatedAgain)
    case IoGuardCreatedAgain => if s.compCreated then LeaveLoop(s) else s.(io := IoGuardOpen)
    case IoGuardOpen => if s.numBufCh != 0 then s.(io := IoPop(false)) else LeaveLoop(s)
    case IoPop(drain) =>
      if s.ioq != [] then s.(io := IoWrite(s.ioq[0], drain), ioq := s.ioq[1..])
      else if drain then s.(io := IoCleanup)
      else s.(io := IoGuardCreated)
    case IoWrite(b, drain) =>
      if s.chs[b.ch].compress then
        s.(chs := s.chs[b.ch := WriteCompressed(s.chs[b.ch], b)], io := LoopHead(drain))
      else
        s.(chs := s.chs[b.ch := WriteUncompressed(s.chs[b.ch], b)], io := IoSendBack(b, drain))
    case IoSendBack(b, drain) =>
      s.(chs := s.chs[b.ch := SentBack(s.chs[b.ch], b)], io := LoopHead(drain))
    case IoCleanup => s.(io := IoDone, compCreated := false)
  }

  // ---- steps and runs -----------------------------------------------------

  /** When a step can be taken.  The first clause holds the domain of the model: no
      channel is opened after the open count has returned to 0 or the IO thread has
      ended, which would create a second IO thread. */
  predicate Enabled(s: State, a: Step) {
    match a
    case StepOpen(c) =>
      c < |s.chs| && s.chs[c].phase.Unopened? && !s.io.IoDone? && (s.io.IoNotCreated? || s.numBufCh > 0)
    case StepCount(c) => c < |s.chs| && s.chs[c].phase.Opening?
    case StepInit(c) => c < |s.chs| && s.chs[c].phase.Counted?
    case StepLog(c, rec) => c < |s.chs| && s.chs[c].phase.Filling?
    case StepEnqueue(c) => c < |s.chs| && s.chs[c].phase.Full? && QueueHasRoom(s, c)
    case StepDequeue(c) => c < |s.chs| && s.chs[c].phase.Waiting? && s.chs[c].returned != []
    case StepClose(c) => c < |s.chs| && s.chs[c].phase.Filling?
    case StepCloseEnqueue(c) => c < |s.chs| && s.chs[c].phase.CloseEnqueue? && QueueHasRoom(s, c)
    case StepDecComp(c) => c < |s.chs| && s.chs[c].phase.CloseDecComp?
    case StepDecAll(c) => c < |s.chs| && s.chs[c].phase.CloseDecAll?
    case StepComp(t) => CompEnabled(s, t)
    case StepIo => IoEnabled(s)
  }

  function SetPhase(s: State, c: nat, p: Phase): State
    requires c < |s.chs|
  {
    s.(chs := s.chs[c := s.chs[c].(phase := p)])
  }

  /** Opening a channel: count it and create the IO thread if there is none. */
  function OpenStep(s: State, c: nat): State
    requires c < |s.chs|
  {
    SetPhase(s, c, Opening).(numBufCh := s.numBufCh + 1,
                             io := if s.io.IoNotCreated? then IoGuardCreated else s.io)
  }

  /** A compressed channel is counted as such. */
  function CountStep(s: State, c: nat): State
    requires c < |s.chs|
  {
    var s1 := SetPhase(s, c, Counted);
    if s.chs[c].compress then
      s1.(numBufCompCh := s.numBufCompCh + 1,
          late := s.late || ((s.compCreated || s.io.IoDone?) && s.numBufCompCh == 0))
    else s1
  }

  /** Create the compression threads if the flag says that there are none, and the
      blocks.  Once the IO thread has reset the flag, that is a second set of threads. */
  function InitStep(s: State, c: nat): State
    requires c < |s.chs|
  {
    var s1 := s.(chs := s.chs[c := Started(c, s.chs[c])]);
    if !s.chs[c].compress || s.compCreated then s1
    else s1.(compCreated := true, comps := (if s.io.IoDone? then s.comps else []) + seq(|s.comps|, i => CompGuard))
  }

  function Next(s: State, a: Step): State
    requires Enabled(s, a)
  {
    match a
    case StepOpen(c) => OpenStep(s, c)
    case StepCount(c) => CountStep(s, c)
    case StepInit(c) => InitStep(s, c)
    case StepLog(c, rec) => s.(chs := s.chs[c := Logged(s.chs[c], rec)])
    case StepEnqueue(c) => Handed(s, c, s.chs[c].phase.block, Waiting)
    case StepDequeue(c) => s.(chs := s.chs[c := Dequeued(s.chs[c])])
    case StepClose(c) => SetPhase(s, c, CloseEnqueue(s.chs[c].phase.block.(closeFile := true)))
    case StepCloseEnqueue(c) =>
      Handed(s, c, s.chs[c].phase.block, if s.chs[c].compress then CloseDecComp else CloseDecAll)
    case StepDecComp(c) => SetPhase(s, c, CloseDecAll).(numBufCompCh := s.numBufCompCh - 1)
    case StepDecAll(c) => SetPhase(s, c, Closed).(numBufCh := s.numBufCh - 1)
    case StepComp(t) => CompStep(s, t)
    case StepIo => IoStep(s)
  }

  predicate Legal(s: State, run: seq<Step>)
    decreases |run|
  {
    run == [] || (Enabled(s, run[0]) && Legal(Next(s, run[0]), run[1..]))
  }

  function Exec(s: State, run: seq<Step>): State
    requires Legal(s, run)
    decreases |run|
  {
    if run == [] then s else Exec(Next(s, run[0]), run[1..])
  }

  ghost predicate Reachable(kinds: seq<bool>, threads: nat, s: State) {
    exists run :: Legal(Init(kinds, threads), run) && Exec(Init(kinds, threads), run) == s
  }

  /** Every thread has finished: each channel was closed or never opened. */
  predicate Terminal(s: State) {
    && s.io.IoDone?
    && (forall t :: 0 <= t < |s.comps| ==> s.comps[t].NotCreated? || s.comps[t].CompExited?)
    && (forall c :: 0 <= c < |s.chs| ==> s.chs[c].phase.Unopened? || s.chs[c].phase.Closed?)
  }

  lemma {:induction false} RunConcat(s: State, a: seq<Step>, b: seq<Step>)
    requires Legal(s, a) && Legal(Exec(s, a), b)
    ensures Legal(s, a + b) && Exec(s, a + b) == Exec(Exec(s, a), b)
    decreases |a|
  {
    if a == [] {
      assert a + b == b;
    } else {
      assert (a + b)[1..] == a[1..] + b;
      RunConcat(Next(s, a[0]), a[1..], b);
    }
  }

  lemma RunOne(s: State, a: Step)
    requires Enabled(s, a)
    ensures Legal(s, [a]) && Exec(s, [a]) == Next(s, a)
  {
    assert [a][1..] == [];
    assert Legal(Next(s, a), []);
  }

  lemma RunAppend(s: State, run: seq<Step>, a: Step)
    requires Legal(s, run) && Enabled(Exec(s, run), a)
    ensures Legal(s, run + [a]) && Exec(s, run + [a]) == Next(Exec(s, run), a)
  {
    RunOne(Exec(s, run), a);
    RunConcat(s, run, [a]);
  }

  lemma ReachableInit(kinds: seq<bool>, threads: nat)
    ensures Reachable(kinds, threads, Init(kinds, threads))
  {
    var run: seq<Step> := [];
    assert Legal(Init(kinds, threads), run) && Exec(Init(kinds, threads), run) == Init(kinds, threads);
  }

  lemma ReachableNext(kinds: seq<bool>, threads: nat, s: State, a: Step)
    requires Reachable(kinds, threads, s) && Enabled(s, a)
    ensures Reachable(kinds, threads, Next(s, a))
  {
    var run :| Legal(Init(kinds, threads), run) && Exec(Init(kinds, threads), run) == s;
    RunAppend(Init(kinds, threads), run, a);
  }
}
