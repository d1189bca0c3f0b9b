/** The logging thread's own code: blocks filled in place, the handler that
    switches blocks, closing, and the uncompressed write loop. */
module BufferHandlerCode {
  import opened Base
  import opened LogRecord
  import opened PipelineModel

  class BlockData {
    const ch: nat
    const slot: nat
    const data: array<LogData>
    var blockId: int
    var blockIdx: nat
    var closeFile: bool

    ghost predicate Valid()
      reads this
    {
      data.Length == BUFFER_BLOCK_SIZE && blockIdx <= BUFFER_BLOCK_SIZE
    }

    /** The block of the pipeline model. */
    ghost function View(): Block
      requires Valid()
      reads this, data
    {
      Block(ch, blockId, data[..blockIdx], closeFile, Own(slot))
    }

    constructor (ch: nat, slot: nat, blank: LogData)
      ensures Valid() && fresh(data)
      ensures View() == OwnBlock(ch, slot)
    {
      this.ch, this.slot := ch, slot;
      data := new LogData[BUFFER_BLOCK_SIZE](_ => blank);
      blockId, blockIdx, closeFile := 0, 0, false;
    }

    method WriteOnBlock(tuple: int64, ts: Timespec)
      requires Valid() && blockIdx < BUFFER_BLOCK_SIZE
      modifies `blockIdx, data
      ensures Valid() && View() == old(View()).(data := old(View()).data + [LogData(tuple, ts)])
    {
      data[blockIdx] := LogData(tuple, ts);
      blockIdx := blockIdx + 1;
      assert data[..blockIdx] == old(data[..blockIdx]) + [LogData(tuple, ts)];
    }

    method CheckBlockIsFull() returns (full: bool)
      requires Valid()
      ensures full <==> |View().data| == BUFFER_BLOCK_SIZE
    {
      full := blockIdx == BUFFER_BLOCK_SIZE;
    }
  }

  /** An output file: it takes records until it is closed. */
  class LogFile {
    var content: seq<LogData>
    var open: bool

    constructor ()
      ensures content == [] && open
    {
      content, open := [], true;
    }

    method WriteHandler(rec: LogData)
      modifies `content
      ensures content == if open then old(content) + [rec] else old(content)
    {
      if open { content := content + [rec]; }
    }

    method Close()
      modifies `open
      ensures !open
    {
      open := false;
    }
  }

  /** `writeUncompressedBlock` up to sending the block back: the records of the
      block are appended one by one and the block is emptied.  It agrees with
      the model's write of a whole block. */
  method WriteUncompressedBlock(b: BlockData, f: LogFile, ghost base: Channel)
    requires b.Valid() && f.content == Flatten(base.file) && f.open == !base.fileClosed
    modifies b`blockIdx, f
    ensures b.Valid() && b.View() == old(b.View()).(data := [])
    ensures var after := WriteUncompressed(base, old(b.View()));
      f.content == Flatten(after.file) && f.open == !after.fileClosed
  {
    var i := 0;
    while i < b.blockIdx
      modifies f
      invariant 0 <= i <= b.blockIdx && f.open == old(f.open)
      invariant f.content == if f.open then old(f.content) + b.data[..i] else old(f.content)
    {
      f.WriteHandler(b.data[i]);
      assert b.data[..i + 1] == b.data[..i] + [b.data[i]];
      i := i + 1;
    }
    FlattenAppend(base.file, b.data[..b.blockIdx]);
    if b.closeFile {
      f.Close();
    }
    b.blockIdx := 0;
  }

  /** What the closing thread shares with the others: the work queue of its kind of
      channel and the counters of open channels.  `trace` lists the accesses in their
      order, as steps of the model. */
  class Shared {
    var queue: seq<BlockData>
    var numBufCh: int
    var numBufCompCh: int
    ghost var trace: seq<Step>

    constructor ()
      ensures numBufCh == numBufCompCh == 0 && queue == [] && trace == []
    {
      queue, numBufCh, numBufCompCh, trace := [], 0, 0, [];
    }

    /** `enqueueBlockUntilSuccess`, when it has succeeded. */
    method EnqueueBlockUntilSuccess(b: BlockData)
      modifies `queue, `trace
      ensures queue == old(queue) + [b] && trace == old(trace) + [StepCloseEnqueue(b.ch)]
    {
      queue := queue + [b];
      trace := trace + [StepCloseEnqueue(b.ch)];
    }

    method DecrementComp(ghost ch: nat)
      modifies `numBufCompCh, `trace
      ensures numBufCompCh == old(numBufCompCh) - 1 && trace == old(trace) + [StepDecComp(ch)]
    {
      numBufCompCh := numBufCompCh - 1;
      trace := trace + [StepDecComp(ch)];
    }

    method DecrementAll(ghost ch: nat)
      modifies `numBufCh, `trace
      ensures numBufCh == old(numBufCh) - 1 && trace == old(trace) + [StepDecAll(ch)]
    {
      numBufCh := numBufCh - 1;
      trace := trace + [StepDecAll(ch)];
    }
  }

  /** Closing as steps of the model: the block is handed over before the channel is
      taken out of the open counts. */
  function CloseSteps(ch: nat, compress: bool): seq<Step> {
    [StepCloseEnqueue(ch)] + (if compress then [StepDecComp(ch)] else []) + [StepDecAll(ch)]
  }

  /** The channel closed, its last block queued, and its counts taken back. */
  function ClosedState(s: State, c: nat): State
    requires c < |s.chs| && s.chs[c].phase.CloseEnqueue?
  {
    Handed(s, c, s.chs[c].phase.block, Closed).(
      numBufCh := s.numBufCh - 1, numBufCompCh := s.numBufCompCh - if s.chs[c].compress then 1 else 0)
  }

  lemma CloseCompressed(s: State, c: nat)
    requires c < |s.chs| && s.chs[c].phase.CloseEnqueue? && QueueHasRoom(s, c) && s.chs[c].compress
    ensures Legal(s, CloseSteps(c, true)) && Exec(s, CloseSteps(c, true)) == ClosedState(s, c)
  {
    var enqueue := StepCloseEnqueue(c);
    RunOne(s, enqueue);
    RunAppend(s, [enqueue], StepDecComp(c));
    RunAppend(s, [enqueue] + [StepDecComp(c)], StepDecAll(c));
    assert Exec(s, CloseSteps(c, true)).chs == ClosedState(s, c).chs;
  }

  lemma CloseUncompressed(s: State, c: nat)
    requires c < |s.chs| && s.chs[c].phase.CloseEnqueue? && QueueHasRoom(s, c) && !s.chs[c].compress
    ensures Legal(s, CloseSteps(c, false)) && Exec(s, CloseSteps(c, false)) == ClosedState(s, c)
  {
    var enqueue := StepCloseEnqueue(c);
    RunOne(s, enqueue);
    RunAppend(s, [enqueue], StepDecAll(c));
    assert CloseSteps(c, false) == [enqueue] + [StepDecAll(c)];
    assert Exec(s, CloseSteps(c, false)).chs == ClosedState(s, c).chs;
  }

  /** Without steps of other threads in between, these steps are a run that closes
      the channel. */
  lemma CloseStepsRun(s: State, c: nat)
    requires c < |s.chs| && s.chs[c].phase.CloseEnqueue? && QueueHasRoom(s, c)
    ensures Legal(s, CloseSteps(c, s.chs[c].compress))
    ensures Exec(s, CloseSteps(c, s.chs[c].compress)) == ClosedState(s, c)
  {
    if s.chs[c].compress { CloseCompressed(s, c); } else { CloseUncompressed(s, c); }
  }

  class BufferClosure {
    const compress: bool
    var block: BlockData
    var blockCnt: nat
    var active: bool          // handler_f is BufferIdentityHandler

    ghost predicate Valid()
      reads this, block
    {
      block.Valid() && block.blockIdx < BUFFER_BLOCK_SIZE
    }

    /** The model's channel with this closure's block and count. */
    ghost function View(base: Channel): Channel
      requires Valid()
      reads this, block, block.data
    {
      base.(phase := Filling(block.View()), blockCnt := blockCnt, compress := compress)
    }

    constructor (compress: bool, first: BlockData)
      requires first.Valid() && first.blockIdx == 0
      modifies first
      ensures Valid() && active && block == first && blockCnt == 1 && this.compress == compress
      ensures block.View() == old(first.View()).(id := 0)
    {
      this.compress := compress;
      block := first;
      blockCnt := 1;
      active := true;
      new;
      block.blockId := 0;
    }

    /** One logging call.  `next` is the block that polling the return queue
        obtains if the block at hand becomes full; the full block is handed to
        the work queue.  The effect is the model's log step, followed by the
        hand-over and dequeue steps when the block is full. */
    method BufferIdentityHandler(tuple: int64, ts: Timespec, next: BlockData, ghost base: Channel)
      returns (handed: Option<BlockData>)
      requires Valid() && next.Valid() && next.blockIdx == 0
      requires next != block && next.data != block.data
      modifies this`block, this`blockCnt, block, block.data, next
      ensures Valid()
      ensures var logged := Logged(old(View(base)), LogData(tuple, ts));
        if logged.phase.Filling? then
          handed == None && block == old(block) && View(logged) == logged
        else
          && handed == Some(old(block)) && handed.value.Valid() && handed.value.View() == logged.phase.block
          && block == next
          && var waiting := logged.(phase := Waiting, returned := [old(next.View())]);
             View(waiting.(returned := [])) == Dequeued(waiting)
    {
      block.WriteOnBlock(tuple, ts);
      var full := block.CheckBlockIsFull();
      handed := None;
      if full {
        handed := Some(block);
        block := next;
        block.blockId := blockCnt;
        blockCnt := blockCnt + 1;
      }
    }

    /** The first call hands the block over marked as the last one and, after
        that, takes the channel out of the open counts; further calls do
        nothing. */
    method CloseChannel(shared: Shared)
      requires Valid() && shared as object != this && shared as object != block
      modifies this`active, block`closeFile, shared
      ensures Valid() && !active && block == old(block)
      ensures old(active) ==>
        && block.View() == old(block.View()).(closeFile := true)
        && shared.queue == old(shared.queue) + [block]
        && shared.trace == old(shared.trace) + CloseSteps(block.ch, compress)
        && shared.numBufCh == old(shared.numBufCh) - 1
        && shared.numBufCompCh == old(shared.numBufCompCh) - if compress then 1 else 0
      ensures !old(active) ==>
        && block.View() == old(block.View())
        && shared.queue == old(shared.queue) && shared.trace == old(shared.trace)
        && shared.numBufCh == old(shared.numBufCh) && shared.numBufCompCh == old(shared.numBufCompCh)
    {
      if active {
        active := false;
        block.closeFile := true;
        shared.EnqueueBlockUntilSuccess(block);
        if compress {
          shared.DecrementComp(block.ch);
        }
        shared.DecrementAll(block.ch);
      }
    }

    /** `logTS`: the tuple -1 closes the channel, and a closed channel ignores
        every other tuple. */
    method LogTS(tuple: int64, ts: Timespec, next: BlockData, shared: Shared)
      returns (handed: Option<BlockData>)
      requires Valid() && next.Valid() && next.blockIdx == 0
      requires next != block && next.data != block.data
      requires shared as object != this && shared as object != block && shared as object != next
      modifies this, block, block.data, next, shared
      ensures Valid()
      ensures !old(active) ==>
        && handed == None && block == old(block) && block.View() == old(block.View()) && !active
        && shared.queue == old(shared.queue) && shared.trace == old(shared.trace)
      ensures tuple == -1 && old(active) ==>
        && !active && block.closeFile && shared.queue == old(shared.queue) + [block]
        && shared.trace == old(shared.trace) + CloseSteps(block.ch, compress)
      ensures tuple != -1 && old(active) ==>
        (active && old(block.View()).data + [LogData(tuple, ts)] ==
           if handed.Some? then old(block).data[..] else block.View().data)
    {
      handed := None;
      if tuple == -1 {
        CloseChannel(shared);
      } else if active {
        ghost var base := NewChannel(compress);
        handed := BufferIdentityHandler(tuple, ts, next, base);
      }
    }
  }
}
