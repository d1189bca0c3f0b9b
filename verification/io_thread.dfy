/** The IO thread's own code: the reorder buffer and the final flush, on the
    arrays it updates in place. */
module IoThreadCode {
  import opened Base
  import opened LogRecord
  import opened PipelineModel
  import opened PipelineInvariant
  import opened PipelineSafety

  /** The reorder buffer is laid out for channel numbers below 200. */
  const MAX_CHANNELS: nat := 200

  /** A block is inserted before the first block with a larger id. */
  lemma {:induction false} InsertPosition(q: seq<Block>, i: nat, b: Block)
    requires i <= |q| && forall j :: 0 <= j < i ==> q[j].id <= b.id
    requires i < |q| ==> b.id < q[i].id
    ensures Insert(q, b) == q[..i] + [b] + q[i..]
  {
    if i > 0 {
      InsertPosition(q[1..], i - 1, b);
      assert q[..i] == [q[0]] + q[1..][..i - 1];
    }
  }

  class IoThread {
    const nextBlock: array<int>
    const pending: array<seq<Block>>
    const files: array<seq<seq<LogData>>>
    const closed: array<bool>

    ghost predicate Valid() {
      nextBlock.Length == pending.Length == files.Length == closed.Length == MAX_CHANNELS
    }

    /** The channel `ch` with what the IO thread holds for number c. */
    ghost function View(c: nat, ch: Channel): Channel
      requires Valid() && c < MAX_CHANNELS
      reads nextBlock, pending, files, closed
    {
      ch.(next := nextBlock[c], pending := pending[c], file := files[c], fileClosed := closed[c])
    }

    constructor ()
      ensures Valid()
      ensures fresh(nextBlock) && fresh(pending) && fresh(files) && fresh(closed)
      ensures forall c, ch :: 0 <= c < MAX_CHANNELS ==>
        View(c, ch) == ch.(next := 0, pending := [], file := [], fileClosed := false)
    {
      nextBlock := new int[MAX_CHANNELS](_ => 0);
      pending := new seq<Block>[MAX_CHANNELS](_ => []);
      files := new seq<seq<LogData>>[MAX_CHANNELS](_ => []);
      closed := new bool[MAX_CHANNELS](_ => false);
    }

    /** Nothing changed for channel numbers other than c. */
    twostate predicate OthersSame(c: nat)
      requires Valid()
      reads nextBlock, pending, files, closed
    {
      forall d :: 0 <= d < MAX_CHANNELS && d != c ==>
        nextBlock[d] == old(nextBlock[d]) && pending[d] == old(pending[d]) &&
        files[d] == old(files[d]) && closed[d] == old(closed[d])
    }

    /** Append one frame; a closed stream ignores it. */
    method WriteFrame(c: nat, b: Block, ghost base: Channel)
      requires Valid() && c < MAX_CHANNELS
      modifies files
      ensures View(c, base) == Append(old(View(c, base)), b.data) && OthersSame(c)
    {
      if !closed[c] {
        files[c] := files[c] + [b.data];
      }
    }

    /** Insert into the queue ordered by block id. */
    method Push(b: Block)
      requires Valid() && b.ch < MAX_CHANNELS
      modifies pending
      ensures pending[b.ch] == Insert(old(pending[b.ch]), b)
      ensures forall d :: 0 <= d < MAX_CHANNELS && d != b.ch ==> pending[d] == old(pending[d])
    {
      var q := pending[b.ch];
      var i := 0;
      while i < |q| && q[i].id <= b.id
        invariant 0 <= i <= |q|
        invariant forall j :: 0 <= j < i ==> q[j].id <= b.id
      {
        i := i + 1;
      }
      InsertPosition(q, i, b);
      pending[b.ch] := q[..i] + [b] + q[i..];
    }

    /** Write every pending block that has become next in order. */
    method DrainPending(c: nat, ghost base: Channel)
      requires Valid() && c < MAX_CHANNELS
      modifies nextBlock, pending, files, closed
      ensures View(c, base) == Drain(old(View(c, base))) && OthersSame(c)
    {
      while |pending[c]| != 0 && pending[c][0].id == nextBlock[c]
        invariant Drain(View(c, base)) == Drain(old(View(c, base)))
        invariant OthersSame(c)
        decreases |pending[c]|
      {
        ghost var v := View(c, base);
        var top := pending[c][0];
        WriteFrame(c, top, base);
        nextBlock[c] := nextBlock[c] + 1;
        pending[c] := pending[c][1..];
        if top.closeFile {
          closed[c] := true;
        }
        assert View(c, base) ==
          CloseIf(Append(v, top.data).(next := v.next + 1, pending := v.pending[1..]), top.closeFile);
      }
    }

    /** Write the block if it is next in order, and after it every pending block
        that has become next; otherwise keep it. */
    method WriteCompressedBlock(b: Block, ghost base: Channel)
      requires Valid() && b.ch < MAX_CHANNELS
      modifies nextBlock, pending, files, closed
      ensures View(b.ch, base) == WriteCompressed(old(View(b.ch, base)), b)
      ensures OthersSame(b.ch)
    {
      var c := b.ch;
      if b.id != nextBlock[c] {
        Push(b);
        return;
      }
      WriteFrame(c, b, base);
      nextBlock[c] := nextBlock[c] + 1;
      DrainPending(c, base);
      if b.closeFile {
        closed[c] := true;
      }
    }
  }

  // ---- the final flush ----------------------------------------------------

  /** One block of the io queue dealt with, whatever its kind. */
  function Processed(ch: Channel, b: Block): Channel {
    if ch.compress then WriteCompressed(ch, b) else SentBack(WriteUncompressed(ch, b), b)
  }

  /** The channels after all blocks of a queue were dealt with in order. */
  function Flushed(chs: seq<Channel>, q: seq<Block>): seq<Channel>
    requires forall b :: b in q ==> b.ch < |chs|
    decreases |q|
  {
    if q == [] then chs else Flushed(chs[q[0].ch := Processed(chs[q[0].ch], q[0])], q[1..])
  }

  /** `flushBlockInQueues`: pop until the queue is empty. */
  method FlushBlockInQueues(chs: seq<Channel>, ioq: seq<Block>) returns (out: seq<Channel>)
    requires forall b :: b in ioq ==> b.ch < |chs|
    ensures out == Flushed(chs, ioq)
  {
    out := chs;
    var q := ioq;
    while q != []
      invariant |out| == |chs| && forall b :: b in q ==> b.ch < |chs|
      invariant Flushed(out, q) == Flushed(chs, ioq)
      decreases |q|
    {
      var data := q[0];
      q := q[1..];
      if out[data.ch].compress {
        out := out[data.ch := WriteCompressed(out[data.ch], data)];
      } else {
        out := out[data.ch := SentBack(WriteUncompressed(out[data.ch], data), data)];
      }
    }
  }

  function IoSteps(n: nat): seq<Step> { seq(n, _ => StepIo) }

  /** One block of the flush: pop, write, and send back if it is a channel's own. */
  lemma FlushOne(s: State) returns (n: nat)
    requires s.io == IoPop(true) && s.ioq != [] && s.ioq[0].ch < |s.chs|
    requires |s.chs[s.ioq[0].ch].returned| < RETURN_QUEUE_SIZE
    ensures Legal(s, IoSteps(n))
    ensures var b := s.ioq[0];
      Exec(s, IoSteps(n)) == s.(chs := s.chs[b.ch := Processed(s.chs[b.ch], b)], ioq := s.ioq[1..])
  {
    var b := s.ioq[0];
    FlushKeepsReturned(s.chs[b.ch], b);
    RunOne(s, StepIo);
    var s1 := Next(s, StepIo);
    RunAppend(s, [StepIo], StepIo);
    var s2 := Next(s1, StepIo);
    if s.chs[b.ch].compress {
      n := 2;
      assert IoSteps(n) == [StepIo] + [StepIo];
    } else {
      n := 3;
      RunAppend(s, [StepIo] + [StepIo], StepIo);
      assert IoSteps(n) == [StepIo] + [StepIo] + [StepIo];
      assert s2.chs[b.ch := SentBack(s2.chs[b.ch], b)] == s.chs[b.ch := Processed(s.chs[b.ch], b)];
    }
  }

  /** The IO thread running alone from the start of the final flush: it empties
      the queue, ends, and leaves exactly the flushed channels. */
  lemma {:induction false} FlushRun(s: State) returns (n: nat)
    requires Inv(s) && s.io == IoPop(true)
    ensures forall b :: b in s.ioq ==> b.ch < |s.chs|
    ensures Legal(s, IoSteps(n))
    ensures Exec(s, IoSteps(n)) == s.(chs := Flushed(s.chs, s.ioq), ioq := [], io := IoDone, compCreated := false)
    decreases |s.ioq|
  {
    if s.ioq == [] {
      n := 2;
      RunOne(s, StepIo);
      RunAppend(s, [StepIo], StepIo);
      assert IoSteps(n) == [StepIo] + [StepIo];
    } else {
      var b := s.ioq[0];
      assert b in s.ioq;
      ReturnQueueHasRoom(s, b.ch);
      var k := FlushOne(s);
      var s1 := Exec(s, IoSteps(k));
      RunKeeps(s, IoSteps(k));
      var m := FlushRun(s1);
      RunConcat(s, IoSteps(k), IoSteps(m));
      n := k + m;
      assert IoSteps(n) == IoSteps(k) + IoSteps(m);
    }
  }

  lemma {:induction false} DrainKeepsReturned(ch: Channel)
    ensures Drain(ch).returned == ch.returned && Drain(ch).compress == ch.compress
    decreases |ch.pending|
  {
    if ch.pending != [] && ch.pending[0].id == ch.next {
      var top := ch.pending[0];
      var ch1 := Append(ch, top.data).(next := ch.next + 1, pending := ch.pending[1..]);
      DrainKeepsReturned(CloseIf(ch1, top.closeFile));
    }
  }

  lemma FlushKeepsReturned(ch: Channel, b: Block)
    ensures |Processed(ch, b).returned| <= |ch.returned| + 1
    ensures |WriteUncompressed(ch, b).returned| == |ch.returned|
  {
    DrainKeepsReturned(Append(ch, b.data).(next := ch.next + 1));
  }
}
