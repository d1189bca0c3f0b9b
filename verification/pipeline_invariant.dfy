/** What every reachable state of the pipeline satisfies: each block handed over
    is in exactly one place until it is written, each of a channel's own blocks
    is in exactly one place, and each file is the blocks 0, 1, 2, ... in order. */
module PipelineInvariant {
  import opened Base
  import opened LogRecord
  import opened Sums
  import opened PipelineModel

  // ---- one channel --------------------------------------------------------

  /** The block in the logging thread's hand, if any. */
  function Hand(ch: Channel): seq<Block> {
    match ch.phase
    case Filling(b) => [b]
    case Full(b) => [b]
    case CloseEnqueue(b) => [b]
    case _ => []
  }

  /** The last block has been handed over. */
  predicate Ended(ch: Channel) {
    ch.phase.CloseDecComp? || ch.phase.CloseDecAll? || ch.phase.Closed?
  }

  predicate NotStarted(ch: Channel) {
    ch.phase.Unopened? || ch.phase.Opening? || ch.phase.Counted?
  }

  function HandData(ch: Channel): seq<LogData> {
    if Hand(ch) == [] then [] else Hand(ch)[0].data
  }

  /** Ids strictly increase and all exceed `low`. */
  predicate Ascending(low: int, q: seq<Block>)
    decreases |q|
  {
    q == [] || (low < q[0].id && Ascending(q[0].id, q[1..]))
  }

  ghost predicate HandInv(c: nat, ch: Channel) {
    && (Hand(ch) != [] ==>
         var b := Hand(ch)[0];
         && b.ch == c && b.origin.Own? && b.id == |ch.sent| && ch.blockCnt == |ch.sent| + 1
         && (b.closeFile <==> ch.phase.CloseEnqueue?)
         && (if ch.phase.Full? then |b.data| == BUFFER_BLOCK_SIZE else |b.data| < BUFFER_BLOCK_SIZE))
    && (ch.phase.Waiting? ==> ch.blockCnt == |ch.sent|)
    && (Ended(ch) ==> |ch.sent| > 0)
    && (ch.phase.CloseDecComp? ==> ch.compress)
  }

  ghost predicate FileInv(ch: Channel) {
    && |ch.file| <= |ch.sent|
    && ch.file == ch.sent[..|ch.file|]
    && (ch.fileClosed <==> Ended(ch) && |ch.file| == |ch.sent|)
    && (if ch.compress then ch.next == |ch.file| else ch.pending == [])
    && Ascending(|ch.file|, ch.pending)
  }

  ghost predicate ReturnInv(c: nat, ch: Channel) {
    forall b :: b in ch.returned ==>
      b.ch == c && b.origin.Own? && b.data == [] && (!Ended(ch) ==> !b.closeFile)
  }

  ghost predicate ChannelInv(c: nat, ch: Channel) {
    && HandInv(c, ch)
    && FileInv(ch)
    && ReturnInv(c, ch)
    && (forall i :: 0 <= i < |ch.sent| ==> |ch.sent[i]| <= BUFFER_BLOCK_SIZE)
    && ch.log == Flatten(ch.sent) + HandData(ch)
    && (NotStarted(ch) ==> ch.sent == [] && ch.returned == [] && ch.pending == [])
  }

  // ---- blocks on their way ------------------------------------------------

  /** A block under way carries what was handed over under its number, and only
      the last block of a closed channel closes the file. */
  predicate Faithful(s: State, b: Block) {
    && b.ch < |s.chs|
    && 0 <= b.id < |s.chs[b.ch].sent|
    && b.data == s.chs[b.ch].sent[b.id]
    && (b.closeFile <==> Ended(s.chs[b.ch]) && b.id == |s.chs[b.ch].sent| - 1)
  }

  predicate Original(s: State, b: Block) {
    Faithful(s, b) && s.chs[b.ch].compress && b.origin.Own?
  }

  predicate Copied(s: State, b: Block) {
    Faithful(s, b) && s.chs[b.ch].compress && b.origin.Fresh?
  }

  predicate ForIo(s: State, b: Block) {
    Faithful(s, b) && (s.chs[b.ch].compress <==> b.origin.Fresh?)
  }

  ghost predicate BlockInv(s: State) {
    && (forall b :: b in s.compq ==> Original(s, b))
    && (forall t :: 0 <= t < |s.comps| ==> CompInv(s, s.comps[t]))
    && (forall b :: b in s.ioq ==> ForIo(s, b))
    && IoInv(s)
    && (forall c, b :: 0 <= c < |s.chs| && b in s.chs[c].pending ==> b.ch == c && Copied(s, b))
    && (forall b :: b in s.dropped ==> Copied(s, b))
  }

  predicate CompInv(s: State, pc: CompPc) {
    match pc
    case CompHold(b, _) => Original(s, b)
    case CompSend(b, _) => Copied(s, b)
    case _ => true
  }

  predicate IoInv(s: State) {
    match s.io
    case IoWrite(b, _) => ForIo(s, b)
    case IoSendBack(b, _) =>
      b.ch < |s.chs| && !s.chs[b.ch].compress && b.origin.Own? && (b.closeFile ==> Ended(s.chs[b.ch]))
    case _ => true
  }

  /** Uncompressed blocks reach the IO thread in order. */
  ghost predicate OrderInv(s: State) {
    && (forall i, j :: 0 <= i < j < |s.ioq| && s.ioq[i].ch == s.ioq[j].ch && s.ioq[i].origin.Own?
          ==> s.ioq[i].id < s.ioq[j].id)
    && (s.io.IoWrite? && s.io.block.origin.Own? ==>
         forall j :: 0 <= j < |s.ioq| && s.ioq[j].ch == s.io.block.ch ==> s.io.block.id < s.ioq[j].id)
  }

  // ---- counting places ----------------------------------------------------

  /** One if this is block i of channel c. */
  function Is(c: nat, i: int, b: Block): nat {
    if b.ch == c && b.id == i then 1 else 0
  }

  function IsBlock(c: nat, i: int): Block -> nat {
    (b: Block) => Is(c, i, b)
  }

  function CompHolds(c: nat, i: int): CompPc -> nat {
    (pc: CompPc) =>
      match pc
      case CompHold(b, _) => Is(c, i, b)
      case CompSend(b, _) => Is(c, i, b)
      case _ => 0
  }

  function IoHolds(c: nat, i: int, pc: IoPc): nat {
    if pc.IoWrite? then Is(c, i, pc.block) else 0
  }

  function InPending(c: nat, i: int): Channel -> nat {
    (ch: Channel) => Total(IsBlock(c, i), ch.pending)
  }

  /** In how many places block i of channel c is, between hand-over and file. */
  function Places(s: State, c: nat, i: int): nat {
    Total(IsBlock(c, i), s.compq) + Total(CompHolds(c, i), s.comps) + Total(IsBlock(c, i), s.ioq)
    + IoHolds(c, i, s.io) + Total(InPending(c, i), s.chs) + Total(IsBlock(c, i), s.dropped)
  }

  predicate Unwritten(s: State, c: nat, i: int) {
    c < |s.chs| && |s.chs[c].file| <= i < |s.chs[c].sent|
  }

  /** Every block handed over and not written is in exactly one place. */
  ghost predicate TokenInv(s: State) {
    forall c: nat, i: int :: Places(s, c, i) == if Unwritten(s, c, i) then 1 else 0
  }

  /** One if this is channel c's own block in slot k. */
  function Owns(c: nat, k: int, b: Block): nat {
    if b.ch == c && b.origin.Own? && b.origin.slot == k then 1 else 0
  }

  function IsSlot(c: nat, k: int): Block -> nat {
    (b: Block) => Owns(c, k, b)
  }

  function CompHoldsSlot(c: nat, k: int): CompPc -> nat {
    (pc: CompPc) => if pc.CompHold? then Owns(c, k, pc.block) else 0
  }

  function IoHoldsSlot(c: nat, k: int, pc: IoPc): nat {
    match pc
    case IoWrite(b, _) => Owns(c, k, b)
    case IoSendBack(b, _) => Owns(c, k, b)
    case _ => 0
  }

  function ChannelHoldsSlot(c: nat, k: int): Channel -> nat {
    (ch: Channel) => Total(IsSlot(c, k), ch.returned) + Total(IsSlot(c, k), Hand(ch))
  }

  /** In how many places the channel's own block k is. */
  function SlotPlaces(s: State, c: nat, k: int): nat {
    Total(ChannelHoldsSlot(c, k), s.chs) + Total(IsSlot(c, k), s.compq) + Total(CompHoldsSlot(c, k), s.comps)
    + Total(IsSlot(c, k), s.ioq) + IoHoldsSlot(c, k, s.io)
  }

  predicate HasBlocks(s: State, c: nat) {
    c < |s.chs| && !NotStarted(s.chs[c])
  }

  /** Each of a channel's NUM_BUFFER_BLOCK blocks is in exactly one place. */
  ghost predicate SlotInv(s: State) {
    forall c: nat, k: int ::
      SlotPlaces(s, c, k) == if HasBlocks(s, c) && 0 <= k < NUM_BUFFER_BLOCK then 1 else 0
  }

  /** Compression threads exist exactly when the flag says so, until the IO
      thread resets it at its end. */
  predicate CreatedInv(s: State) {
    && (!s.io.IoDone? ==> forall t :: 0 <= t < |s.comps| ==> (s.comps[t].NotCreated? <==> !s.compCreated))
    && (s.io.IoNotCreated? ==> forall c :: 0 <= c < |s.chs| ==> s.chs[c].phase.Unopened?)
  }

  ghost predicate ChannelsInv(s: State) {
    forall c :: 0 <= c < |s.chs| ==> ChannelInv(c, s.chs[c])
  }

  ghost predicate Inv(s: State) {
    && ChannelsInv(s)
    && BlockInv(s)
    && OrderInv(s)
    && TokenInv(s)
    && SlotInv(s)
    && CreatedInv(s)
  }

  // ---- the reorder buffer -------------------------------------------------

  lemma {:induction false} AscendingAbove(low: int, q: seq<Block>, b: Block)
    requires Ascending(low, q) && b in q
    ensures low < b.id
    decreases |q|
  {
    if b != q[0] { AscendingAbove(q[0].id, q[1..], b); }
  }

  lemma {:induction false} InsertAscending(low: int, q: seq<Block>, b: Block)
    requires Ascending(low, q) && low < b.id
    requires forall x :: x in q ==> x.id != b.id
    ensures Ascending(low, Insert(q, b))
    decreases |q|
  {
    if q != [] && q[0].id <= b.id {
      InsertAscending(q[0].id, q[1..], b);
      assert Insert(q, b)[1..] == Insert(q[1..], b);
    } else {
      assert Insert(q, b)[1..] == q;
    }
  }

  lemma {:induction false} InsertTokens(q: seq<Block>, b: Block)
    ensures forall c, i :: Total(IsBlock(c, i), Insert(q, b)) == Total(IsBlock(c, i), q) + Is(c, i, b)
    ensures forall x :: x in Insert(q, b) <==> x in q || x == b
  {
    if q != [] && q[0].id <= b.id {
      InsertTokens(q[1..], b);
      assert Insert(q, b)[1..] == Insert(q[1..], b);
    } else {
      assert Insert(q, b)[1..] == q;
    }
  }

  /** A block of the channel is as it was handed over. */
  predicate FromSent(c: nat, ch: Channel, b: Block) {
    b.ch == c && 0 <= b.id < |ch.sent| && b.data == ch.sent[b.id] &&
    (b.closeFile <==> Ended(ch) && b.id == |ch.sent| - 1)
  }

  /** All but what the IO thread writes is unchanged. */
  predicate SameButFile(a: Channel, b: Channel) {
    b == a.(next := b.next, pending := b.pending, file := b.file, fileClosed := b.fileClosed)
  }

  /** What leaves the pending queue (and the hand) is exactly what is written. */
  ghost predicate Wrote(c: nat, before: Channel, after: Channel, held: seq<Block>) {
    && |before.file| <= |after.file|
    && forall d: nat, i: int :: Total(IsBlock(d, i), before.pending) + Total(IsBlock(d, i), held)
         == Total(IsBlock(d, i), after.pending) + (if d == c && |before.file| <= i < |after.file| then 1 else 0)
  }

  lemma {:induction false} DrainInv(c: nat, ch: Channel)
    requires ch.compress && ch.next == |ch.file| <= |ch.sent| && ch.file == ch.sent[..|ch.file|]
    requires ch.fileClosed <==> Ended(ch) && |ch.file| == |ch.sent|
    requires Ended(ch) ==> |ch.sent| > 0
    requires Ascending(ch.next - 1, ch.pending)
    requires forall b :: b in ch.pending ==> FromSent(c, ch, b)
    ensures FileInv(Drain(ch)) && SameButFile(ch, Drain(ch))
    ensures Wrote(c, ch, Drain(ch), [])
    ensures forall b :: b in Drain(ch).pending ==> b in ch.pending
    decreases |ch.pending|
  {
    if ch.pending != [] && ch.pending[0].id == ch.next {
      var top := ch.pending[0];
      assert FromSent(c, ch, top);
      var ch1 := CloseIf(Append(ch, top.data).(next := ch.next + 1, pending := ch.pending[1..]), top.closeFile);
      assert ch1.file == ch.sent[..|ch1.file|];
      forall b | b in ch1.pending ensures FromSent(c, ch1, b) { assert b in ch.pending; }
      DrainInv(c, ch1);
    }
  }

  /** One call of `writeCompressedBlock`: the file grows by exactly the blocks
      that are next in order, and what stays pending is out of order. */
  lemma WriteCompressedInv(c: nat, ch: Channel, b: Block)
    requires ch.compress && FileInv(ch) && FromSent(c, ch, b) && |ch.file| <= b.id
    requires Ended(ch) ==> |ch.sent| > 0
    requires forall x :: x in ch.pending ==> FromSent(c, ch, x) && x.id != b.id
    ensures FileInv(WriteCompressed(ch, b)) && SameButFile(ch, WriteCompressed(ch, b))
    ensures Wrote(c, ch, WriteCompressed(ch, b), [b])
    ensures forall x :: x in WriteCompressed(ch, b).pending ==> x in ch.pending || x == b
  {
    if b.id != ch.next {
      InsertAscending(|ch.file|, ch.pending, b);
      InsertTokens(ch.pending, b);
    } else {
      var ch0 := Append(ch, b.data).(next := ch.next + 1);
      assert ch0.file == ch.sent[..|ch0.file|];
      if b.closeFile {
        // the last block: nothing can be pending behind it
        assert Drain(ch0) == ch0;
      } else {
        forall x | x in ch0.pending ensures FromSent(c, ch0, x) { assert x in ch.pending; }
        DrainInv(c, ch0);
      }
    }
  }
}
