/** Every step of every thread keeps the pipeline invariant. */
module PipelineSafety {
  import opened Base
  import opened LogRecord
  import opened Sums
  import opened PipelineModel
  import opened PipelineInvariant

  // ---- what a step leaves alone -------------------------------------------

  predicate SameView(a: Channel, b: Channel) {
    a.compress == b.compress && a.sent == b.sent && Ended(a) == Ended(b)
  }

  /** Blocks under way mean the same in both states. */
  predicate SameViews(s: State, s': State) {
    |s.chs| == |s'.chs| && forall c :: 0 <= c < |s.chs| ==> SameView(s.chs[c], s'.chs[c])
  }

  lemma FaithfulKept(s: State, s': State)
    requires SameViews(s, s')
    ensures forall b :: Faithful(s, b) <==> Faithful(s', b)
  {
    forall b ensures Faithful(s, b) <==> Faithful(s', b) {
      if b.ch < |s.chs| { assert SameView(s.chs[b.ch], s'.chs[b.ch]); }
    }
  }

  /** A step that changes one channel's logging side and moves no block on. */
  ghost predicate LocalStep(s: State, s': State, c: nat) {
    && c < |s.chs| && |s'.chs| == |s.chs|
    && s'.chs == s.chs[c := s'.chs[c]]
    && s'.compq == s.compq && s'.ioq == s.ioq && s'.dropped == s.dropped
    && (s'.io == s.io || (s.io.IoNotCreated? && s'.io.IoGuardCreated?))
    && Spawned(s.comps, s'.comps)
    && SameView(s.chs[c], s'.chs[c])
    && s'.chs[c].file == s.chs[c].file && s'.chs[c].pending == s.chs[c].pending
  }

  /** Threads may have been created, for the first time or in addition. */
  predicate Spawned(comps: seq<CompPc>, comps': seq<CompPc>) {
    || (comps <= comps' && forall t :: |comps| <= t < |comps'| ==> comps'[t].CompGuard?)
    || (&& (forall t :: 0 <= t < |comps| ==> comps[t].NotCreated?)
        && (forall t :: 0 <= t < |comps'| ==> comps'[t].CompGuard?))
  }

  /** New threads hold nothing. */
  lemma SpawnedTotal(w: CompPc -> nat, comps: seq<CompPc>, comps': seq<CompPc>)
    requires Spawned(comps, comps') && w(NotCreated) == 0 && w(CompGuard) == 0
    ensures Total(w, comps') == Total(w, comps)
  {
    if comps <= comps' && forall t :: |comps| <= t < |comps'| ==> comps'[t].CompGuard? {
      var created := comps'[|comps|..];
      assert comps' == comps + created;
      TotalConcat(w, comps, created);
      TotalZero(w, created);
    } else {
      TotalZero(w, comps);
      TotalZero(w, comps');
    }
  }

  lemma LocalBlocks(s: State, s': State, c: nat)
    requires BlockInv(s) && LocalStep(s, s', c)
    ensures BlockInv(s')
  {
    FaithfulKept(s, s');
    assert forall t :: 0 <= t < |s.comps| ==> CompInv(s, s.comps[t]);
    forall d, b | 0 <= d < |s'.chs| && b in s'.chs[d].pending ensures b.ch == d && Copied(s', b) {
      assert b in s.chs[d].pending;
      assert SameView(s.chs[b.ch], s'.chs[b.ch]);
    }
  }

  lemma LocalTokens(s: State, s': State, c: nat)
    requires TokenInv(s) && LocalStep(s, s', c)
    ensures TokenInv(s')
  {
    forall d: nat, i: int ensures Places(s', d, i) == if Unwritten(s', d, i) then 1 else 0 {
      SpawnedTotal(CompHolds(d, i), s.comps, s'.comps);
      TotalUpdate(InPending(d, i), s.chs, c, s'.chs[c]);
      assert Places(s', d, i) == Places(s, d, i);
      assert Unwritten(s', d, i) == Unwritten(s, d, i);
    }
  }

  /** What the slots gain or lose is what the channel's side gains or loses. */
  lemma LocalSlotSum(s: State, s': State, c: nat, d: nat, k: int)
    requires LocalStep(s, s', c)
    ensures SlotPlaces(s', d, k) + ChannelHoldsSlot(d, k)(s.chs[c])
         == SlotPlaces(s, d, k) + ChannelHoldsSlot(d, k)(s'.chs[c])
  {
    SpawnedTotal(CompHoldsSlot(d, k), s.comps, s'.comps);
    TotalUpdate(ChannelHoldsSlot(d, k), s.chs, c, s'.chs[c]);
  }

  /** A step that keeps the channel's own blocks on its side keeps the slots. */
  lemma LocalSlots(s: State, s': State, c: nat)
    requires SlotInv(s) && LocalStep(s, s', c)
    requires forall d: nat, k: int :: ChannelHoldsSlot(d, k)(s'.chs[c]) == ChannelHoldsSlot(d, k)(s.chs[c])
    requires HasBlocks(s, c) == HasBlocks(s', c)
    ensures SlotInv(s')
  {
    forall d: nat, k: int
      ensures SlotPlaces(s', d, k) == if HasBlocks(s', d) && 0 <= k < NUM_BUFFER_BLOCK then 1 else 0
    {
      LocalSlotSum(s, s', c, d, k);
      assert HasBlocks(s', d) == HasBlocks(s, d);
    }
  }

  /** The hand of a logging thread holds at most one block. */
  lemma HandSlot(ch: Channel)
    ensures forall d: nat, k: int ::
      Total(IsSlot(d, k), Hand(ch)) == if Hand(ch) == [] then 0 else Owns(d, k, Hand(ch)[0])
  {
    if Hand(ch) != [] {
      assert Hand(ch)[1..] == [];
    }
  }

  lemma LocalKeeps(s: State, s': State, c: nat)
    requires Inv(s) && LocalStep(s, s', c)
    requires ChannelInv(c, s'.chs[c]) && CreatedInv(s')
    requires SlotInv(s')
    ensures Inv(s')
  {
    LocalBlocks(s, s', c);
    LocalTokens(s, s', c);
    ChannelsUpdate(s, s', c);
    assert OrderInv(s');
  }

  lemma ChannelsUpdate(s: State, s': State, c: nat)
    requires ChannelsInv(s) && c < |s.chs| == |s'.chs| && s'.chs == s.chs[c := s'.chs[c]]
    requires ChannelInv(c, s'.chs[c])
    ensures ChannelsInv(s')
  {
    forall d | 0 <= d < |s'.chs| ensures ChannelInv(d, s'.chs[d]) {
      assert ChannelInv(d, s.chs[d]);
    }
  }

  // ---- steps of the logging thread ----------------------------------------

  lemma OpenKeeps(s: State, c: nat)
    requires Inv(s) && Enabled(s, StepOpen(c))
    ensures Inv(Next(s, StepOpen(c)))
  {
    var s' := Next(s, StepOpen(c));
    assert ChannelInv(c, s.chs[c]);
    LocalSlots(s, s', c);
    LocalKeeps(s, s', c);
  }

  lemma CountKeeps(s: State, c: nat)
    requires Inv(s) && Enabled(s, StepCount(c))
    ensures Inv(Next(s, StepCount(c)))
  {
    var s' := Next(s, StepCount(c));
    CountChannel(c, s.chs[c]);
    LocalSlots(s, s', c);
    LocalKeeps(s, s', c);
  }

  lemma CountChannel(c: nat, ch: Channel)
    requires ChannelInv(c, ch) && ch.phase.Opening?
    ensures ChannelInv(c, ch.(phase := Counted))
    ensures forall d: nat, k: int :: ChannelHoldsSlot(d, k)(ch.(phase := Counted)) == ChannelHoldsSlot(d, k)(ch)
  {
  }

  lemma {:induction false} FreshSlots(c: nat, q: seq<Block>, low: nat, d: nat, k: int)
    requires forall i :: 0 <= i < |q| ==> q[i] == OwnBlock(c, low + i)
    ensures Total(IsSlot(d, k), q) == if d == c && low <= k < low + |q| then 1 else 0
  {
    if q != [] {
      assert q[0] == OwnBlock(c, low);
      FreshSlots(c, q[1..], low + 1, d, k);
    }
  }

  lemma InitSlots(s: State, s': State, c: nat)
    requires LocalStep(s, s', c) && SlotInv(s)
    requires s.chs[c].phase.Counted? && s.chs[c].returned == [] && s'.chs[c] == Started(c, s.chs[c])
    ensures SlotInv(s')
  {
    var ch' := s'.chs[c];
    forall d: nat, k: int
      ensures SlotPlaces(s', d, k) == if HasBlocks(s', d) && 0 <= k < NUM_BUFFER_BLOCK then 1 else 0
    {
      FreshSlots(c, FreshBlocks(c), 1, d, k);
      HandSlot(ch');
      LocalSlotSum(s, s', c, d, k);
      assert d != c ==> HasBlocks(s', d) == HasBlocks(s, d);
    }
  }

  lemma InitChannel(c: nat, ch: Channel)
    requires ChannelInv(c, ch) && ch.phase.Counted?
    ensures ChannelInv(c, Started(c, ch))
  {
    assert ch.log == Flatten(ch.sent) + [];
  }

  lemma InitKeeps(s: State, c: nat)
    requires Inv(s) && Enabled(s, StepInit(c))
    ensures Inv(Next(s, StepInit(c)))
  {
    var s' := Next(s, StepInit(c));
    InitChannel(c, s.chs[c]);
    InitSlots(s, s', c);
    LocalKeeps(s, s', c);
  }

  lemma LogChannel(c: nat, ch: Channel, rec: LogData)
    requires ChannelInv(c, ch) && ch.phase.Filling?
    ensures ChannelInv(c, Logged(ch, rec))
    ensures forall d: nat, k: int :: ChannelHoldsSlot(d, k)(Logged(ch, rec)) == ChannelHoldsSlot(d, k)(ch)
  {
    assert ch.log + [rec] == Flatten(ch.sent) + (HandData(ch) + [rec]);
    HandSlot(ch);
    HandSlot(Logged(ch, rec));
  }

  lemma LogKeeps(s: State, c: nat, rec: LogData)
    requires Inv(s) && Enabled(s, StepLog(c, rec))
    ensures Inv(Next(s, StepLog(c, rec)))
  {
    var s' := Next(s, StepLog(c, rec));
    LogChannel(c, s.chs[c], rec);
    LocalSlots(s, s', c);
    LocalKeeps(s, s', c);
  }

  lemma DequeueChannel(c: nat, ch: Channel)
    requires ChannelInv(c, ch) && ch.phase.Waiting? && ch.returned != []
    ensures ChannelInv(c, Dequeued(ch))
    ensures forall d: nat, k: int :: ChannelHoldsSlot(d, k)(Dequeued(ch)) == ChannelHoldsSlot(d, k)(ch)
  {
    assert ch.returned[0] in ch.returned;
    assert forall x :: x in Dequeued(ch).returned ==> x in ch.returned;
    HandSlot(ch);
    HandSlot(Dequeued(ch));
  }

  lemma DequeueKeeps(s: State, c: nat)
    requires Inv(s) && Enabled(s, StepDequeue(c))
    ensures Inv(Next(s, StepDequeue(c)))
  {
    var s' := Next(s, StepDequeue(c));
    DequeueChannel(c, s.chs[c]);
    LocalSlots(s, s', c);
    LocalKeeps(s, s', c);
  }

  /** Phase changes that keep the block in hand, or have none. */
  lemma PhaseChannel(c: nat, ch: Channel, p: Phase)
    requires ChannelInv(c, ch)
    requires (ch.phase.Filling? && p == CloseEnqueue(ch.phase.block.(closeFile := true)))
      || (ch.phase.CloseDecComp? && p == CloseDecAll) || (ch.phase.CloseDecAll? && p == Closed)
    ensures ChannelInv(c, ch.(phase := p))
    ensures forall d: nat, k: int :: ChannelHoldsSlot(d, k)(ch.(phase := p)) == ChannelHoldsSlot(d, k)(ch)
  {
    HandSlot(ch);
    HandSlot(ch.(phase := p));
  }

  lemma SetPhaseKeeps(s: State, s': State, c: nat, p: Phase)
    requires Inv(s) && c < |s.chs|
    requires var ch := s.chs[c];
      (ch.phase.Filling? && p == CloseEnqueue(ch.phase.block.(closeFile := true)))
      || (ch.phase.CloseDecComp? && p == CloseDecAll) || (ch.phase.CloseDecAll? && p == Closed)
    requires s' == SetPhase(s, c, p).(numBufCh := s'.numBufCh, numBufCompCh := s'.numBufCompCh)
    ensures Inv(s')
  {
    PhaseChannel(c, s.chs[c], p);
    LocalSlots(s, s', c);
    LocalKeeps(s, s', c);
  }

  lemma PhaseKeeps(s: State, c: nat, a: Step)
    requires Inv(s) && Enabled(s, a) && (a == StepClose(c) || a == StepDecComp(c) || a == StepDecAll(c))
    ensures Inv(Next(s, a))
  {
    var p := match a case StepClose(_) => CloseEnqueue(s.chs[c].phase.block.(closeFile := true))
                     case StepDecComp(_) => CloseDecAll
                     case _ => Closed;
    SetPhaseKeeps(s, Next(s, a), c, p);
  }

  // ---- handing a block over -----------------------------------------------

  /** The channel after its block was handed over. */
  function HandedOver(ch: Channel, b: Block, p: Phase): Channel {
    ch.(phase := p, sent := ch.sent + [b.data])
  }

  lemma HandChannel(c: nat, ch: Channel, p: Phase)
    requires ChannelInv(c, ch)
    requires (ch.phase.Full? && p == Waiting) ||
      (ch.phase.CloseEnqueue? && p == if ch.compress then CloseDecComp else CloseDecAll)
    ensures ChannelInv(c, HandedOver(ch, ch.phase.block, p))
  {
    var ch' := HandedOver(ch, ch.phase.block, p);
    FlattenAppend(ch.sent, ch.phase.block.data);
    assert ch'.log == Flatten(ch'.sent) + [];
    assert ch'.sent[..|ch.file|] == ch.sent[..|ch.file|];
    assert FileInv(ch');
    assert HandInv(c, ch');
  }

  /** Blocks under way stay faithful when a further block is handed over. */
  lemma HandFaithful(s: State, c: nat, b: Block, p: Phase)
    requires c < |s.chs| && !Ended(s.chs[c])
    ensures forall x :: Faithful(s, x) ==>
      Faithful(Handed(s, c, b, p), x) && Handed(s, c, b, p).chs[x.ch].compress == s.chs[x.ch].compress
  {
  }

  lemma HandPending(s: State, c: nat, b: Block, p: Phase)
    requires c < |s.chs| && !Ended(s.chs[c])
    requires forall d, x :: 0 <= d < |s.chs| && x in s.chs[d].pending ==> x.ch == d && Copied(s, x)
    ensures var s' := Handed(s, c, b, p);
      forall d, x :: 0 <= d < |s'.chs| && x in s'.chs[d].pending ==> x.ch == d && Copied(s', x)
  {
    var s' := Handed(s, c, b, p);
    HandFaithful(s, c, b, p);
    forall d, x | 0 <= d < |s'.chs| && x in s'.chs[d].pending ensures x.ch == d && Copied(s', x) {
      assert x in s.chs[d].pending;
    }
  }

  /** The threads' hands, when a further block is handed over. */
  lemma HandHands(s: State, c: nat, b: Block, p: Phase)
    requires c < |s.chs| && !Ended(s.chs[c]) && BlockInv(s)
    ensures var s' := Handed(s, c, b, p);
      IoInv(s') && forall t :: 0 <= t < |s'.comps| ==> CompInv(s', s'.comps[t])
  {
    var s' := Handed(s, c, b, p);
    HandFaithful(s, c, b, p);
    assert s.io.IoSendBack? ==> s'.chs[s.io.block.ch].compress == s.chs[s.io.block.ch].compress;
    forall t | 0 <= t < |s'.comps| ensures CompInv(s', s'.comps[t]) { assert CompInv(s, s.comps[t]); }
  }

  lemma HandQueues(s: State, c: nat, b: Block, p: Phase)
    requires c < |s.chs| && !Ended(s.chs[c]) && BlockInv(s)
    requires b.ch == c && b.origin.Own? && Faithful(Handed(s, c, b, p), b)
    ensures var s' := Handed(s, c, b, p);
      && (forall x :: x in s'.compq ==> Original(s', x))
      && (forall x :: x in s'.ioq ==> ForIo(s', x))
      && (forall x :: x in s'.dropped ==> Copied(s', x))
  {
    HandFaithful(s, c, b, p);
  }

  lemma HandBlocks(s: State, c: nat, b: Block, p: Phase)
    requires c < |s.chs| && BlockInv(s) && HandInv(c, s.chs[c]) && Hand(s.chs[c]) == [b]
    requires p == Waiting || Ended(s.chs[c].(phase := p))
    requires b.closeFile <==> p != Waiting
    ensures BlockInv(Handed(s, c, b, p))
  {
    assert Faithful(Handed(s, c, b, p), b);
    HandPending(s, c, b, p);
    HandHands(s, c, b, p);
    HandQueues(s, c, b, p);
  }

  lemma HandTokens(s: State, c: nat, b: Block, p: Phase)
    requires c < |s.chs| && TokenInv(s) && HandInv(c, s.chs[c]) && FileInv(s.chs[c]) && Hand(s.chs[c]) == [b]
    ensures TokenInv(Handed(s, c, b, p))
  {
    var s' := Handed(s, c, b, p);
    forall d: nat, i: int ensures Places(s', d, i) == if Unwritten(s', d, i) then 1 else 0 {
      TotalUpdate(InPending(d, i), s.chs, c, s'.chs[c]);
      TotalAppend(IsBlock(d, i), s.compq, b);
      TotalAppend(IsBlock(d, i), s.ioq, b);
      assert Places(s', d, i) == Places(s, d, i) + Is(d, i, b);
      assert Unwritten(s', d, i) <==> Unwritten(s, d, i) || (d == c && i == |s.chs[c].sent|);
    }
  }

  lemma HandSlotsAt(s: State, c: nat, b: Block, p: Phase, d: nat, k: int)
    requires c < |s.chs| && Hand(s.chs[c]) == [b] && Hand(s.chs[c].(phase := p)) == []
    ensures SlotPlaces(Handed(s, c, b, p), d, k) == SlotPlaces(s, d, k)
  {
    var s' := Handed(s, c, b, p);
    HandSlot(s.chs[c]);
    HandSlot(s'.chs[c]);
    TotalUpdate(ChannelHoldsSlot(d, k), s.chs, c, s'.chs[c]);
    TotalAppend(IsSlot(d, k), s.compq, b);
    TotalAppend(IsSlot(d, k), s.ioq, b);
  }

  lemma HandSlots(s: State, c: nat, b: Block, p: Phase)
    requires c < |s.chs| && SlotInv(s) && Hand(s.chs[c]) == [b]
    requires p == Waiting || Ended(s.chs[c].(phase := p))
    ensures SlotInv(Handed(s, c, b, p))
  {
    var s' := Handed(s, c, b, p);
    forall d: nat, k: int
      ensures SlotPlaces(s', d, k) == if HasBlocks(s', d) && 0 <= k < NUM_BUFFER_BLOCK then 1 else 0
    {
      HandSlotsAt(s, c, b, p, d, k);
      assert HasBlocks(s', d) == HasBlocks(s, d);
    }
  }

  lemma HandOrder(s: State, c: nat, b: Block, p: Phase)
    requires c < |s.chs| && OrderInv(s) && BlockInv(s) && HandInv(c, s.chs[c]) && Hand(s.chs[c]) == [b]
    ensures OrderInv(Handed(s, c, b, p))
  {
    forall j | 0 <= j < |s.ioq| && s.ioq[j].ch == c ensures s.ioq[j].id < b.id {
      assert s.ioq[j] in s.ioq;
    }
  }

  lemma HandedKeeps(s: State, c: nat, p: Phase)
    requires Inv(s) && c < |s.chs|
    requires var ch := s.chs[c];
      (ch.phase.Full? && p == Waiting) ||
      (ch.phase.CloseEnqueue? && p == if ch.compress then CloseDecComp else CloseDecAll)
    ensures Inv(Handed(s, c, s.chs[c].phase.block, p))
  {
    var b := s.chs[c].phase.block;
    assert ChannelInv(c, s.chs[c]);
    assert Hand(s.chs[c]) == [b];
    HandChannel(c, s.chs[c], p);
    var s' := Handed(s, c, b, p);
    assert s'.chs == s.chs[c := HandedOver(s.chs[c], b, p)] && CreatedInv(s');
    ChannelsUpdate(s, s', c);
    HandBlocks(s, c, b, p);
    HandTokens(s, c, b, p);
    HandSlots(s, c, b, p);
    HandOrder(s, c, b, p);
  }

  lemma HandKeeps(s: State, c: nat, a: Step)
    requires Inv(s) && Enabled(s, a) && (a == StepEnqueue(c) || a == StepCloseEnqueue(c))
    ensures Inv(Next(s, a))
  {
    HandedKeeps(s, c, if a.StepEnqueue? then Waiting else if s.chs[c].compress then CloseDecComp else CloseDecAll);
  }

  // ---- steps that move no block -------------------------------------------

  predicate Idle(pc: CompPc) { !pc.CompHold? && !pc.CompSend? }

  predicate IoIdle(pc: IoPc) { !pc.IoWrite? && !pc.IoSendBack? }

  /** Program counters move, blocks do not. */
  ghost predicate IdleStep(s: State, s': State) {
    && s'.chs == s.chs && s'.compq == s.compq && s'.ioq == s.ioq && s'.dropped == s.dropped
    && (s'.io == s.io || (IoIdle(s.io) && IoIdle(s'.io)))
    && |s'.comps| == |s.comps|
    && (s'.comps == s.comps || exists t ::
          0 <= t < |s.comps| && s'.comps == s.comps[t := s'.comps[t]] && Idle(s.comps[t]) && Idle(s'.comps[t]))
  }

  lemma IdleTotals(s: State, s': State, c: nat, i: int)
    requires IdleStep(s, s')
    ensures Total(CompHolds(c, i), s'.comps) == Total(CompHolds(c, i), s.comps)
    ensures Total(CompHoldsSlot(c, i), s'.comps) == Total(CompHoldsSlot(c, i), s.comps)
  {
    if s'.comps != s.comps {
      var t :| 0 <= t < |s.comps| && s'.comps == s.comps[t := s'.comps[t]] && Idle(s.comps[t]) && Idle(s'.comps[t]);
      TotalUpdate(CompHolds(c, i), s.comps, t, s'.comps[t]);
      TotalUpdate(CompHoldsSlot(c, i), s.comps, t, s'.comps[t]);
    }
  }

  lemma IdleBlocks(s: State, s': State)
    requires BlockInv(s) && OrderInv(s) && IdleStep(s, s')
    ensures BlockInv(s') && OrderInv(s')
  {
    FaithfulKept(s, s');
    assert forall t :: 0 <= t < |s.comps| ==> CompInv(s, s.comps[t]);
  }

  lemma IdleTokens(s: State, s': State)
    requires TokenInv(s) && IdleStep(s, s')
    ensures TokenInv(s')
  {
    forall d: nat, i: int ensures Places(s', d, i) == if Unwritten(s', d, i) then 1 else 0 {
      IdleTotals(s, s', d, i);
      assert Places(s', d, i) == Places(s, d, i);
    }
  }

  lemma IdleSlots(s: State, s': State)
    requires SlotInv(s) && IdleStep(s, s')
    ensures SlotInv(s')
  {
    forall d: nat, k: int
      ensures SlotPlaces(s', d, k) == if HasBlocks(s', d) && 0 <= k < NUM_BUFFER_BLOCK then 1 else 0
    {
      IdleTotals(s, s', d, k);
      assert SlotPlaces(s', d, k) == SlotPlaces(s, d, k);
    }
  }

  lemma IdleKeeps(s: State, s': State)
    requires Inv(s) && IdleStep(s, s') && CreatedInv(s')
    ensures Inv(s')
  {
    IdleBlocks(s, s');
    IdleTokens(s, s');
    IdleSlots(s, s');
  }

  // ---- the compression threads --------------------------------------------

  lemma CompPopKeeps(s: State, t: nat)
    requires Inv(s) && CompEnabled(s, t) && s.comps[t].CompPop? && s.compq != []
    ensures Inv(CompStep(s, t))
  {
    var s' := CompStep(s, t);
    var b := s.compq[0];
    CompPopBlocks(s, t);
    assert s'.comps == s.comps[t := CompHold(b, s.comps[t].drain)];
    forall d: nat, i: int ensures Places(s', d, i) == if Unwritten(s', d, i) then 1 else 0 {
      TotalUpdate(CompHolds(d, i), s.comps, t, s'.comps[t]);
      assert Places(s', d, i) == Places(s, d, i);
    }
    CompPopSlots(s, t);
  }

  lemma CompPopBlocks(s: State, t: nat)
    requires BlockInv(s) && CompEnabled(s, t) && s.comps[t].CompPop? && s.compq != []
    ensures BlockInv(CompStep(s, t))
  {
    var s' := CompStep(s, t);
    FaithfulKept(s, s');
    forall x | x in s'.compq ensures Original(s', x) { assert x in s.compq; }
    assert s.compq[0] in s.compq;
    assert forall u :: 0 <= u < |s.comps| ==> CompInv(s, s.comps[u]);
  }

  lemma CompPopSlots(s: State, t: nat)
    requires SlotInv(s) && CompEnabled(s, t) && s.comps[t].CompPop? && s.compq != []
    ensures SlotInv(CompStep(s, t))
  {
    var s' := CompStep(s, t);
    forall d: nat, k: int
      ensures SlotPlaces(s', d, k) == if HasBlocks(s', d) && 0 <= k < NUM_BUFFER_BLOCK then 1 else 0
    {
      TotalUpdate(CompHoldsSlot(d, k), s.comps, t, s'.comps[t]);
      assert SlotPlaces(s', d, k) == SlotPlaces(s, d, k);
    }
  }

  lemma SentBackChannel(c: nat, ch: Channel, b: Block)
    requires ChannelInv(c, ch) && b.ch == c && b.origin.Own? && (b.closeFile ==> Ended(ch)) && !NotStarted(ch)
    ensures ChannelInv(c, SentBack(ch, b))
    ensures forall d: nat, k: int ::
      ChannelHoldsSlot(d, k)(SentBack(ch, b)) == ChannelHoldsSlot(d, k)(ch) + Owns(d, k, b)
  {
    var b' := b.(data := []);
    forall d: nat, k: int
      ensures ChannelHoldsSlot(d, k)(SentBack(ch, b)) == ChannelHoldsSlot(d, k)(ch) + Owns(d, k, b)
    {
      TotalAppend(IsSlot(d, k), ch.returned, b');
    }
  }

  /** Sending a block back changes nothing for the blocks under way. */
  lemma SentBackViews(s: State, s': State, b: Block)
    requires b.ch < |s.chs| && s'.chs == s.chs[b.ch := SentBack(s.chs[b.ch], b)]
    ensures SameViews(s, s')
    ensures forall d, x :: 0 <= d < |s'.chs| && x in s'.chs[d].pending ==> x in s.chs[d].pending
    ensures forall c: nat, i: int :: Total(InPending(c, i), s'.chs) == Total(InPending(c, i), s.chs)
    ensures forall c: nat, i: int :: Unwritten(s', c, i) == Unwritten(s, c, i) && HasBlocks(s', c) == HasBlocks(s, c)
  {
    forall c: nat, i: int ensures Total(InPending(c, i), s'.chs) == Total(InPending(c, i), s.chs) {
      TotalUpdate(InPending(c, i), s.chs, b.ch, s'.chs[b.ch]);
    }
  }

  lemma CompHoldKeeps(s: State, t: nat)
    requires Inv(s) && CompEnabled(s, t) && s.comps[t].CompHold?
    ensures Inv(CompStep(s, t))
  {
    var s' := CompStep(s, t);
    var b := s.comps[t].block;
    assert CompInv(s, s.comps[t]);
    assert ChannelInv(b.ch, s.chs[b.ch]);
    SentBackChannel(b.ch, s.chs[b.ch], b);
    SentBackViews(s, s', b);
    ChannelsUpdate(s, s', b.ch);
    CompHoldBlocks(s, t);
    forall d: nat, i: int ensures Places(s', d, i) == if Unwritten(s', d, i) then 1 else 0 {
      TotalUpdate(CompHolds(d, i), s.comps, t, s'.comps[t]);
      assert Places(s', d, i) == Places(s, d, i);
    }
    CompHoldSlots(s, t);
  }

  /** Blocks under way stay faithful when only the channels' other sides change. */
  lemma ViewsKeepBlocks(s: State, s': State)
    requires BlockInv(s) && SameViews(s, s') && s' == s.(chs := s'.chs)
    requires forall d, x :: 0 <= d < |s'.chs| && x in s'.chs[d].pending ==> x in s.chs[d].pending
    ensures BlockInv(s')
  {
    FaithfulKept(s, s');
    assert forall u :: 0 <= u < |s.comps| ==> CompInv(s, s.comps[u]);
    forall d, x | 0 <= d < |s'.chs| && x in s'.chs[d].pending ensures x.ch == d && Copied(s', x) {
      assert x in s.chs[d].pending;
    }
  }

  lemma CompHoldBlocks(s: State, t: nat)
    requires BlockInv(s) && CompEnabled(s, t) && s.comps[t].CompHold?
    ensures BlockInv(CompStep(s, t))
  {
    var s' := CompStep(s, t);
    var b := s.comps[t].block;
    var s1 := s.(chs := s'.chs);
    SentBackViews(s, s1, b);
    ViewsKeepBlocks(s, s1);
    assert CompInv(s, s.comps[t]);
    assert Copied(s1, b.(origin := Fresh));
    CompPcBlocks(s1, s', t);
  }

  /** A compression thread may move to any faithful block it holds. */
  lemma CompPcBlocks(s: State, s': State, t: nat)
    requires BlockInv(s) && t < |s.comps| == |s'.comps| && s' == s.(comps := s.comps[t := s'.comps[t]])
    requires CompInv(s, s'.comps[t])
    ensures BlockInv(s')
  {
    FaithfulKept(s, s');
    assert forall u :: 0 <= u < |s.comps| ==> CompInv(s, s.comps[u]);
  }

  lemma CompHoldSlots(s: State, t: nat)
    requires SlotInv(s) && CompEnabled(s, t) && s.comps[t].CompHold?
    requires var b := s.comps[t].block; forall d: nat, k: int ::
      ChannelHoldsSlot(d, k)(SentBack(s.chs[b.ch], b)) == ChannelHoldsSlot(d, k)(s.chs[b.ch]) + Owns(d, k, b)
    ensures SlotInv(CompStep(s, t))
  {
    var s' := CompStep(s, t);
    var b := s.comps[t].block;
    SentBackViews(s, s', b);
    forall d: nat, k: int
      ensures SlotPlaces(s', d, k) == if HasBlocks(s', d) && 0 <= k < NUM_BUFFER_BLOCK then 1 else 0
    {
      TotalUpdate(CompHoldsSlot(d, k), s.comps, t, s'.comps[t]);
      TotalUpdate(ChannelHoldsSlot(d, k), s.chs, b.ch, s'.chs[b.ch]);
      assert SlotPlaces(s', d, k) == SlotPlaces(s, d, k);
      assert HasBlocks(s', d) == HasBlocks(s, d);
    }
  }

  lemma CompSendBlocks(s: State, t: nat)
    requires BlockInv(s) && CompEnabled(s, t) && s.comps[t].CompSend?
    ensures BlockInv(CompStep(s, t))
  {
    var s' := CompStep(s, t);
    assert CompInv(s, s.comps[t]);
    var s1 := s.(comps := s'.comps);
    CompPcBlocks(s, s1, t);
    PushBlocks(s1, s', s.comps[t].copy);
  }

  lemma PushBlocks(s: State, s': State, b: Block)
    requires BlockInv(s) && Copied(s, b)
    requires s' == s.(ioq := s.ioq + [b]) || s' == s.(dropped := s.dropped + [b])
    ensures BlockInv(s')
  {
    FaithfulKept(s, s');
    assert forall u :: 0 <= u < |s.comps| ==> CompInv(s, s.comps[u]);
  }

  /** A copy may go behind the blocks of the io queue. */
  lemma CopyOrder(s: State, s': State, b: Block)
    requires OrderInv(s) && s'.io == s.io && (s'.ioq == s.ioq || s'.ioq == s.ioq + [b])
    requires b.origin.Fresh? && forall j :: 0 <= j < |s.ioq| && s.ioq[j].ch == b.ch ==> s.ioq[j].origin.Fresh?
    requires s.io.IoWrite? && s.io.block.ch == b.ch ==> s.io.block.origin.Fresh?
    ensures OrderInv(s')
  {
  }

  lemma CompSendOrder(s: State, t: nat)
    requires BlockInv(s) && OrderInv(s) && CompEnabled(s, t) && s.comps[t].CompSend?
    ensures OrderInv(CompStep(s, t))
  {
    var b := s.comps[t].copy;
    assert CompInv(s, s.comps[t]);
    assert s.io.IoWrite? ==> ForIo(s, s.io.block);
    forall j | 0 <= j < |s.ioq| && s.ioq[j].ch == b.ch ensures s.ioq[j].origin.Fresh? {
      assert s.ioq[j] in s.ioq;
    }
    CopyOrder(s, CompStep(s, t), b);
  }

  lemma CompSendTokens(s: State, t: nat)
    requires TokenInv(s) && CompEnabled(s, t) && s.comps[t].CompSend?
    ensures TokenInv(CompStep(s, t))
  {
    var s' := CompStep(s, t);
    var b := s.comps[t].copy;
    forall d: nat, i: int ensures Places(s', d, i) == if Unwritten(s', d, i) then 1 else 0 {
      TotalUpdate(CompHolds(d, i), s.comps, t, s'.comps[t]);
      TotalAppend(IsBlock(d, i), s.ioq, b);
      TotalAppend(IsBlock(d, i), s.dropped, b);
      assert Places(s', d, i) == Places(s, d, i);
    }
  }

  lemma CompSendSlots(s: State, t: nat)
    requires SlotInv(s) && CompEnabled(s, t) && s.comps[t].CompSend? && s.comps[t].copy.origin.Fresh?
    ensures SlotInv(CompStep(s, t))
  {
    var s' := CompStep(s, t);
    forall d: nat, k: int
      ensures SlotPlaces(s', d, k) == if HasBlocks(s', d) && 0 <= k < NUM_BUFFER_BLOCK then 1 else 0
    {
      TotalUpdate(CompHoldsSlot(d, k), s.comps, t, s'.comps[t]);
      TotalAppend(IsSlot(d, k), s.ioq, s.comps[t].copy);
      assert SlotPlaces(s', d, k) == SlotPlaces(s, d, k);
    }
  }

  lemma CompSendKeeps(s: State, t: nat)
    requires Inv(s) && CompEnabled(s, t) && s.comps[t].CompSend?
    ensures Inv(CompStep(s, t))
  {
    assert CompInv(s, s.comps[t]);
    CompSendBlocks(s, t);
    CompSendOrder(s, t);
    CompSendTokens(s, t);
    CompSendSlots(s, t);
  }

  /** Reading the open count, finding the queue empty, signalling the end. */
  lemma CompIdleKeeps(s: State, t: nat)
    requires Inv(s) && CompEnabled(s, t) && (s.comps[t].CompGuard? || s.comps[t].CompSignal?
      || (s.comps[t].CompPop? && s.compq == []))
    ensures Inv(CompStep(s, t))
  {
    var s' := CompStep(s, t);
    assert s'.comps == s.comps[t := s'.comps[t]];
    IdleKeeps(s, s');
  }

  lemma CompKeeps(s: State, t: nat)
    requires Inv(s) && CompEnabled(s, t)
    ensures Inv(CompStep(s, t))
  {
    match s.comps[t] {
      case CompPop(_) => if s.compq != [] { CompPopKeeps(s, t); } else { CompIdleKeeps(s, t); }
      case CompHold(_, _) => CompHoldKeeps(s, t);
      case CompSend(_, _) => CompSendKeeps(s, t);
      case CompGuard => CompIdleKeeps(s, t);
      case CompSignal => CompIdleKeeps(s, t);
    }
  }

  // ---- the IO thread ------------------------------------------------------

  lemma IoPopKeeps(s: State)
    requires Inv(s) && s.io.IoPop? && s.ioq != []
    ensures Inv(IoStep(s))
  {
    var s' := IoStep(s);
    IoPopBlocks(s);
    forall d: nat, i: int ensures Places(s', d, i) == if Unwritten(s', d, i) then 1 else 0 {
      assert Places(s', d, i) == Places(s, d, i);
    }
    IoPopSlots(s);
  }

  lemma IoPopBlocks(s: State)
    requires BlockInv(s) && OrderInv(s) && s.io.IoPop? && s.ioq != []
    ensures BlockInv(IoStep(s)) && OrderInv(IoStep(s))
  {
    var s' := IoStep(s);
    FaithfulKept(s, s');
    assert s.ioq[0] in s.ioq;
    forall x | x in s'.ioq ensures ForIo(s', x) { assert x in s.ioq; }
    assert forall u :: 0 <= u < |s.comps| ==> CompInv(s, s.comps[u]);
  }

  lemma IoPopSlots(s: State)
    requires SlotInv(s) && s.io.IoPop? && s.ioq != []
    ensures SlotInv(IoStep(s))
  {
    var s' := IoStep(s);
    forall d: nat, k: int
      ensures SlotPlaces(s', d, k) == if HasBlocks(s', d) && 0 <= k < NUM_BUFFER_BLOCK then 1 else 0
    {
      assert SlotPlaces(s', d, k) == SlotPlaces(s, d, k);
    }
  }

  /** The block in the IO thread's hand is not pending, and not yet written. */
  lemma HeldOnce(s: State)
    requires TokenInv(s) && BlockInv(s) && s.io.IoWrite?
    ensures var b := s.io.block; var ch := s.chs[b.ch];
      |ch.file| <= b.id < |ch.sent| && forall x :: x in ch.pending ==> x.id != b.id
  {
    var b := s.io.block;
    var ch := s.chs[b.ch];
    assert Places(s, b.ch, b.id) >= 1 + Total(InPending(b.ch, b.id), s.chs);
    assert Unwritten(s, b.ch, b.id);
    TotalContains(InPending(b.ch, b.id), s.chs, b.ch);
    forall x | x in ch.pending ensures x.id != b.id {
      assert x.ch == b.ch;
      var j :| 0 <= j < |ch.pending| && ch.pending[j] == x;
      TotalContains(IsBlock(b.ch, b.id), ch.pending, j);
    }
  }

  /** An uncompressed block in the IO thread's hand is the next one in order. */
  lemma HeldIsNext(s: State)
    requires TokenInv(s) && BlockInv(s) && OrderInv(s) && s.io.IoWrite? && !s.chs[s.io.block.ch].compress
    ensures s.io.block.id == |s.chs[s.io.block.ch].file|
  {
    HeldOnce(s);
    var b := s.io.block;
    var n := |s.chs[b.ch].file|;
    if b.id > n {
      assert Unwritten(s, b.ch, n);
      assert Places(s, b.ch, n) == 1;
      NotCompressedPlaces(s, b.ch, n);
      var j := TotalWitness(IsBlock(b.ch, n), s.ioq);
      assert false;
    }
  }

  /** Uncompressed blocks never visit the compression side. */
  lemma NotCompressedPlaces(s: State, c: nat, i: int)
    requires BlockInv(s) && c < |s.chs| && !s.chs[c].compress
    ensures Places(s, c, i) == Total(IsBlock(c, i), s.ioq) + IoHolds(c, i, s.io)
  {
    forall j | 0 <= j < |s.compq| ensures Is(c, i, s.compq[j]) == 0 { assert s.compq[j] in s.compq; }
    TotalZero(IsBlock(c, i), s.compq);
    forall t | 0 <= t < |s.comps| ensures CompHolds(c, i)(s.comps[t]) == 0 { assert CompInv(s, s.comps[t]); }
    TotalZero(CompHolds(c, i), s.comps);
    forall d | 0 <= d < |s.chs| ensures InPending(c, i)(s.chs[d]) == 0 {
      forall j | 0 <= j < |s.chs[d].pending| ensures Is(c, i, s.chs[d].pending[j]) == 0 {
        assert s.chs[d].pending[j] in s.chs[d].pending;
      }
      TotalZero(IsBlock(c, i), s.chs[d].pending);
    }
    TotalZero(InPending(c, i), s.chs);
    forall j | 0 <= j < |s.dropped| ensures Is(c, i, s.dropped[j]) == 0 { assert s.dropped[j] in s.dropped; }
    TotalZero(IsBlock(c, i), s.dropped);
  }

  /** The channel after the IO thread has dealt with the block in its hand. */
  function Written(s: State): Channel
    requires s.io.IoWrite? && s.io.block.ch < |s.chs|
  {
    var b := s.io.block;
    var ch := s.chs[b.ch];
    if ch.compress then WriteCompressed(ch, b) else WriteUncompressed(ch, b)
  }

  lemma WriteChannel(s: State)
    requires TokenInv(s) && BlockInv(s) && OrderInv(s) && s.io.IoWrite?
    requires ChannelInv(s.io.block.ch, s.chs[s.io.block.ch])
    ensures var c := s.io.block.ch; var ch := s.chs[c];
      && ChannelInv(c, Written(s)) && SameButFile(ch, Written(s))
      && Wrote(c, ch, Written(s), [s.io.block])
      && (forall x :: x in Written(s).pending ==> x in ch.pending || (ch.compress && x == s.io.block))
  {
    var b := s.io.block;
    var ch := s.chs[b.ch];
    HeldOnce(s);
    if ch.compress {
      forall x | x in ch.pending ensures FromSent(b.ch, ch, x) { assert Copied(s, x); }
      WriteCompressedInv(b.ch, ch, b);
    } else {
      HeldIsNext(s);
      assert Written(s).file == ch.sent[..|ch.file| + 1];
    }
  }

  lemma IoWriteTokens(s: State, s': State)
    requires TokenInv(s) && s.io.IoWrite? && s.io.block.ch < |s.chs|
    requires s' == s.(chs := s.chs[s.io.block.ch := Written(s)], io := s'.io) && !s'.io.IoWrite?
    requires SameButFile(s.chs[s.io.block.ch], Written(s))
    requires Wrote(s.io.block.ch, s.chs[s.io.block.ch], Written(s), [s.io.block])
    ensures TokenInv(s')
  {
    var b := s.io.block;
    var ch, ch' := s.chs[b.ch], Written(s);
    forall d: nat, i: int ensures Places(s', d, i) == if Unwritten(s', d, i) then 1 else 0 {
      TotalUpdate(InPending(d, i), s.chs, b.ch, ch');
      assert [b][1..] == [];
      assert Total(IsBlock(d, i), [b]) == Is(d, i, b);
      var w := if d == b.ch && |ch.file| <= i < |ch'.file| then 1 else 0;
      assert Total(IsBlock(d, i), ch.pending) + Is(d, i, b) == Total(IsBlock(d, i), ch'.pending) + w;
      assert Places(s, d, i) == Places(s', d, i) + w;
      assert Places(s, d, i) == if Unwritten(s, d, i) then 1 else 0;
    }
  }

  lemma IoWriteSlots(s: State, s': State)
    requires SlotInv(s) && BlockInv(s) && s.io.IoWrite?
    requires s' == s.(chs := s.chs[s.io.block.ch := Written(s)], io := s'.io)
    requires SameButFile(s.chs[s.io.block.ch], Written(s))
    requires s'.io == if s.chs[s.io.block.ch].compress then LoopHead(s.io.drain) else IoSendBack(s.io.block, s.io.drain)
    ensures SlotInv(s')
  {
    forall d: nat, k: int
      ensures SlotPlaces(s', d, k) == if HasBlocks(s', d) && 0 <= k < NUM_BUFFER_BLOCK then 1 else 0
    {
      TotalUpdate(ChannelHoldsSlot(d, k), s.chs, s.io.block.ch, Written(s));
      assert SlotPlaces(s', d, k) == SlotPlaces(s, d, k);
      assert HasBlocks(s', d) == HasBlocks(s, d);
    }
  }

  lemma IoWriteBlocks(s: State, s': State)
    requires BlockInv(s) && s.io.IoWrite?
    requires s' == s.(chs := s.chs[s.io.block.ch := Written(s)], io := s'.io)
    requires SameButFile(s.chs[s.io.block.ch], Written(s))
    requires forall x :: x in Written(s).pending ==>
      x in s.chs[s.io.block.ch].pending || (s.chs[s.io.block.ch].compress && x == s.io.block)
    requires s'.io == if s.chs[s.io.block.ch].compress then LoopHead(s.io.drain) else IoSendBack(s.io.block, s.io.drain)
    ensures BlockInv(s')
  {
    FaithfulKept(s, s');
    var c := s.io.block.ch;
    forall u | 0 <= u < |s'.comps| ensures CompInv(s', s'.comps[u]) { assert CompInv(s, s.comps[u]); }
    forall d, x | 0 <= d < |s'.chs| && x in s'.chs[d].pending ensures x.ch == d && Copied(s', x) {
      assert x in s.chs[d].pending || (d == c && x == s.io.block);
    }
  }

  lemma IoWriteFrame(s: State)
    requires CreatedInv(s) && OrderInv(s) && s.io.IoWrite? && s.io.block.ch < |s.chs|
    ensures var s' := IoStep(s);
      && s' == s.(chs := s.chs[s.io.block.ch := Written(s)], io := s'.io)
      && OrderInv(s') && CreatedInv(s')
  {
  }

  lemma IoWriteKeeps(s: State)
    requires Inv(s) && s.io.IoWrite?
    ensures Inv(IoStep(s))
  {
    var s' := IoStep(s);
    WriteChannel(s);
    IoWriteFrame(s);
    ChannelsUpdate(s, s', s.io.block.ch);
    IoWriteTokens(s, s');
    IoWriteSlots(s, s');
    IoWriteBlocks(s, s');
  }

  lemma IoSendBackKeeps(s: State)
    requires Inv(s) && IoEnabled(s) && s.io.IoSendBack?
    ensures Inv(IoStep(s))
  {
    var s' := IoStep(s);
    var b := s.io.block;
    assert ChannelInv(b.ch, s.chs[b.ch]);
    IoHeldStarted(s);
    SentBackChannel(b.ch, s.chs[b.ch], b);
    SentBackViews(s, s', b);
    ChannelsUpdate(s, s', b.ch);
    IoSendBackBlocks(s);
    IoSendBackTokens(s);
    IoSendBackSlots(s);
  }

  lemma IoSendBackBlocks(s: State)
    requires BlockInv(s) && OrderInv(s) && IoEnabled(s) && s.io.IoSendBack?
    ensures BlockInv(IoStep(s)) && OrderInv(IoStep(s))
  {
    var s' := IoStep(s);
    var s1 := s.(chs := s'.chs);
    SentBackViews(s, s1, s.io.block);
    ViewsKeepBlocks(s, s1);
    IdleIoBlocks(s1, s');
  }

  lemma IdleIoBlocks(s: State, s': State)
    requires BlockInv(s) && s' == s.(io := s'.io) && IoIdle(s'.io)
    ensures BlockInv(s')
  {
    FaithfulKept(s, s');
    assert forall u :: 0 <= u < |s.comps| ==> CompInv(s, s.comps[u]);
  }

  lemma IoSendBackTokens(s: State)
    requires TokenInv(s) && IoEnabled(s) && s.io.IoSendBack?
    ensures TokenInv(IoStep(s))
  {
    var s' := IoStep(s);
    SentBackViews(s, s', s.io.block);
    forall d: nat, i: int ensures Places(s', d, i) == if Unwritten(s', d, i) then 1 else 0 {
      assert Places(s', d, i) == Places(s, d, i);
    }
  }

  /** A block in the IO thread's hand belongs to a channel that has its blocks. */
  lemma IoHeldStarted(s: State)
    requires SlotInv(s) && BlockInv(s) && s.io.IoSendBack?
    ensures !NotStarted(s.chs[s.io.block.ch])
  {
    var b := s.io.block;
    assert SlotPlaces(s, b.ch, b.origin.slot) >= 1;
    assert HasBlocks(s, b.ch);
  }

  lemma IoSendBackSlots(s: State)
    requires SlotInv(s) && IoEnabled(s) && s.io.IoSendBack?
    requires var b := s.io.block; forall d: nat, k: int ::
      ChannelHoldsSlot(d, k)(SentBack(s.chs[b.ch], b)) == ChannelHoldsSlot(d, k)(s.chs[b.ch]) + Owns(d, k, b)
    ensures SlotInv(IoStep(s))
  {
    var s' := IoStep(s);
    var b := s.io.block;
    forall d: nat, k: int
      ensures SlotPlaces(s', d, k) == if HasBlocks(s', d) && 0 <= k < NUM_BUFFER_BLOCK then 1 else 0
    {
      TotalUpdate(ChannelHoldsSlot(d, k), s.chs, b.ch, s'.chs[b.ch]);
      assert SlotPlaces(s', d, k) == SlotPlaces(s, d, k);
      assert HasBlocks(s', d) == HasBlocks(s, d);
    }
  }

  lemma IoKeeps(s: State)
    requires Inv(s) && IoEnabled(s)
    ensures Inv(IoStep(s))
  {
    if s.io.IoWrite? {
      IoWriteKeeps(s);
    } else if s.io.IoSendBack? {
      IoSendBackKeeps(s);
    } else if s.io.IoPop? && s.ioq != [] {
      IoPopKeeps(s);
    } else {
      IdleKeeps(s, IoStep(s));
    }
  }

  // ---- every run ----------------------------------------------------------

  lemma InitInv(kinds: seq<bool>, threads: nat)
    ensures Inv(Init(kinds, threads))
  {
    var s := Init(kinds, threads);
    forall d: nat, i: int ensures Places(s, d, i) == 0 && SlotPlaces(s, d, i) == 0 {
      InitPlaces(kinds, threads, d, i);
    }
    assert ChannelsInv(s);
  }

  lemma InitPlaces(kinds: seq<bool>, threads: nat, d: nat, i: int)
    ensures Places(Init(kinds, threads), d, i) == 0 && SlotPlaces(Init(kinds, threads), d, i) == 0
  {
    var s := Init(kinds, threads);
    TotalZero(CompHolds(d, i), s.comps);
    TotalZero(CompHoldsSlot(d, i), s.comps);
    TotalZero(InPending(d, i), s.chs);
    TotalZero(ChannelHoldsSlot(d, i), s.chs);
  }

  lemma StepKeeps(s: State, a: Step)
    requires Inv(s) && Enabled(s, a)
    ensures Inv(Next(s, a))
  {
    match a {
      case StepOpen(c) => OpenKeeps(s, c);
      case StepCount(c) => CountKeeps(s, c);
      case StepInit(c) => InitKeeps(s, c);
      case StepLog(c, rec) => LogKeeps(s, c, rec);
      case StepEnqueue(c) => HandKeeps(s, c, a);
      case StepDequeue(c) => DequeueKeeps(s, c);
      case StepClose(c) => PhaseKeeps(s, c, a);
      case StepCloseEnqueue(c) => HandKeeps(s, c, a);
      case StepDecComp(c) => PhaseKeeps(s, c, a);
      case StepDecAll(c) => PhaseKeeps(s, c, a);
      case StepComp(t) => CompKeeps(s, t);
      case StepIo => IoKeeps(s);
    }
  }

  lemma {:induction false} RunKeeps(s: State, run: seq<Step>)
    requires Inv(s) && Legal(s, run)
    ensures Inv(Exec(s, run))
    decreases |run|
  {
    if run != [] {
      StepKeeps(s, run[0]);
      RunKeeps(Next(s, run[0]), run[1..]);
    }
  }

  lemma ReachableInv(kinds: seq<bool>, threads: nat, s: State)
    requires Reachable(kinds, threads, s)
    ensures Inv(s)
  {
    var run :| Legal(Init(kinds, threads), run) && Exec(Init(kinds, threads), run) == s;
    InitInv(kinds, threads);
    RunKeeps(Init(kinds, threads), run);
  }

  // ---- main results -------------------------------------------------------

  /** Under every interleaving each file is exactly the blocks handed over, in
      order and without gaps, so that its content is a prefix of the log; and
      what waits in the reorder buffer is beyond the next block. */
  lemma FileIsOrderedPrefix(kinds: seq<bool>, threads: nat, s: State, c: nat)
    requires Reachable(kinds, threads, s) && c < |s.chs|
    ensures var ch := s.chs[c];
      && |ch.file| <= |ch.sent| && ch.file == ch.sent[..|ch.file|]
      && Flatten(ch.file) <= ch.log
      && (ch.compress ==> ch.next == |ch.file|)
      && (forall b :: b in ch.pending ==> b.ch == c && |ch.file| < b.id < |ch.sent| && b.data == ch.sent[b.id])
  {
    ReachableInv(kinds, threads, s);
    var ch := s.chs[c];
    assert ChannelInv(c, ch);
    FlattenPrefix(ch.sent, |ch.file|);
    forall b | b in ch.pending
      ensures b.ch == c && |ch.file| < b.id < |ch.sent| && b.data == ch.sent[b.id]
    {
      assert Copied(s, b);
      AscendingAbove(|ch.file|, ch.pending, b);
    }
  }

  function SlotSum(c: nat, q: seq<Block>, n: nat): nat {
    if n == 0 then 0 else SlotSum(c, q, n - 1) + Total(IsSlot(c, n - 1), q)
  }

  lemma {:induction false} SlotSumCons(c: nat, q: seq<Block>, n: nat)
    requires q != [] && q[0].ch == c && q[0].origin.Own?
    ensures SlotSum(c, q, n) == SlotSum(c, q[1..], n) + if q[0].origin.slot < n then 1 else 0
  {
    if n > 0 { SlotSumCons(c, q, n - 1); }
  }

  lemma {:induction false} SlotSumLength(c: nat, q: seq<Block>, n: nat)
    requires forall b :: b in q ==> b.ch == c && b.origin.Own? && b.origin.slot < n
    ensures SlotSum(c, q, n) == |q|
  {
    if q == [] {
      SlotSumEmpty(c, n);
    } else {
      assert q[0] in q;
      SlotSumCons(c, q, n);
      SlotSumLength(c, q[1..], n);
    }
  }

  lemma {:induction false} SlotSumEmpty(c: nat, n: nat)
    ensures SlotSum(c, [], n) == 0
  {
    if n > 0 { SlotSumEmpty(c, n - 1); }
  }

  lemma {:induction false} SlotSumBound(c: nat, q: seq<Block>, n: nat)
    requires forall k :: Total(IsSlot(c, k), q) <= 1
    ensures SlotSum(c, q, n) <= n
  {
    if n > 0 { SlotSumBound(c, q, n - 1); }
  }

  /** The slots of the blocks in a return queue are distinct and in range. */
  lemma ReturnQueueSlots(s: State, c: nat)
    requires SlotInv(s) && c < |s.chs| && ReturnInv(c, s.chs[c])
    ensures forall k :: Total(IsSlot(c, k), s.chs[c].returned) <= 1
    ensures forall b :: b in s.chs[c].returned ==> b.origin.slot < NUM_BUFFER_BLOCK
  {
    var q := s.chs[c].returned;
    forall k ensures Total(IsSlot(c, k), q) <= 1 {
      TotalContains(ChannelHoldsSlot(c, k), s.chs, c);
      assert SlotPlaces(s, c, k) <= 1;
    }
    forall b | b in q ensures b.origin.slot < NUM_BUFFER_BLOCK {
      var j :| 0 <= j < |q| && q[j] == b;
      TotalContains(IsSlot(c, b.origin.slot), q, j);
      TotalContains(ChannelHoldsSlot(c, b.origin.slot), s.chs, c);
      assert SlotPlaces(s, c, b.origin.slot) >= 1;
    }
  }

  /** Sending a block back never finds the return queue full. */
  lemma ReturnQueueHasRoom(s: State, c: nat)
    requires Inv(s) && c < |s.chs|
    ensures |s.chs[c].returned| <= NUM_BUFFER_BLOCK < RETURN_QUEUE_SIZE
  {
    assert ChannelInv(c, s.chs[c]);
    ReturnQueueSlots(s, c);
    SlotSumLength(c, s.chs[c].returned, NUM_BUFFER_BLOCK);
    SlotSumBound(c, s.chs[c].returned, NUM_BUFFER_BLOCK);
  }

  /** Block conservation: of a channel's NUM_BUFFER_BLOCK blocks each is in
      exactly one place; returned blocks are empty; the block being filled has
      room; and sending a block back never finds the return queue full. */
  lemma BlocksAreConserved(kinds: seq<bool>, threads: nat, s: State, c: nat)
    requires Reachable(kinds, threads, s) && c < |s.chs|
    ensures !NotStarted(s.chs[c]) ==> forall k :: 0 <= k < NUM_BUFFER_BLOCK ==> SlotPlaces(s, c, k) == 1
    ensures forall b :: b in s.chs[c].returned ==> b.data == []
    ensures |s.chs[c].returned| <= NUM_BUFFER_BLOCK < RETURN_QUEUE_SIZE
    ensures s.chs[c].phase.Filling? ==> |s.chs[c].phase.block.data| < BUFFER_BLOCK_SIZE
    ensures s.chs[c].phase.Filling? ==> s.chs[c].phase.block.id == |s.chs[c].sent|
  {
    ReachableInv(kinds, threads, s);
    var ch := s.chs[c];
    assert ChannelInv(c, ch);
    assert !NotStarted(ch) ==> HasBlocks(s, c);
    ReturnQueueHasRoom(s, c);
  }

  /** A logging thread that polls an empty return queue is not starved: all its
      blocks are with the other threads, none is lost. */
  lemma WaitingBlocksAreUnderWay(kinds: seq<bool>, threads: nat, s: State, c: nat, k: nat)
    requires Reachable(kinds, threads, s) && c < |s.chs| && k < NUM_BUFFER_BLOCK
    requires s.chs[c].phase.Waiting? && s.chs[c].returned == []
    ensures Total(IsSlot(c, k), s.compq) + Total(CompHoldsSlot(c, k), s.comps)
          + Total(IsSlot(c, k), s.ioq) + IoHoldsSlot(c, k, s.io) == 1
  {
    ReachableInv(kinds, threads, s);
    assert HasBlocks(s, c);
    assert SlotPlaces(s, c, k) == 1;
    forall d | 0 <= d < |s.chs| ensures ChannelHoldsSlot(c, k)(s.chs[d]) == 0 {
      assert ChannelInv(d, s.chs[d]);
      HandSlot(s.chs[d]);
      if d != c {
        forall j | 0 <= j < |s.chs[d].returned| ensures Owns(c, k, s.chs[d].returned[j]) == 0 {
          assert s.chs[d].returned[j] in s.chs[d].returned;
        }
        TotalZero(IsSlot(c, k), s.chs[d].returned);
      }
    }
    TotalZero(ChannelHoldsSlot(c, k), s.chs);
  }
}
