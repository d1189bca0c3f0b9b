/** The count of open channels, and when removal finds channels left. */
module FpcRemoval {
  import opened Base
  import opened FpcModel
  import opened FpcProtocol
  import opened Sums

  // ---- the reference counter ----------------------------------------------

  /** Counted in nr_open_channels: from opening until closing begins. */
  predicate IsOpen(api: Api) {
    match api
    case Opening => true
    case Idle => true
    case Waiting(kind, after) => kind.Insert? || (kind.Move? && after.Idle?)
    case _ => false
  }

  function OpenWeight(ch: Channel): nat { if IsOpen(ch.api) then 1 else 0 }

  predicate CountInv(s: State) { s.nrOpen == Total(OpenWeight, s.chs) }

  predicate SameOpen(a: seq<Channel>, b: seq<Channel>) {
    |a| == |b| && forall c :: 0 <= c < |a| ==> IsOpen(a[c].api) == IsOpen(b[c].api)
  }

  lemma {:induction false} SameOpenTotal(a: seq<Channel>, b: seq<Channel>)
    requires SameOpen(a, b)
    ensures Total(OpenWeight, a) == Total(OpenWeight, b)
  {
    if a != [] {
      assert forall c :: 0 <= c < |a| - 1 ==> a[1..][c] == a[c + 1] && b[1..][c] == b[c + 1];
      SameOpenTotal(a[1..], b[1..]);
    }
  }

  /** Submitting a job changes no caller's state. */
  lemma SubmitSameOpen(s: State, jb: Job)
    requires jb.ch < |s.chs| && MapInRange(s)
    ensures SameOpen(s.chs, Submit(s, jb).chs) && Submit(s, jb).nrOpen == s.nrOpen
  {
    var d := SubmitChannel(s, jb);
  }

  lemma ExecuteSameOpen(s: State, d: nat, jb: Job, left: nat)
    requires Inv(s) && d < |s.descrs| && s.descrs[d].pc == Executing(jb, left)
    ensures jb.ch < |s.chs| && SameOpen(s.chs, Execute(s, d, jb, left).chs)
  {
    AtJob(s, d, jb, left);
    var ch := s.chs[jb.ch];
    assert IsOpen(Inserted(ch, d).api) == IsOpen(ch.api) || !jb.kind.Insert?;
    assert IsOpen(Deleted(ch).api) == IsOpen(ch.api) || !jb.kind.Delete?;
    assert IsOpen(Completed(ch).api) == IsOpen(ch.api);
  }

  lemma ThreadSameOpen(s: State, d: nat, due: bool)
    requires Inv(s) && ThreadEnabled(s, d)
    ensures SameOpen(s.chs, ThreadStep(s, d, due).chs) && ThreadStep(s, d, due).nrOpen == s.nrOpen
  {
    var pc := s.descrs[d].pc;
    if pc.Executing? {
      ExecuteSameOpen(s, d, pc.job, pc.left);
    } else if pc.Forwarding? {
      SubmitSameOpen(SetPc(s, d, Jobs(pc.left)), pc.job);
    }
  }

  /** A caller's own step: one channel changes, and the count with it. */
  lemma CallerCounts(s: State, a: Step)
    requires Enabled(s, a) && (a.StepOpen? || a.StepClose? || a.StepLog?) && CountInv(s)
    ensures CountInv(Next(s, a))
  {
    TotalUpdate(OpenWeight, s.chs, a.c, Next(s, a).chs[a.c]);
  }

  lemma CallCounts(s: State, a: Step)
    requires Inv(s) && Enabled(s, a) && CountInv(s)
    requires a.StepOpenSubmit? || a.StepSetArg? || a.StepCloseSubmit?
    ensures CountInv(Next(s, a))
  {
    var (s1, jb) := CallState(s, a);
    assert ApiOk(s.chs[a.c]);
    if a.StepCloseSubmit? { OwnerIsRegistered(s, a.c); }
    assert SameOpen(s.chs, s1.chs);
    SubmitSameOpen(s1, jb);
    SameOpenTotal(s.chs, s1.chs);
    SameOpenTotal(s1.chs, Submit(s1, jb).chs);
    assert Next(s, a) == Submit(s1, jb);
  }

  lemma StepCounts(s: State, a: Step)
    requires Inv(s) && Enabled(s, a) && CountInv(s)
    ensures CountInv(Next(s, a))
  {
    if a.StepThread? {
      ThreadSameOpen(s, a.d, a.due);
      SameOpenTotal(s.chs, Next(s, a).chs);
    } else if a.StepOpen? || a.StepClose? || a.StepLog? {
      CallerCounts(s, a);
    } else {
      CallCounts(s, a);
    }
  }

  // ---- a thread about to remove itself ------------------------------------

  /** The channel is being closed. */
  predicate BeingClosed(api: Api) { api.Closing? || (api.Waiting? && api.kind.Delete?) }

  predicate RemovingOk(chs: seq<Channel>, ds: Descr) {
    ds.pc.Removing? ==> forall c :: c in ds.closures ==> c < |chs| && BeingClosed(chs[c].api)
  }

  /** A thread tries removal only with channels that are being closed. */
  predicate RemovingInv(s: State) {
    forall d :: 0 <= d < |s.descrs| ==> RemovingOk(s.chs, s.descrs[d])
  }

  /** A thread that has read a count of 0 samples only channels being closed. */
  lemma NoneOpenToSample(s: State, d: nat)
    requires Inv(s) && CountInv(s) && s.nrOpen == 0 && d < |s.descrs|
    ensures forall c :: c in s.descrs[d].closures ==> c < |s.chs| && BeingClosed(s.chs[c].api)
  {
    assert ClosuresOk(s.chs, d, s.descrs[d]);
    forall c | c in s.descrs[d].closures ensures c < |s.chs| && BeingClosed(s.chs[c].api) {
      assert ApiOk(s.chs[c]);
      TotalContains(OpenWeight, s.chs, c);
    }
  }

  predicate ClosedAt(s: State, c: nat) { c < |s.chs| && BeingClosed(s.chs[c].api) }

  lemma ThreadClosingStays(s: State, d: nat, due: bool, c: nat)
    requires ThreadEnabled(s, d) && ClosedAt(s, c)
    requires s.descrs[d].pc.Executing? ==> s.descrs[d].pc.job.ch != c
    ensures ClosedAt(ThreadStep(s, d, due), c)
  {
    var pc := s.descrs[d].pc;
    if pc.Forwarding? {
      var e := SubmitChannel(SetPc(s, d, Jobs(pc.left)), pc.job);
    }
  }

  lemma CallClosingStays(s: State, a: Step, c: nat)
    requires Inv(s) && Enabled(s, a) && ClosedAt(s, c)
    requires a.StepOpenSubmit? || a.StepSetArg? || a.StepCloseSubmit?
    ensures ClosedAt(Next(s, a), c)
  {
    var (s1, jb) := CallState(s, a);
    if a.StepCloseSubmit? {
      assert ApiOk(s.chs[a.c]);
      OwnerIsRegistered(s, a.c);
    }
    var e := SubmitChannel(s1, jb);
    assert Next(s, a) == Submit(s1, jb);
  }

  /** No caller takes a channel back from being closed; only its thread does, when
      it executes the DELETE job. */
  lemma ClosingStays(s: State, a: Step, c: nat)
    requires Inv(s) && Enabled(s, a) && ClosedAt(s, c)
    requires !(a.StepThread? && s.descrs[a.d].pc.Executing? && s.descrs[a.d].pc.job.ch == c)
    ensures ClosedAt(Next(s, a), c)
  {
    if a.StepThread? {
      ThreadClosingStays(s, a.d, a.due, c);
    } else if a.StepOpenSubmit? || a.StepSetArg? || a.StepCloseSubmit? {
      CallClosingStays(s, a, c);
    }
  }

  /** Nothing but its queue changes in a descriptor, or it is new. */
  predicate OnlyQueued(s: State, s': State, e: nat)
    requires e < |s'.descrs|
  {
    if e < |s.descrs| then s'.descrs[e].closures == s.descrs[e].closures && s'.descrs[e].pc == s.descrs[e].pc
    else !s'.descrs[e].pc.Removing?
  }

  lemma SubmitQueues(s: State, jb: Job, e: nat)
    requires jb.ch < |s.chs| && MapInRange(s) && e < |Submit(s, jb).descrs|
    ensures OnlyQueued(s, Submit(s, jb), e)
  {
  }

  lemma ThreadQueues(s: State, d: nat, due: bool, e: nat)
    requires ThreadEnabled(s, d) && e != d && e < |ThreadStep(s, d, due).descrs|
    ensures OnlyQueued(s, ThreadStep(s, d, due), e)
  {
    var pc := s.descrs[d].pc;
    if pc.Forwarding? {
      SubmitQueues(SetPc(s, d, Jobs(pc.left)), pc.job, e);
    }
  }

  /** Other threads' descriptors change by queued jobs only. */
  lemma OthersDescr(s: State, a: Step, e: nat)
    requires Inv(s) && Enabled(s, a) && e < |Next(s, a).descrs|
    requires !(a.StepThread? && a.d == e)
    ensures OnlyQueued(s, Next(s, a), e)
  {
    if a.StepThread? {
      ThreadQueues(s, a.d, a.due, e);
    } else if a.StepOpenSubmit? || a.StepSetArg? || a.StepCloseSubmit? {
      var (s1, jb) := CallState(s, a);
      if a.StepCloseSubmit? {
        assert ApiOk(s.chs[a.c]);
        OwnerIsRegistered(s, a.c);
      }
      assert Next(s, a) == Submit(s1, jb);
      SubmitQueues(s1, jb, e);
    }
  }

  /** The executing thread is the one that samples the job's channel. */
  lemma ExecutorOwns(s: State, d: nat, e: nat)
    requires Inv(s) && d < |s.descrs| && s.descrs[d].pc.Executing? && e < |s.descrs|
    ensures s.descrs[d].pc.job.ch in s.descrs[e].closures ==> d == e
  {
    AtJob(s, d, s.descrs[d].pc.job, s.descrs[d].pc.left);
    assert ClosuresOk(s.chs, e, s.descrs[e]);
  }

  lemma OtherRemoving(s: State, a: Step, e: nat)
    requires Inv(s) && Enabled(s, a) && e < |Next(s, a).descrs| && !(a.StepThread? && a.d == e)
    requires RemovingInv(s)
    ensures RemovingOk(Next(s, a).chs, Next(s, a).descrs[e])
  {
    var s' := Next(s, a);
    OthersDescr(s, a, e);
    if e < |s.descrs| && s.descrs[e].pc.Removing? {
      assert RemovingOk(s.chs, s.descrs[e]);
      if a.StepThread? && s.descrs[a.d].pc.Executing? { ExecutorOwns(s, a.d, e); }
      forall c | c in s'.descrs[e].closures ensures c < |s'.chs| && BeingClosed(s'.chs[c].api) {
        ClosingStays(s, a, c);
      }
    }
  }

  lemma OwnRemoving(s: State, d: nat, due: bool)
    requires Inv(s) && CountInv(s) && ThreadEnabled(s, d)
    ensures var s' := ThreadStep(s, d, due); d < |s'.descrs| && RemovingOk(s'.chs, s'.descrs[d])
  {
    if s.descrs[d].pc.CheckOpen? && s.nrOpen == 0 { NoneOpenToSample(s, d); }
    if s.descrs[d].pc.Forwarding? {
      var e := SubmitChannel(SetPc(s, d, Jobs(s.descrs[d].pc.left)), s.descrs[d].pc.job);
    }
  }

  lemma StepRemoving(s: State, a: Step)
    requires Inv(s) && CountInv(s) && RemovingInv(s) && Enabled(s, a)
    ensures RemovingInv(Next(s, a))
  {
    var s' := Next(s, a);
    forall e | 0 <= e < |s'.descrs| ensures RemovingOk(s'.chs, s'.descrs[e]) {
      if a.StepThread? && a.d == e { OwnRemoving(s, a.d, a.due); } else { OtherRemoving(s, a, e); }
    }
  }

  lemma {:induction false} RunCounts(s: State, run: seq<Step>)
    requires Inv(s) && CountInv(s) && RemovingInv(s) && Legal(s, run)
    ensures CountInv(Exec(s, run)) && RemovingInv(Exec(s, run))
    decreases |run|
  {
    if run != [] {
      StepKeeps(s, run[0]);
      StepCounts(s, run[0]);
      StepRemoving(s, run[0]);
      RunCounts(Next(s, run[0]), run[1..]);
    }
  }

  lemma ReachableCounts(n: nat, s: State)
    requires Reachable(n, s)
    ensures CountInv(s) && RemovingInv(s)
  {
    var run :| Legal(Init(n), run) && Exec(Init(n), run) == s;
    TotalZero(OpenWeight, Init(n).chs);
    RunCounts(Init(n), run);
  }

  // ---- main results -------------------------------------------------------

  /** The reference counter is the number of channels that are open. */
  lemma OpenCountIsExact(n: nat, s: State)
    requires Reachable(n, s)
    ensures s.nrOpen == Total(OpenWeight, s.chs)
  {
    ReachableCounts(n, s);
  }

  /** Channel c has been taken out of the count, and its DELETE job is still to be
      submitted. */
  predicate ClosingAt(s: State, c: nat, period: nat) {
    c < |s.chs| && s.chs[c].api.Closing? && s.chs[c].period == period
  }

  /** A removal with an empty queue finds channels left exactly if the thread is that
      of the default period and a channel of that period is between the decrement of
      the count and the submission of its DELETE job. */
  lemma RemovalFindsClosures(n: nat, s: State, d: nat)
    requires Reachable(n, s) && d < |s.descrs| && s.descrs[d].pc.Removing? && s.descrs[d].queue == []
    ensures s.descrs[d].closures != {} <==>
      (s.descrs[d].period == FPC_DEFAULT_PERIOD && exists c: nat :: ClosingAt(s, c, FPC_DEFAULT_PERIOD))
  {
    ReachableInv(n, s);
    ReachableCounts(n, s);
    var ds := s.descrs[d];
    assert PcOk(ds) && DescrOk(s.thrMap, d, ds) && RemovingOk(s.chs, ds) && ClosuresOk(s.chs, d, ds);
    if ds.closures != {} {
      var c :| c in ds.closures;
      LeftIsClosing(s, d, c);
      assert ClosingAt(s, c, FPC_DEFAULT_PERIOD);
    }
    if c: nat :| ds.period == FPC_DEFAULT_PERIOD && ClosingAt(s, c, FPC_DEFAULT_PERIOD) {
      assert ApiOk(s.chs[c]) && OwnerOk(s.descrs, c, s.chs[c]);
      OwnerIsRegistered(s, c);
      assert c in ds.closures;
    }
  }

  /** The job of a channel that is sampled is with the thread that samples it. */
  lemma JobIsWithOwner(s: State, d: nat, c: nat)
    requires Inv(s) && d < |s.descrs| && c in s.descrs[d].closures
    ensures c < |s.chs|
    ensures s.chs[c].job.InQueue? ==> s.chs[c].job.d == d && s.descrs[d].queue != []
    ensures s.chs[c].job.InHand? ==> s.chs[c].job.d == d && Held(s.descrs[d]).Some?
  {
    assert ClosuresOk(s.chs, d, s.descrs[d]);
    var ch := s.chs[c];
    assert ApiOk(ch) && InQueueOk(s.descrs, c, ch) && InHandOk(s.descrs, c, ch);
    OwnerIsRegistered(s, c);
    if ch.job != Nowhere {
      var e := ch.job.d;
      assert QueueOk(s.chs, e, s.descrs[e]) && DescrOk(s.thrMap, e, s.descrs[e]) && HeldOk(s.chs, e, s.descrs[e]);
    }
  }

  /** With an empty queue, a channel left has no DELETE job under way. */
  lemma LeftIsClosing(s: State, d: nat, c: nat)
    requires Inv(s) && RemovingInv(s) && d < |s.descrs| && s.descrs[d].pc.Removing?
    requires s.descrs[d].queue == [] && c in s.descrs[d].closures
    ensures c < |s.chs| && s.chs[c].api.Closing? && s.chs[c].period == s.descrs[d].period
  {
    assert RemovingOk(s.chs, s.descrs[d]) && ClosuresOk(s.chs, d, s.descrs[d]);
    assert ApiOk(s.chs[c]) && OwnerOk(s.descrs, c, s.chs[c]);
    JobIsWithOwner(s, d, c);
  }
}
