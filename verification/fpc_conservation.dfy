/** What the files of fast periodic counters add up to. */
module FpcConservation {
  import opened Base
  import opened FpcModel
  import opened FpcProtocol
  import opened Sums

  // ---- sums over a file ---------------------------------------------------

  /** The number of events that a line reports for the time since the last one. */
  function CountOf(l: Line): nat {
    match l
    case Start(n) => n
    case Sample(n) => n
    case Truncated(n) => n
    case _ => 0
  }

  /** The number of sampling intervals that a line reports. */
  function IntervalsOf(l: Line): nat {
    match l
    case Sample(_) => 1
    case Skipped(n) => n
    case _ => 0
  }

  function Counts(file: seq<Line>): nat { Total(CountOf, file) }

  function Intervals(file: seq<Line>): nat { Total(IntervalsOf, file) }

  predicate NoFinal(file: seq<Line>) {
    forall i :: 0 <= i < |file| ==> !file[i].Final?
  }

  /** The channel has been deleted from its sampling thread. */
  predicate Finished(api: Api) {
    api.Closed? || (api.Waiting? && api.kind.Move? && api.after.Closed?)
  }

  /** The total count line is the last one, occurs once, and is right. */
  predicate FileComplete(file: seq<Line>) {
    && file != [] && NoFinal(file[..|file| - 1])
    && file[|file| - 1] == Final(Counts(file[..|file| - 1]))
  }

  /** The totals in the channel are those in its file. */
  predicate RecordOk(ch: Channel) {
    && ch.total == Counts(ch.file)
    && ch.rounds == Intervals(ch.file) + ch.skipped
    && (if Finished(ch.api) then FileComplete(ch.file) else NoFinal(ch.file))
  }

  // ---- one channel --------------------------------------------------------

  lemma Appended(file: seq<Line>, line: Line)
    ensures Counts(file + [line]) == Counts(file) + CountOf(line)
    ensures Intervals(file + [line]) == Intervals(file) + IntervalsOf(line)
    ensures NoFinal(file) && !line.Final? ==> NoFinal(file + [line])
    ensures (file + [line])[..|file|] == file
  {
    TotalAppend(CountOf, file, line);
    TotalAppend(IntervalsOf, file, line);
  }

  /** The books of an open channel, `c` and `r` events and intervals ahead of the
      file. */
  predicate Balanced(ch: Channel, c: int, r: int) {
    && ch.total == Counts(ch.file) + c
    && ch.rounds == Intervals(ch.file) + ch.skipped + r
    && NoFinal(ch.file)
  }

  lemma PrintBalances(ch: Channel, line: Line, c: int, r: int)
    requires Balanced(ch, c, r) && !line.Final?
    ensures Balanced(Print(ch, line), c - CountOf(line), r - IntervalsOf(line))
  {
    Appended(ch.file, line);
  }

  lemma SkippedBalances(ch: Channel, c: int, r: int)
    requires Balanced(ch, c, r)
    ensures Balanced(ReportSkipped(ch), c, r) && ReportSkipped(ch).skipped == 0
  {
    Appended(ch.file, Skipped(ch.skipped));
  }

  lemma InsertedBalances(ch: Channel, d: nat)
    requires Balanced(ch, 0, 0)
    ensures Balanced(Inserted(ch, d), 0, 0)
  {
    var ch1 := if ch.headerLogged then ch else Print(ch, Header).(headerLogged := true);
    PrintBalances(ch, Header, 0, 0);
    PrintBalances(Flushed(ch1), Start(ch.ctr), ch.ctr, 0);
  }

  lemma MovedBalances(ch: Channel, d: nat, jb: Job)
    requires Balanced(ch, 0, 0)
    ensures Balanced(MovedAway(ch, d, jb), 0, 0)
  {
    SkippedBalances(Flushed(ch), ch.ctr, 0);
    PrintBalances(ReportSkipped(Flushed(ch)), Truncated(ch.ctr), ch.ctr, 0);
  }

  lemma ProcessedBalances(ch: Channel)
    requires Balanced(ch, 0, 0)
    ensures Balanced(Processed(ch), 0, 0)
  {
    if ch.sampled > 0 {
      var ch1 := ch.(rounds := ch.rounds + 1, total := ch.total + ch.sampled);
      SkippedBalances(ch1, ch.sampled, 1);
      PrintBalances(ReportSkipped(ch1), Sample(ch.sampled), ch.sampled, 1);
    }
  }

  lemma DeletedCompletes(ch: Channel)
    requires Balanced(ch, 0, 0) && ch.api == Waiting(Delete, Closed)
    ensures RecordOk(Deleted(ch))
  {
    SkippedBalances(Flushed(ch), ch.ctr, 0);
    PrintBalances(ReportSkipped(Flushed(ch)), Truncated(ch.ctr), ch.ctr, 0);
    var ch1 := Print(ReportSkipped(Flushed(ch)), Truncated(ch.ctr));
    Appended(ch1.file, Final(ch1.total));
  }

  // ---- all channels, every step -------------------------------------------

  /** Events of the channel that its thread has sampled but not processed. */
  function Unprocessed(descrs: seq<Descr>, c: nat, ch: Channel): nat {
    if ch.owner.Some? && ch.owner.value < |descrs| && Pending(descrs[ch.owner.value].pc, c) then ch.sampled else 0
  }

  predicate Pending(pc: Pc, c: nat) {
    (pc.Sampling? && c in pc.done) || (pc.Processing? && c in pc.todo)
  }

  predicate EventOk(descrs: seq<Descr>, c: nat, ch: Channel) {
    ch.calls == ch.ctr + Unprocessed(descrs, c, ch) + ch.total
  }

  predicate BooksOk(s: State, c: nat)
    requires c < |s.chs|
  {
    RecordOk(s.chs[c]) && EventOk(s.descrs, c, s.chs[c])
  }

  /** Submitting a job leaves the books of all channels alone. */
  lemma SubmitBooks(s: State, jb: Job, x: nat)
    requires jb.ch < |s.chs| && MapInRange(s) && x < |s.chs| && OwnerOk(s.descrs, x, s.chs[x]) && BooksOk(s, x)
    ensures BooksOk(Submit(s, jb), x)
  {
    var s' := Submit(s, jb);
    var d := SubmitChannel(s, jb);
    if s.chs[x].owner.Some? {
      assert s'.descrs[s.chs[x].owner.value].pc == s.descrs[s.chs[x].owner.value].pc;
    }
  }

  lemma CallerBooks(s: State, a: Step, x: nat)
    requires Enabled(s, a) && (a.StepOpen? || a.StepClose? || a.StepLog?) && x < |s.chs| && BooksOk(s, x)
    ensures BooksOk(Next(s, a), x)
  {
  }

  lemma CallBooks(s: State, a: Step, x: nat)
    requires Inv(s) && Enabled(s, a) && (a.StepOpenSubmit? || a.StepSetArg? || a.StepCloseSubmit?)
    requires x < |s.chs| && BooksOk(s, x)
    ensures BooksOk(Next(s, a), x)
  {
    assert ApiOk(s.chs[x]) && OwnerOk(s.descrs, x, s.chs[x]);
    var (s1, jb) := CallState(s, a);
    CallStateBooks(s, a, x);
    SubmitBooks(s1, jb, x);
    if a.StepCloseSubmit? { OwnerIsRegisteredAt(s, a.c); }
  }

  lemma CallStateBooks(s: State, a: Step, x: nat)
    requires Enabled(s, a) && (a.StepOpenSubmit? || a.StepSetArg? || a.StepCloseSubmit?)
    requires x < |s.chs| && BooksOk(s, x) && OwnerOk(s.descrs, x, s.chs[x])
    ensures var s1 := CallState(s, a).0; BooksOk(s1, x) && OwnerOk(s1.descrs, x, s1.chs[x])
  {
  }

  lemma OwnerIsRegisteredAt(s: State, c: nat)
    requires Inv(s) && c < |s.chs| && s.chs[c].api.Closing?
    ensures s.chs[c].period in s.thrMap
  {
    assert ApiOk(s.chs[c]);
    OwnerIsRegistered(s, c);
  }

  /** A thread moves on; for channels that it samples, nothing becomes or ceases
      to be unprocessed. */
  lemma PcBooks(s: State, d: nat, pc: Pc, x: nat)
    requires ClosureInv(s) && d < |s.descrs| && x < |s.chs| && BooksOk(s, x)
    requires x in s.descrs[d].closures ==> (Pending(pc, x) <==> Pending(s.descrs[d].pc, x))
    ensures BooksOk(SetPc(s, d, pc), x)
  {
    assert OwnerOk(s.descrs, x, s.chs[x]);
  }

  /** A channel that a thread samples is not finished. */
  lemma SampledIsOpen(s: State, d: nat, c: nat)
    requires Inv(s) && d < |s.descrs| && c in s.descrs[d].closures
    ensures c < |s.chs| && s.chs[c].owner == Some(d) && !Finished(s.chs[c].api)
  {
    assert ClosuresOk(s.chs, d, s.descrs[d]);
    assert ApiOk(s.chs[c]);
  }

  lemma VisitBooks(s: State, d: nat, due: bool, x: nat)
    requires Inv(s) && ThreadEnabled(s, d) && x < |s.chs| && BooksOk(s, x)
    requires s.descrs[d].pc.Sampling? || s.descrs[d].pc.Processing?
    ensures BooksOk(ThreadStep(s, d, due), x)
  {
    var ds := s.descrs[d];
    assert PcOk(ds) && OwnerOk(s.descrs, x, s.chs[x]) && ClosuresOk(s.chs, d, ds);
    if ds.pc.todo == {} {
      PcBooks(s, d, ThreadStep(s, d, due).descrs[d].pc, x);
    } else {
      var c := Least(ds.pc.todo);
      SampledIsOpen(s, d, c);
      if x == c {
        ProcessedBalances(s.chs[c]);
      }
    }
  }

  lemma TakeJobBooks(s: State, d: nat, due: bool, x: nat)
    requires Inv(s) && ThreadEnabled(s, d) && x < |s.chs| && BooksOk(s, x)
    requires s.descrs[d].pc.Jobs? && s.descrs[d].pc.left > 0
    ensures BooksOk(ThreadStep(s, d, due), x)
  {
    assert OwnerOk(s.descrs, x, s.chs[x]);
  }

  /** A job moves the whole counter to the total. */
  predicate CounterMoved(ch: Channel, ch': Channel) {
    ch'.ctr + ch'.total == ch.ctr + ch.total && ch'.calls == ch.calls
  }

  lemma JobsMoveCounters(ch: Channel, d: nat, jb: Job)
    ensures CounterMoved(ch, Inserted(ch, d))
    ensures CounterMoved(ch, MovedAway(ch, d, jb))
    ensures CounterMoved(ch, Deleted(ch))
    ensures CounterMoved(ch, Completed(ch))
  {
  }

  /** While a thread executes jobs, its channels have nothing unprocessed. */
  lemma ExecuteEvents(s: State, d: nat, jb: Job, left: nat, x: nat)
    requires Inv(s) && d < |s.descrs| && s.descrs[d].pc == Executing(jb, left) && x < |s.chs| && BooksOk(s, x)
    ensures jb.ch < |s.chs| && EventOk(Execute(s, d, jb, left).descrs, x, Execute(s, d, jb, left).chs[x])
  {
    AtJob(s, d, jb, left);
    var s' := Execute(s, d, jb, left);
    JobsMoveCounters(s.chs[jb.ch], d, jb);
    assert CounterMoved(s.chs[x], s'.chs[x]);
    assert s'.descrs == s.descrs[d := s'.descrs[d]];
    NothingUnprocessed(s.descrs, s'.descrs, d, x, s.chs[x], s'.chs[x]);
  }

  lemma NothingUnprocessed(descrs: seq<Descr>, descrs': seq<Descr>, d: nat, x: nat, ch: Channel, ch': Channel)
    requires d < |descrs| == |descrs'| && descrs' == descrs[d := descrs'[d]]
    requires !Pending(descrs[d].pc, x) && !Pending(descrs'[d].pc, x)
    requires ch' == ch || (ch.owner in {None, Some(d)} && ch'.owner in {None, Some(d)})
    ensures Unprocessed(descrs, x, ch) == Unprocessed(descrs', x, ch')
  {
  }

  lemma ExecuteRecord(s: State, d: nat, jb: Job, left: nat, x: nat)
    requires Inv(s) && d < |s.descrs| && s.descrs[d].pc == Executing(jb, left) && x < |s.chs| && BooksOk(s, x)
    ensures jb.ch < |s.chs| && RecordOk(Execute(s, d, jb, left).chs[x])
  {
    AtJob(s, d, jb, left);
    if x == jb.ch {
      var ch := s.chs[x];
      match jb.kind {
        case Insert => InsertedBalances(ch, d);
        case Move => if x in s.descrs[d].closures { MovedBalances(ch, d, jb); }
        case Delete => DeletedCompletes(ch);
      }
    }
  }

  lemma ForwardBooks(s: State, d: nat, due: bool, x: nat)
    requires Inv(s) && ThreadEnabled(s, d) && s.descrs[d].pc.Forwarding? && x < |s.chs| && BooksOk(s, x)
    ensures BooksOk(ThreadStep(s, d, due), x)
  {
    var pc := s.descrs[d].pc;
    assert OwnerOk(s.descrs, x, s.chs[x]);
    PcBooks(s, d, Jobs(pc.left), x);
    SubmitBooks(SetPc(s, d, Jobs(pc.left)), pc.job, x);
  }

  lemma ThreadBooks(s: State, d: nat, due: bool, x: nat)
    requires Inv(s) && ThreadEnabled(s, d) && x < |s.chs| && BooksOk(s, x)
    ensures BooksOk(ThreadStep(s, d, due), x)
  {
    var ds := s.descrs[d];
    if ds.pc.Sampling? || ds.pc.Processing? {
      VisitBooks(s, d, due, x);
    } else if ds.pc.Jobs? && ds.pc.left > 0 {
      TakeJobBooks(s, d, due, x);
    } else if ds.pc.Executing? {
      ExecuteEvents(s, d, ds.pc.job, ds.pc.left, x);
      ExecuteRecord(s, d, ds.pc.job, ds.pc.left, x);
    } else if ds.pc.Forwarding? {
      ForwardBooks(s, d, due, x);
    } else {
      PcBooks(s, d, ThreadStep(s, d, due).descrs[d].pc, x);
    }
  }

  lemma StepBooks(s: State, a: Step, x: nat)
    requires Inv(s) && Enabled(s, a) && x < |s.chs| && BooksOk(s, x)
    ensures x < |Next(s, a).chs| && BooksOk(Next(s, a), x)
  {
    if a.StepThread? {
      ThreadBooks(s, a.d, a.due, x);
    } else if a.StepOpen? || a.StepClose? || a.StepLog? {
      CallerBooks(s, a, x);
    } else {
      CallBooks(s, a, x);
    }
  }

  predicate Books(s: State) {
    forall c :: 0 <= c < |s.chs| ==> BooksOk(s, c)
  }

  lemma {:induction false} RunBooks(s: State, run: seq<Step>)
    requires Inv(s) && Books(s) && Legal(s, run)
    ensures Books(Exec(s, run))
    decreases |run|
  {
    if run != [] {
      var s' := Next(s, run[0]);
      StepKeeps(s, run[0]);
      NextChannels(s, run[0]);
      forall x | 0 <= x < |s'.chs| ensures BooksOk(s', x) {
        assert BooksOk(s, x);
        StepBooks(s, run[0], x);
      }
      RunBooks(s', run[1..]);
    }
  }

  lemma NextChannels(s: State, a: Step)
    requires Enabled(s, a)
    ensures |Next(s, a).chs| == |s.chs|
  {
  }

  // ---- main results -------------------------------------------------------

  /** Every call of the handler is in the counter, or sampled and about to be
      processed, or in exactly one count of the file. */
  lemma EventsAreConserved(n: nat, s: State, c: nat)
    requires Reachable(n, s) && c < |s.chs|
    ensures s.chs[c].calls == s.chs[c].ctr + Unprocessed(s.descrs, c, s.chs[c]) + Counts(s.chs[c].file)
  {
    ReachableBooks(n, s);
    assert BooksOk(s, c);
  }

  /** The rounds that a channel was sampled in are those its file reports, as
      counts or as skipped, and those still to be reported as skipped. */
  lemma IntervalsAreConserved(n: nat, s: State, c: nat)
    requires Reachable(n, s) && c < |s.chs|
    ensures s.chs[c].rounds == Intervals(s.chs[c].file) + s.chs[c].skipped
  {
    ReachableBooks(n, s);
    assert BooksOk(s, c);
  }

  /** A file has a total count line exactly after the channel was closed.  It is
      the last line, and equals the sum of the counts above it. */
  lemma TotalCountIsRight(n: nat, s: State, c: nat)
    requires Reachable(n, s) && c < |s.chs|
    ensures if Finished(s.chs[c].api) then FileComplete(s.chs[c].file) else NoFinal(s.chs[c].file)
  {
    ReachableBooks(n, s);
    assert BooksOk(s, c);
  }

  lemma ReachableBooks(n: nat, s: State)
    requires Reachable(n, s)
    ensures Books(s)
  {
    var run :| Legal(Init(n), run) && Exec(Init(n), run) == s;
    RunBooks(Init(n), run);
  }
}
