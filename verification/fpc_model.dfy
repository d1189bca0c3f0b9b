/** Fast periodic counters as a transition system.

    Each channel has an atomic event counter.  One sampling thread per period
    samples the channels registered with it; channels are inserted, moved to
    another period and deleted by jobs that the threads take from their queues.
    Threads are created when a job arrives for a period that has none, and take
    themselves out of the thread map when they have nothing left. */
module FpcModel {
  import opened Base

  const MICRO_S_PER_S: nat := 1000000

  /** 10 milliseconds, in nanoseconds. */
  const FPC_DEFAULT_PERIOD: nat := 10 * MICRO_S_PER_S

  /** The lines of a channel's file. */
  datatype Line =
    | Header
    | Start(count: nat)          // count so far, then "# start, period"
    | Sample(count: nat)         // count of one sampling interval
    | Skipped(intervals: nat)
    | Truncated(count: nat)
    | Final(count: nat)          // "# total count"

  datatype JobKind = Insert | Move | Delete

  datatype Job = Job(kind: JobKind, ch: nat, target: nat)

  /** Where the thread that calls the channel's API is.  `Waiting` blocks until
      the job is completed, and then continues with `after`. */
  datatype Api =
    | Unopened
    | Opening                    // counted as open, job not yet submitted
    | Idle
    | Closing                    // no longer counted, job not yet submitted
    | Waiting(kind: JobKind, after: Api)
    | Closed

  /** Where the channel's outstanding job is; a history that the model keeps. */
  datatype JobPlace = Nowhere | InQueue(d: nat, job: Job) | InHand(d: nat, job: Job)

  /** `calls` and `rounds` count handler calls and sampling rounds; `owner` is
      the descriptor that holds the channel.  The three are histories. */
  datatype Channel = Channel(
    api: Api,
    ctr: nat,
    sampled: nat,
    total: nat,
    period: nat,
    skipped: nat,
    headerLogged: bool,
    file: seq<Line>,
    calls: nat,
    rounds: nat,
    owner: Option<nat>,
    job: JobPlace)

  datatype Pc =
    | Sampling(todo: set<nat>, done: set<nat>)
    | Processing(todo: set<nat>)
    | JobsStart
    | Jobs(left: nat)
    | Executing(job: Job, left: nat)
    | Forwarding(job: Job, left: nat)
    | CheckOpen
    | CheckQueue
    | Removing
    | Resting
    | Terminated

  /** A descriptor of a sampling thread. */
  datatype Descr = Descr(period: nat, closures: set<nat>, queue: seq<Job>, pc: Pc)

  /** `descrs` lists every descriptor ever created; `thrMap` maps periods to
      those that are registered. */
  datatype State = State(chs: seq<Channel>, descrs: seq<Descr>, thrMap: map<nat, nat>, nrOpen: int)

  function NewChannel(): Channel {
    Channel(Unopened, 0, 0, 0, FPC_DEFAULT_PERIOD, 0, false, [], 0, 0, None, Nowhere)
  }

  function Init(n: nat): State {
    State(seq(n, i => NewChannel()), [], map[], 0)
  }

  datatype Step =
    | StepOpen(c: nat)
    | StepOpenSubmit(c: nat)
    | StepSetArg(c: nat, value: nat)
    | StepClose(c: nat)
    | StepCloseSubmit(c: nat)
    | StepLog(c: nat)
    | StepThread(d: nat, due: bool)   // `due`: the clock has passed the flush time

  // ---- submitting jobs ----------------------------------------------------

  /** `enqueueJobWithThrDescriptor`, under the mutex of the thread map: use the
      registered thread of the channel's period, or create one. */
  function Submit(s: State, jb: Job): State
    requires jb.ch < |s.chs|
    requires forall p :: p in s.thrMap ==> s.thrMap[p] < |s.descrs|
  {
    var period := s.chs[jb.ch].period;
    if period in s.thrMap then
      AddJob(s, s.thrMap[period], jb)
    else
      var d := |s.descrs|;
      s.(descrs := s.descrs + [Descr(period, {}, [jb], Sampling({}, {}))],
         thrMap := s.thrMap[period := d],
         chs := s.chs[jb.ch := s.chs[jb.ch].(job := InQueue(d, jb))])
  }

  function AddJob(s: State, d: nat, jb: Job): State
    requires jb.ch < |s.chs| && d < |s.descrs|
  {
    s.(descrs := s.descrs[d := s.descrs[d].(queue := s.descrs[d].queue + [jb])],
       chs := s.chs[jb.ch := s.chs[jb.ch].(job := InQueue(d, jb))])
  }

  /** `dequeueJobFromThrDescriptor`: without a registered thread the job is lost
      and its submitter never returns. */
  function SubmitDelete(s: State, jb: Job): State
    requires jb.ch < |s.chs|
    requires forall p :: p in s.thrMap ==> s.thrMap[p] < |s.descrs|
  {
    var period := s.chs[jb.ch].period;
    if period in s.thrMap then AddJob(s, s.thrMap[period], jb) else s
  }

  // ---- what jobs do to a channel ------------------------------------------

  /** The counter is taken and added to the total. */
  function Flushed(ch: Channel): Channel {
    ch.(ctr := 0, total := ch.total + ch.ctr)
  }

  /** Report skipped intervals, if any. */
  function ReportSkipped(ch: Channel): Channel {
    if ch.skipped > 0 then ch.(file := ch.file + [Skipped(ch.skipped)], skipped := 0) else ch
  }

  function Print(ch: Channel, line: Line): Channel { ch.(file := ch.file + [line]) }

  function Completed(ch: Channel): Channel {
    ch.(job := Nowhere, api := if ch.api.Waiting? then ch.api.after else ch.api)
  }

  function Inserted(ch: Channel, d: nat): Channel {
    var ch1 := if ch.headerLogged then ch else Print(ch, Header).(headerLogged := true);
    Completed(Print(Flushed(ch1), Start(ch.ctr)).(owner := Some(d)))
  }

  function MovedAway(ch: Channel, d: nat, jb: Job): Channel {
    Print(ReportSkipped(Flushed(ch)), Truncated(ch.ctr)).(
      period := jb.target, owner := None, job := InHand(d, jb.(kind := Insert)))
  }

  function Deleted(ch: Channel): Channel {
    var ch1 := Print(ReportSkipped(Flushed(ch)), Truncated(ch.ctr));
    Completed(Print(ch1, Final(ch1.total)).(owner := None))
  }

  // ---- sampling -----------------------------------------------------------

  function Sampled(ch: Channel): Channel { ch.(sampled := ch.ctr, ctr := 0) }

  /** One interval of the channel is over. */
  function Processed(ch: Channel): Channel {
    var ch1 := ch.(rounds := ch.rounds + 1);
    if ch.sampled == 0 then ch1.(skipped := ch.skipped + 1)
    else Print(ReportSkipped(ch1.(total := ch.total + ch.sampled)), Sample(ch.sampled))
  }

  predicate IsLeast(t: set<nat>, x: nat) {
    x in t && forall y :: y in t ==> x <= y
  }

  lemma {:induction false} LeastExists(t: set<nat>) returns (m: nat)
    requires t != {}
    ensures IsLeast(t, m)
    decreases |t|
  {
    var x :| x in t;
    var rest := t - {x};
    m := x;
    if rest != {} {
      var r := LeastExists(rest);
      if r < x { m := r; }
      forall y | y in t ensures m <= y { assert y == x || y in rest; }
    } else {
      forall y | y in t ensures m <= y { assert y !in rest; }
    }
  }

  /** Closures are visited in the order of their channel numbers. */
  ghost function Least(t: set<nat>): (x: nat)
    requires t != {}
    ensures IsLeast(t, x)
  {
    assert exists x :: IsLeast(t, x) by { var m := LeastExists(t); }
    var x :| IsLeast(t, x);
    x
  }

  // ---- a sampling thread --------------------------------------------------

  function SetPc(s: State, d: nat, pc: Pc): State
    requires d < |s.descrs|
  {
    s.(descrs := s.descrs[d := s.descrs[d].(pc := pc)])
  }

  predicate ChannelsExist(s: State, d: nat)
    requires d < |s.descrs|
  {
    var ds := s.descrs[d];
    && (forall c :: c in ds.closures ==> c < |s.chs|)
    && (forall jb :: jb in ds.queue ==> jb.ch < |s.chs|)
    && (match ds.pc
        case Sampling(todo, _) => todo <= ds.closures
        case Processing(todo) => todo <= ds.closures
        case Executing(jb, _) => jb.ch < |s.chs|
        case Forwarding(jb, _) => jb.ch < |s.chs|
        case _ => true)
  }

  predicate MapInRange(s: State) {
    forall p :: p in s.thrMap ==> s.thrMap[p] < |s.descrs|
  }

  ghost predicate ThreadEnabled(s: State, d: nat) {
    && d < |s.descrs| && !s.descrs[d].pc.Terminated?
    && ChannelsExist(s, d) && MapInRange(s)
    && (s.descrs[d].pc.Jobs? && s.descrs[d].pc.left > 0 ==> s.descrs[d].queue != [])
  }

  /** One job taken from the queue is executed. */
  function Execute(s: State, d: nat, jb: Job, left: nat): State
    requires d < |s.descrs| && jb.ch < |s.chs|
  {
    var ds := s.descrs[d];
    var ch := s.chs[jb.ch];
    match jb.kind
    case Insert =>
      s.(chs := s.chs[jb.ch := Inserted(ch, d)],
         descrs := s.descrs[d := ds.(closures := ds.closures + {jb.ch}, pc := Jobs(left))])
    case Move =>
      if jb.ch in ds.closures then
        s.(chs := s.chs[jb.ch := MovedAway(ch, d, jb)],
           descrs := s.descrs[d := ds.(closures := ds.closures - {jb.ch}, pc := Forwarding(jb.(kind := Insert), left))])
      else
        SetPc(s, d, Jobs(left)).(chs := s.chs[jb.ch := Completed(ch)])
    case Delete =>
      s.(chs := s.chs[jb.ch := Deleted(ch)],
         descrs := s.descrs[d := ds.(closures := ds.closures - {jb.ch}, pc := Jobs(left))])
  }

  /** `removeThrDescriptor`, under the mutex of the thread map. */
  function Remove(s: State, d: nat): State
    requires d < |s.descrs| && MapInRange(s)
  {
    var period := s.descrs[d].period;
    if period !in s.thrMap then SetPc(s, d, Resting)
    else if s.descrs[s.thrMap[period]].queue != [] then SetPc(s, d, Resting)
    else if s.descrs[s.thrMap[period]].closures != {} then SetPc(s, d, Resting)
    else SetPc(s, d, Terminated).(thrMap := s.thrMap - {period})
  }

  ghost function ThreadStep(s: State, d: nat, due: bool): State
    requires ThreadEnabled(s, d)
  {
    var ds := s.descrs[d];
    match ds.pc
    case Sampling(todo, done) =>
      if todo == {} then SetPc(s, d, Processing(ds.closures))
      else
        var c := Least(todo);
        SetPc(s, d, Sampling(todo - {c}, done + {c})).(chs := s.chs[c := Sampled(s.chs[c])])
    case Processing(todo) =>
      if todo == {} then SetPc(s, d, JobsStart)
      else
        var c := Least(todo);
        SetPc(s, d, Processing(todo - {c})).(chs := s.chs[c := Processed(s.chs[c])])
    case JobsStart => SetPc(s, d, Jobs(|ds.queue|))
    case Jobs(left) =>
      if left == 0 then SetPc(s, d, CheckOpen)
      else
        var jb := ds.queue[0];
        s.(descrs := s.descrs[d := ds.(queue := ds.queue[1..], pc := Executing(jb, left - 1))],
           chs := s.chs[jb.ch := s.chs[jb.ch].(job := InHand(d, jb))])
    case Executing(jb, left) => Execute(s, d, jb, left)
    case Forwarding(jb, left) => Submit(SetPc(s, d, Jobs(left)), jb)
    case CheckOpen => SetPc(s, d, if ds.period == FPC_DEFAULT_PERIOD && s.nrOpen == 0 then Removing else CheckQueue)
    case CheckQueue => SetPc(s, d, if ds.queue == [] && ds.closures == {} then Removing else Resting)
    case Removing => Remove(s, d)
    case Resting => SetPc(s, d, if due then Sampling(ds.closures, {}) else JobsStart)
  }

  // ---- steps and runs -----------------------------------------------------

  /** A channel takes events from its opening until it is closed. */
  predicate Listening(ch: Channel) {
    !ch.api.Unopened? && !ch.api.Closed? && !(ch.api.Waiting? && ch.api.after.Closed? && ch.api.kind.Move?)
  }

  ghost predicate Enabled(s: State, a: Step) {
    match a
    case StepOpen(c) => c < |s.chs| && s.chs[c].api.Unopened?
    case StepOpenSubmit(c) => c < |s.chs| && s.chs[c].api.Opening? && MapInRange(s)
    case StepSetArg(c, value) => c < |s.chs| && (s.chs[c].api.Idle? || s.chs[c].api.Closed?) && MapInRange(s)
    case StepClose(c) => c < |s.chs| && s.chs[c].api.Idle?
    case StepCloseSubmit(c) => c < |s.chs| && s.chs[c].api.Closing? && MapInRange(s)
    case StepLog(c) => c < |s.chs| && Listening(s.chs[c])
    case StepThread(d, due) => ThreadEnabled(s, d)
  }

  function SetApi(s: State, c: nat, api: Api): State
    requires c < |s.chs|
  {
    s.(chs := s.chs[c := s.chs[c].(api := api)])
  }

  ghost function Next(s: State, a: Step): State
    requires Enabled(s, a)
  {
    match a
    case StepOpen(c) => SetApi(s, c, Opening).(nrOpen := s.nrOpen + 1)
    case StepOpenSubmit(c) => Submit(SetApi(s, c, Waiting(Insert, Idle)), Job(Insert, c, 0))
    case StepSetArg(c, value) => Submit(SetApi(s, c, Waiting(Move, s.chs[c].api)), Job(Move, c, value))
    case StepClose(c) => SetApi(s, c, Closing).(nrOpen := s.nrOpen - 1)
    case StepCloseSubmit(c) => SubmitDelete(SetApi(s, c, Waiting(Delete, Closed)), Job(Delete, c, 0))
    case StepLog(c) => s.(chs := s.chs[c := s.chs[c].(ctr := s.chs[c].ctr + 1, calls := s.chs[c].calls + 1)])
    case StepThread(d, due) => ThreadStep(s, d, due)
  }

  ghost predicate Legal(s: State, run: seq<Step>)
    decreases |run|
  {
    run == [] || (Enabled(s, run[0]) && Legal(Next(s, run[0]), run[1..]))
  }

  ghost function Exec(s: State, run: seq<Step>): State
    requires Legal(s, run)
    decreases |run|
  {
    if run == [] then s else Exec(Next(s, run[0]), run[1..])
  }

  ghost predicate Reachable(n: nat, s: State) {
    exists run :: Legal(Init(n), run) && Exec(Init(n), run) == s
  }
}
