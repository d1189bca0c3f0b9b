/** The loops of a sampling thread as runs of the transition system in which only
    that thread takes steps: what they compute, and that they come to an end. */
module FpcLoops {
  import opened Base
  import opened FpcModel
  import opened FpcProtocol

  /** Steps of thread d alone, before the flush is due. */
  function Alone(d: nat, k: nat): seq<Step> { seq(k, i => StepThread(d, false)) }

  lemma {:induction false} RunConcat(s: State, a: seq<Step>, b: seq<Step>)
    requires Legal(s, a) && Legal(Exec(s, a), b)
    ensures Legal(s, a + b) && Exec(s, a + b) == Exec(Exec(s, a), b)
    decreases |a|
  {
    if a == [] {
      assert a + b == b;
    } else {
      assert (a + b)[1..] == a[1..] + b;
      RunConcat(Next(s, a[0]), a[1..], b);
    }
  }

  /** One step, and then k more. */
  lemma AloneNext(s: State, d: nat, k: nat)
    requires ThreadEnabled(s, d) && Legal(ThreadStep(s, d, false), Alone(d, k))
    ensures Legal(s, Alone(d, k + 1))
    ensures Exec(s, Alone(d, k + 1)) == Exec(ThreadStep(s, d, false), Alone(d, k))
  {
    assert Alone(d, k + 1)[0] == StepThread(d, false) && Alone(d, k + 1)[1..] == Alone(d, k);
  }

  lemma AloneZero(s: State, d: nat)
    ensures Legal(s, Alone(d, 0)) && Exec(s, Alone(d, 0)) == s
  {
    assert Alone(d, 0) == [];
  }

  // ---- runs of one thread -------------------------------------------------

  /** k steps of the thread alone lead from one state to the other. */
  ghost predicate RunsTo(s: State, d: nat, k: nat, r: State) {
    Legal(s, Alone(d, k)) && Exec(s, Alone(d, k)) == r
  }

  lemma RunsZero(s: State, d: nat)
    ensures RunsTo(s, d, 0, s)
  {
    AloneZero(s, d);
  }

  lemma RunsOne(s: State, d: nat)
    requires ThreadEnabled(s, d)
    ensures RunsTo(s, d, 1, ThreadStep(s, d, false))
  {
    AloneZero(ThreadStep(s, d, false), d);
    AloneNext(s, d, 0);
  }

  lemma RunsThen(s: State, d: nat, k: nat, s1: State, m: nat, s2: State)
    requires RunsTo(s, d, k, s1) && RunsTo(s1, d, m, s2)
    ensures RunsTo(s, d, k + m, s2)
  {
    RunConcat(s, Alone(d, k), Alone(d, m));
    assert Alone(d, k + m) == Alone(d, k) + Alone(d, m);
  }

  // ---- sampling and processing --------------------------------------------

  /** Some channels, each changed by itself. */
  function Changed(chs: seq<Channel>, at: set<nat>, f: Channel -> Channel): (r: seq<Channel>)
    ensures |r| == |chs|
  {
    seq(|chs|, c requires 0 <= c < |chs| => if c in at then f(chs[c]) else chs[c])
  }

  lemma ChangedStep(chs: seq<Channel>, at: set<nat>, f: Channel -> Channel, c: nat)
    requires c < |chs| && c in at
    ensures Changed(chs[c := f(chs[c])], at - {c}, f) == Changed(chs, at, f)
  {
  }

  lemma ChangedNone(chs: seq<Channel>, f: Channel -> Channel)
    ensures Changed(chs, {}, f) == chs
  {
  }

  /** The state after the first loop of a round, and after the second. */
  function SampleEnd(s: State, d: nat, todo: set<nat>): State
    requires d < |s.descrs|
  {
    SetPc(s, d, Processing(s.descrs[d].closures)).(chs := Changed(s.chs, todo, Sampled))
  }

  function ProcessEnd(s: State, d: nat, todo: set<nat>): State
    requires d < |s.descrs|
  {
    SetPc(s, d, JobsStart).(chs := Changed(s.chs, todo, Processed))
  }

  /** One channel is visited. */
  function Visited(s: State, d: nat, pc: Pc, c: nat, ch: Channel): State
    requires d < |s.descrs| && c < |s.chs|
  {
    SetPc(s, d, pc).(chs := s.chs[c := ch])
  }

  lemma VisitEnds(s: State, d: nat, pc: Pc, c: nat, todo: set<nat>)
    requires d < |s.descrs| && c < |s.chs| && c in todo
    ensures SampleEnd(Visited(s, d, pc, c, Sampled(s.chs[c])), d, todo - {c}) == SampleEnd(s, d, todo)
    ensures ProcessEnd(Visited(s, d, pc, c, Processed(s.chs[c])), d, todo - {c}) == ProcessEnd(s, d, todo)
  {
    ChangedStep(s.chs, todo, Sampled, c);
    ChangedStep(s.chs, todo, Processed, c);
  }

  lemma SampleTurn(s: State, d: nat) returns (s': State, c: nat)
    requires Inv(s) && d < |s.descrs| && s.descrs[d].pc.Sampling? && s.descrs[d].pc.todo != {}
    ensures var pc := s.descrs[d].pc;
      && c in pc.todo && c < |s.chs| && Inv(s') && RunsTo(s, d, 1, s')
      && s' == Visited(s, d, Sampling(pc.todo - {c}, pc.done + {c}), c, Sampled(s.chs[c]))
  {
    RunningIsEnabled(s, d);
    ThreadKeeps(s, d, false);
    RunsOne(s, d);
    s', c := ThreadStep(s, d, false), Least(s.descrs[d].pc.todo);
  }

  lemma ProcessTurn(s: State, d: nat) returns (s': State, c: nat)
    requires Inv(s) && d < |s.descrs| && s.descrs[d].pc.Processing? && s.descrs[d].pc.todo != {}
    ensures var pc := s.descrs[d].pc;
      && c in pc.todo && c < |s.chs| && Inv(s') && RunsTo(s, d, 1, s')
      && s' == Visited(s, d, Processing(pc.todo - {c}), c, Processed(s.chs[c]))
  {
    RunningIsEnabled(s, d);
    ThreadKeeps(s, d, false);
    RunsOne(s, d);
    s', c := ThreadStep(s, d, false), Least(s.descrs[d].pc.todo);
  }

  lemma LastTurns(s: State, d: nat)
    requires Inv(s) && d < |s.descrs|
    ensures s.descrs[d].pc.Sampling? && s.descrs[d].pc.todo == {} ==> RunsTo(s, d, 1, SampleEnd(s, d, {}))
    ensures s.descrs[d].pc.Processing? && s.descrs[d].pc.todo == {} ==> RunsTo(s, d, 1, ProcessEnd(s, d, {}))
  {
    RunningIsEnabled(s, d);
    ChangedNone(s.chs, Sampled);
    ChangedNone(s.chs, Processed);
    if !s.descrs[d].pc.Terminated? { RunsOne(s, d); }
  }

  /** The first loop so far: a run of the thread alone, towards the same end. */
  ghost predicate InSampling(s: State, d: nat, k: nat, r: State, end: State) {
    && Inv(r) && RunsTo(s, d, k, r) && d < |r.descrs| && r.descrs[d].pc.Sampling?
    && SampleEnd(r, d, r.descrs[d].pc.todo) == end
  }

  ghost predicate InProcessing(s: State, d: nat, k: nat, r: State, end: State) {
    && Inv(r) && RunsTo(s, d, k, r) && d < |r.descrs| && r.descrs[d].pc.Processing?
    && ProcessEnd(r, d, r.descrs[d].pc.todo) == end
  }

  lemma NextSample(s: State, d: nat, k: nat, r: State, end: State) returns (r': State)
    requires InSampling(s, d, k, r, end) && r.descrs[d].pc.todo != {}
    ensures InSampling(s, d, k + 1, r', end) && |r'.descrs[d].pc.todo| == |r.descrs[d].pc.todo| - 1
  {
    var todo := r.descrs[d].pc.todo;
    var c: nat;
    r', c := SampleTurn(r, d);
    VisitEnds(r, d, r'.descrs[d].pc, c, todo);
    RunsThen(s, d, k, r, 1, r');
  }

  lemma NextProcess(s: State, d: nat, k: nat, r: State, end: State) returns (r': State)
    requires InProcessing(s, d, k, r, end) && r.descrs[d].pc.todo != {}
    ensures InProcessing(s, d, k + 1, r', end) && |r'.descrs[d].pc.todo| == |r.descrs[d].pc.todo| - 1
  {
    var todo := r.descrs[d].pc.todo;
    var c: nat;
    r', c := ProcessTurn(r, d);
    VisitEnds(r, d, r'.descrs[d].pc, c, todo);
    RunsThen(s, d, k, r, 1, r');
  }

  lemma SamplingEnds(s: State, d: nat, k: nat, r: State, end: State)
    requires InSampling(s, d, k, r, end) && r.descrs[d].pc.todo == {}
    ensures RunsTo(s, d, k + 1, end)
  {
    LastTurns(r, d);
    RunsThen(s, d, k, r, 1, end);
  }

  lemma ProcessingEnds(s: State, d: nat, k: nat, r: State, end: State)
    requires InProcessing(s, d, k, r, end) && r.descrs[d].pc.todo == {}
    ensures RunsTo(s, d, k + 1, end)
  {
    LastTurns(r, d);
    RunsThen(s, d, k, r, 1, end);
  }

  /** The first loop of a round is a run of the thread alone: its channels are
      sampled, one step each, and no other changes. */
  lemma SampleRun(s: State, d: nat)
    requires Inv(s) && d < |s.descrs| && s.descrs[d].pc.Sampling?
    ensures var todo := s.descrs[d].pc.todo; RunsTo(s, d, |todo| + 1, SampleEnd(s, d, todo))
  {
    var todo := s.descrs[d].pc.todo;
    var end := SampleEnd(s, d, todo);
    var r, k := s, 0;
    RunsZero(s, d);
    while r.descrs[d].pc.todo != {}
      invariant InSampling(s, d, k, r, end) && k + |r.descrs[d].pc.todo| == |todo|
      decreases |r.descrs[d].pc.todo|
    {
      var r' := NextSample(s, d, k, r, end);
      r, k := r', k + 1;
    }
    SamplingEnds(s, d, k, r, end);
  }

  /** The second loop: the samples are recorded. */
  lemma ProcessRun(s: State, d: nat)
    requires Inv(s) && d < |s.descrs| && s.descrs[d].pc.Processing?
    ensures var todo := s.descrs[d].pc.todo; RunsTo(s, d, |todo| + 1, ProcessEnd(s, d, todo))
  {
    var todo := s.descrs[d].pc.todo;
    var end := ProcessEnd(s, d, todo);
    var r, k := s, 0;
    RunsZero(s, d);
    while r.descrs[d].pc.todo != {}
      invariant InProcessing(s, d, k, r, end) && k + |r.descrs[d].pc.todo| == |todo|
      decreases |r.descrs[d].pc.todo|
    {
      var r' := NextProcess(s, d, k, r, end);
      r, k := r', k + 1;
    }
    ProcessingEnds(s, d, k, r, end);
  }

  // ---- the job loop -------------------------------------------------------

  /** The thread is about to take a job. */
  ghost predicate AtNextJob(s: State, d: nat) {
    Inv(s) && d < |s.descrs| && s.descrs[d].pc.Jobs? && s.descrs[d].pc.left > 0
  }

  /** All but the histories of the caller's and the job's whereabouts. */
  predicate SameFields(a: Channel, b: Channel) { a.(job := b.job, api := b.api) == b }

  /** The channels have the same fields, and the thread the same channels. */
  predicate SameWork(s: State, r: State, d: nat) {
    && |r.chs| == |s.chs| && d < |s.descrs| && d < |r.descrs| && r.descrs[d].closures == s.descrs[d].closures
    && forall c :: 0 <= c < |s.chs| ==> SameFields(s.chs[c], r.chs[c])
  }

  lemma NextJob(s: State, d: nat)
    requires AtNextJob(s, d)
    ensures ThreadEnabled(s, d) && s.descrs[d].pc.left <= |s.descrs[d].queue| && s.descrs[d].queue[0].ch < |s.chs|
    ensures forall i :: 0 < i < |s.descrs[d].queue| ==> s.descrs[d].queue[i].ch != s.descrs[d].queue[0].ch
  {
    assert PcOk(s.descrs[d]) && QueueOk(s.chs, d, s.descrs[d]) && s.descrs[d].queue[0] in s.descrs[d].queue;
    RunningIsEnabled(s, d);
  }

  /** Only the channel of the job changes. */
  predicate OnlyAt(s: State, r: State, c: nat) {
    |r.chs| == |s.chs| && forall x: nat :: x < |s.chs| && x != c ==> r.chs[x] == s.chs[x]
  }

  /** The job is taken from the queue. */
  lemma TakeTurn(s: State, d: nat) returns (s1: State)
    requires AtNextJob(s, d)
    ensures s.descrs[d].queue != [] && Inv(s1) && RunsTo(s, d, 1, s1) && SameWork(s, s1, d)
    ensures s1.descrs[d].pc == Executing(s.descrs[d].queue[0], s.descrs[d].pc.left - 1)
    ensures s1.descrs[d].queue == s.descrs[d].queue[1..] && OnlyAt(s, s1, s.descrs[d].queue[0].ch)
  {
    NextJob(s, d);
    ThreadKeeps(s, d, false);
    RunsOne(s, d);
    s1 := ThreadStep(s, d, false);
  }

  /** What executing a job leaves of the thread's queue and of other channels. */
  lemma ExecuteFrame(s: State, d: nat, jb: Job, left: nat)
    requires d < |s.descrs| && jb.ch < |s.chs|
    ensures var r := Execute(s, d, jb, left);
      && d < |r.descrs| && r.descrs[d].queue == s.descrs[d].queue && OnlyAt(s, r, jb.ch)
      && r.descrs[d].pc == (if jb.kind.Move? && jb.ch in s.descrs[d].closures then Forwarding(jb.(kind := Insert), left)
                            else Jobs(left))
  {
  }

  /** The job is executed. */
  lemma ExecuteTurn(s: State, d: nat, jb: Job, left: nat) returns (s2: State)
    requires Inv(s) && d < |s.descrs| && s.descrs[d].pc == Executing(jb, left)
    ensures jb.ch < |s.chs| && s2 == Execute(s, d, jb, left) && Inv(s2) && RunsTo(s, d, 1, s2)
  {
    RunningIsEnabled(s, d);
    ThreadKeeps(s, d, false);
    RunsOne(s, d);
    s2 := ThreadStep(s, d, false);
  }

  /** A job that is handed on is submitted to the thread of its new period. */
  lemma ForwardTurn(s: State, d: nat, jb: Job, left: nat) returns (r: State)
    requires Inv(s) && d < |s.descrs| && s.descrs[d].pc == Forwarding(jb, left)
    ensures Inv(r) && RunsTo(s, d, 1, r) && SameWork(s, r, d)
    ensures r.descrs[d].pc == Jobs(left) && s.descrs[d].queue <= r.descrs[d].queue && OnlyAt(s, r, jb.ch)
    ensures jb.ch < |r.chs| && r.chs[jb.ch].job.InQueue? && r.chs[jb.ch].job.job == jb
  {
    RunningIsEnabled(s, d);
    ThreadKeeps(s, d, false);
    RunsOne(s, d);
    r := ThreadStep(s, d, false);
    var s1 := SetPc(s, d, Jobs(left));
    SubmitKeepsPc(s1, jb, d);
    var e := SubmitChannel(s1, jb);
  }

  lemma SubmitKeepsPc(s: State, jb: Job, d: nat)
    requires jb.ch < |s.chs| && MapInRange(s) && d < |s.descrs|
    ensures var r := Submit(s, jb);
      && d < |r.descrs| && r.descrs[d].pc == s.descrs[d].pc && r.descrs[d].closures == s.descrs[d].closures
      && |r.chs| == |s.chs| && s.descrs[d].queue <= r.descrs[d].queue
  {
  }

  /** The channel's job is in some queue, and not among the next `left` ones of
      thread d. */
  predicate Settled(s: State, d: nat, left: nat, jb: Job) {
    && jb.ch < |s.chs| && s.chs[jb.ch].job.InQueue? && s.chs[jb.ch].job.job == jb
    && d < |s.descrs| && left <= |s.descrs[d].queue|
    && forall i :: 0 <= i < left ==> s.descrs[d].queue[i].ch != jb.ch
  }

  predicate AllSettled(s: State, d: nat, left: nat, jobs: seq<Job>) {
    forall i :: 0 <= i < |jobs| ==> Settled(s, d, left, jobs[i])
  }

  /** One turn of the loop.  `s1` and `s2` are the states after taking and after
      executing the job. */
  ghost predicate IsTurn(s: State, d: nat, s1: State, s2: State, r: State, k: nat, moved: seq<Job>) {
    && AtNextJob(s, d) && 0 < s.descrs[d].pc.left <= |s.descrs[d].queue|
    && var jb, left := s.descrs[d].queue[0], s.descrs[d].pc.left - 1;
       && SameWork(s, s1, d) && jb.ch < |s1.chs| && s2 == Execute(s1, d, jb, left) && SameWork(s2, r, d)
       && moved == (if jb.kind.Move? && jb.ch in s.descrs[d].closures then [jb.(kind := Insert)] else [])
       && Inv(r) && r.descrs[d].pc == Jobs(left) && s.descrs[d].queue[1..] <= r.descrs[d].queue
       && OnlyAt(s, r, jb.ch) && RunsTo(s, d, k, r) && AllSettled(r, d, left, moved)
  }

  /** A job that stays with the thread's own channels. */
  lemma PlainTurn(s: State, d: nat, s1: State, s2: State)
    requires AtNextJob(s, d) && 0 < s.descrs[d].pc.left <= |s.descrs[d].queue|
    requires var jb, left := s.descrs[d].queue[0], s.descrs[d].pc.left - 1;
      && SameWork(s, s1, d) && s1.descrs[d].queue == s.descrs[d].queue[1..] && OnlyAt(s, s1, jb.ch)
      && jb.ch < |s1.chs| && s2 == Execute(s1, d, jb, left) && Inv(s2) && RunsTo(s, d, 2, s2)
      && !(jb.kind.Move? && jb.ch in s.descrs[d].closures)
    ensures IsTurn(s, d, s1, s2, s2, 2, [])
  {
    ExecuteFrame(s1, d, s.descrs[d].queue[0], s.descrs[d].pc.left - 1);
  }

  /** A job that moves a channel away. */
  lemma MovingTurn(s: State, d: nat, s1: State, s2: State) returns (r: State)
    requires AtNextJob(s, d) && 0 < s.descrs[d].pc.left <= |s.descrs[d].queue|
    requires var jb, left := s.descrs[d].queue[0], s.descrs[d].pc.left - 1;
      && SameWork(s, s1, d) && s1.descrs[d].queue == s.descrs[d].queue[1..] && OnlyAt(s, s1, jb.ch)
      && jb.ch < |s1.chs| && s2 == Execute(s1, d, jb, left) && Inv(s2) && RunsTo(s, d, 2, s2)
      && jb.kind.Move? && jb.ch in s.descrs[d].closures
    ensures IsTurn(s, d, s1, s2, r, 3, [s.descrs[d].queue[0].(kind := Insert)])
  {
    var q := s.descrs[d].queue;
    var jb, left := q[0], s.descrs[d].pc.left - 1;
    NextJob(s, d);
    ExecuteFrame(s1, d, jb, left);
    r := ForwardTurn(s2, d, jb.(kind := Insert), left);
    RunsThen(s, d, 2, s2, 1, r);
    NotNext(q, r.descrs[d].queue, left);
  }

  lemma Turn(s: State, d: nat) returns (s1: State, s2: State, r: State, k: nat, moved: seq<Job>)
    requires AtNextJob(s, d)
    ensures IsTurn(s, d, s1, s2, r, k, moved)
  {
    NextJob(s, d);
    var jb := s.descrs[d].queue[0];
    s1 := TakeTurn(s, d);
    s2 := ExecuteTurn(s1, d, jb, s.descrs[d].pc.left - 1);
    RunsThen(s, d, 1, s1, 1, s2);
    if jb.kind.Move? && jb.ch in s.descrs[d].closures {
      r := MovingTurn(s, d, s1, s2);
      k, moved := 3, [jb.(kind := Insert)];
    } else {
      PlainTurn(s, d, s1, s2);
      r, k, moved := s2, 2, [];
    }
  }

  /** The jobs that remain of a queue are those behind the first. */
  lemma NotNext(q: seq<Job>, r: seq<Job>, left: nat)
    requires q != [] && q[1..] <= r && left < |q| && forall i :: 0 < i < |q| ==> q[i].ch != q[0].ch
    ensures left <= |r| && forall i :: 0 <= i < left ==> r[i].ch != q[0].ch
  {
    forall i | 0 <= i < left ensures r[i].ch != q[0].ch { assert r[i] == q[1..][i] == q[i + 1]; }
  }

  /** What a turn does not concern stays settled. */
  lemma SettledStays(s: State, d: nat, r: State, left: nat, jb: Job)
    requires Settled(s, d, left + 1, jb) && d < |r.descrs| && s.descrs[d].queue[1..] <= r.descrs[d].queue
    requires OnlyAt(s, r, s.descrs[d].queue[0].ch)
    ensures Settled(r, d, left, jb)
  {
    forall i | 0 <= i < left ensures r.descrs[d].queue[i].ch != jb.ch {
      assert r.descrs[d].queue[i] == s.descrs[d].queue[1..][i] == s.descrs[d].queue[i + 1];
    }
  }

  lemma AllSettledStays(s: State, d: nat, r: State, left: nat, jobs: seq<Job>)
    requires AllSettled(s, d, left + 1, jobs) && d < |s.descrs| && d < |r.descrs| && left < |s.descrs[d].queue|
    requires s.descrs[d].queue[1..] <= r.descrs[d].queue && OnlyAt(s, r, s.descrs[d].queue[0].ch)
    ensures AllSettled(r, d, left, jobs)
  {
    forall i | 0 <= i < |jobs| ensures Settled(r, d, left, jobs[i]) { SettledStays(s, d, r, left, jobs[i]); }
  }

  /** A settled job is in the queue of the registered thread of its channel's period. */
  predicate SubmittedTo(s: State, jb: Job) {
    && jb.ch < |s.chs| && s.chs[jb.ch].period in s.thrMap
    && var e := s.thrMap[s.chs[jb.ch].period];
       e < |s.descrs| && jb in s.descrs[e].queue && s.descrs[e].period == s.chs[jb.ch].period
  }

  lemma SettledIsSubmitted(s: State, d: nat, left: nat, jb: Job)
    requires Inv(s) && Settled(s, d, left, jb)
    ensures SubmittedTo(s, jb)
  {
    var e := s.chs[jb.ch].job.d;
    assert InQueueOk(s.descrs, jb.ch, s.chs[jb.ch]) && QueueOk(s.chs, e, s.descrs[e]);
    assert DescrOk(s.thrMap, e, s.descrs[e]);
  }

  /** The loop so far: a run of the thread alone, with its moved jobs settled. */
  ghost predicate InLoop(s: State, d: nat, k: nat, r: State, moved: seq<Job>) {
    && Inv(r) && RunsTo(s, d, k, r) && d < |r.descrs| && r.descrs[d].pc.Jobs?
    && AllSettled(r, d, r.descrs[d].pc.left, moved)
  }

  lemma LoopBegin(s: State, d: nat)
    requires Inv(s) && d < |s.descrs| && s.descrs[d].pc.Jobs?
    ensures InLoop(s, d, 0, s, [])
  {
    RunsZero(s, d);
  }

  lemma NextTurn(s: State, d: nat, k: nat, r: State, moved: seq<Job>, s1: State, s2: State, r': State, k': nat,
                 moved': seq<Job>)
    requires InLoop(s, d, k, r, moved) && IsTurn(r, d, s1, s2, r', k', moved')
    ensures InLoop(s, d, k + k', r', moved + moved')
  {
    AllSettledStays(r, d, r', r'.descrs[d].pc.left, moved);
    RunsThen(s, d, k, r, k', r');
  }

  lemma LoopEnd(s: State, d: nat, k: nat, r: State, moved: seq<Job>)
    requires InLoop(s, d, k, r, moved)
    ensures forall i :: 0 <= i < |moved| ==> SubmittedTo(r, moved[i])
  {
    forall i | 0 <= i < |moved| ensures SubmittedTo(r, moved[i]) {
      SettledIsSubmitted(r, d, r.descrs[d].pc.left, moved[i]);
    }
  }

  /** The job loop, from the state in which its number of jobs has been read, is a
      finite run of the thread alone; afterwards every job that was handed on is in
      the queue of the registered thread of its channel's new period. */
  lemma JobLoopRun(s: State, d: nat) returns (r: State, k: nat, moved: seq<Job>)
    requires Inv(s) && d < |s.descrs| && s.descrs[d].pc.Jobs?
    ensures InLoop(s, d, k, r, moved) && r.descrs[d].pc == Jobs(0)
    ensures forall i :: 0 <= i < |moved| ==> SubmittedTo(r, moved[i])
  {
    r, k, moved := s, 0, [];
    LoopBegin(s, d);
    while r.descrs[d].pc.left > 0
      invariant InLoop(s, d, k, r, moved)
      decreases r.descrs[d].pc.left
    {
      var s1, s2, r', k', moved' := Turn(r, d);
      NextTurn(s, d, k, r, moved, s1, s2, r', k', moved');
      r, k, moved := r', k + k', moved + moved';
    }
    LoopEnd(s, d, k, r, moved);
  }
}
