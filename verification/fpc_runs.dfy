/** Two runs of the sampling protocol that its comments do not expect: removal of a
    thread can find that channels are left, and the thread of the default period
    can end although a channel is open.  Neither breaks the invariant: the first
    only reports an error, and a later job simply creates the thread again. */
module FpcRuns {
  import opened Base
  import opened FpcModel
  import opened FpcProtocol

  lemma {:induction false} RunThen(s: State, run: seq<Step>, a: Step)
    requires Legal(s, run) && Enabled(Exec(s, run), a)
    ensures Legal(s, run + [a]) && Exec(s, run + [a]) == Next(Exec(s, run), a)
    decreases |run|
  {
    if run == [] {
      assert run + [a] == [a] && [a][1..] == [];
      assert Legal(Next(s, a), [a][1..]);
    } else {
      assert (run + [a])[1..] == run[1..] + [a];
      RunThen(Next(s, run[0]), run[1..], a);
    }
  }

  /** Take one step of a reachable run with one channel. */
  lemma Take(s: State, a: Step) returns (s': State)
    requires Reachable(1, s) && Enabled(s, a)
    ensures Reachable(1, s') && s' == Next(s, a)
  {
    var run :| Legal(Init(1), run) && Exec(Init(1), run) == s;
    RunThen(Init(1), run, a);
    s' := Next(s, a);
  }

  /** One channel, and the thread of the default period. */
  predicate Alone(s: State, pc: Pc, queue: seq<Job>, closures: set<nat>) {
    && |s.chs| == 1 && s.descrs == [Descr(FPC_DEFAULT_PERIOD, closures, queue, pc)]
    && s.thrMap == map[FPC_DEFAULT_PERIOD := 0] && s.nrOpen == 1
    && s.chs[0].period == FPC_DEFAULT_PERIOD
  }

  /** The thread moves on from `pc` without touching the channel. */
  lemma Tick(s: State, pc: Pc, queue: seq<Job>, closures: set<nat>, pc': Pc) returns (s': State)
    requires Reachable(1, s) && Alone(s, pc, queue, closures) && !pc.Terminated?
    requires ThreadEnabled(s, 0) ==> ThreadStep(s, 0, false) == SetPc(s, 0, pc')
    ensures Reachable(1, s') && Alone(s', pc', queue, closures) && s'.chs == s.chs
  {
    ThreadsNeverStuck(1, s, 0);
    s' := Take(s, StepThread(0, false));
  }

  /** The thread takes its only job. */
  lemma TakeJob(s: State, jb: Job, closures: set<nat>) returns (s': State)
    requires Reachable(1, s) && Alone(s, Jobs(1), [jb], closures) && jb.ch == 0
    ensures Reachable(1, s') && Alone(s', Executing(jb, 0), [], closures)
    ensures s'.chs == [s.chs[0].(job := InHand(0, jb))]
  {
    ThreadsNeverStuck(1, s, 0);
    assert [jb][1..] == [];
    s' := Take(s, StepThread(0, false));
    assert s'.descrs[0] == s.descrs[0].(queue := [], pc := Executing(jb, 0));
  }

  /** A channel being opened has submitted its INSERT job. */
  lemma Submitted() returns (s: State)
    ensures Reachable(1, s) && Alone(s, Sampling({}, {}), [Job(Insert, 0, 0)], {})
    ensures s.chs[0].api == Waiting(Insert, Idle)
  {
    assert Legal(Init(1), []) && Exec(Init(1), []) == Init(1);
    assert Init(1).chs == [NewChannel()];
    var s1 := Take(Init(1), StepOpen(0));
    s := Take(s1, StepOpenSubmit(0));
  }

  /** The channel was opened, and its thread has inserted it. */
  lemma Opened() returns (s: State)
    ensures Reachable(1, s) && Alone(s, CheckOpen, [], {0}) && s.chs[0].api == Idle
  {
    var jb := Job(Insert, 0, 0);
    var s0 := Submitted();
    var s1 := Tick(s0, Sampling({}, {}), [jb], {}, Processing({}));
    var s2 := Tick(s1, Processing({}), [jb], {}, JobsStart);
    var s3 := Tick(s2, JobsStart, [jb], {}, Jobs(1));
    var s4 := TakeJob(s3, jb, {});
    var s5 := InsertStep(s4);
    s := Tick(s5, Jobs(0), [], {0}, CheckOpen);
  }

  lemma InsertStep(s: State) returns (s': State)
    requires Reachable(1, s) && Alone(s, Executing(Job(Insert, 0, 0), 0), [], {})
    requires s.chs[0].api == Waiting(Insert, Idle)
    ensures Reachable(1, s') && Alone(s', Jobs(0), [], {0}) && s'.chs[0].api == Idle
  {
    ThreadsNeverStuck(1, s, 0);
    s' := Take(s, StepThread(0, false));
    assert s'.descrs[0] == Descr(FPC_DEFAULT_PERIOD, {0}, [], Jobs(0));
  }

  /** Closing the last channel lets its thread try to remove itself before the
      DELETE job is submitted: removal then reports remaining closures. */
  lemma RemovalCanFindClosures() returns (s: State)
    ensures Reachable(1, s) && |s.descrs| == 1 && s.descrs[0].pc == Removing
    ensures s.descrs[0].queue == [] && s.descrs[0].closures != {} && s.nrOpen == 0
  {
    var s1 := Opened();
    var s2 := Take(s1, StepClose(0));
    ThreadsNeverStuck(1, s2, 0);
    s := Take(s2, StepThread(0, false));
  }

  lemma MoveSubmitted() returns (s: State)
    ensures Reachable(1, s) && Alone(s, CheckOpen, [Job(Move, 0, 5)], {0})
  {
    var s0 := Opened();
    s := Take(s0, StepSetArg(0, 5));
    assert [] + [Job(Move, 0, 5)] == [Job(Move, 0, 5)];
    assert s.descrs[0] == Descr(FPC_DEFAULT_PERIOD, {0}, [Job(Move, 0, 5)], CheckOpen);
  }

  /** A job to move the channel to another period is in the hand of its thread. */
  lemma MoveTaken() returns (s: State)
    ensures Reachable(1, s) && Alone(s, Executing(Job(Move, 0, 5), 0), [], {0})
  {
    var jb := Job(Move, 0, 5);
    var s1 := MoveSubmitted();
    var s2 := Tick(s1, CheckOpen, [jb], {0}, CheckQueue);
    var s3 := Tick(s2, CheckQueue, [jb], {0}, Resting);
    var s4 := Tick(s3, Resting, [jb], {0}, JobsStart);
    var s5 := Tick(s4, JobsStart, [jb], {0}, Jobs(1));
    s := TakeJob(s5, jb, {0});
  }

  /** Moving the only channel away ends the thread of the default period, although
      a channel is open. */
  lemma DefaultThreadEnds() returns (s: State)
    ensures Reachable(1, s) && s.nrOpen == 1 && |s.descrs| == 2
    ensures s.descrs[0].period == FPC_DEFAULT_PERIOD && s.descrs[0].pc.Terminated?
  {
    var s0 := MoveTaken();
    ThreadsNeverStuck(1, s0, 0);
    var s1 := Take(s0, StepThread(0, false));
    assert s1.descrs[0] == Descr(FPC_DEFAULT_PERIOD, {}, [], Forwarding(Job(Insert, 0, 5), 0)) && s1.chs[0].period == 5;
    ThreadsNeverStuck(1, s1, 0);
    var s2 := Take(s1, StepThread(0, false));
    s := Ending(s2);
  }

  /** A default thread without jobs and channels terminates. */
  lemma Ending(s: State) returns (s': State)
    requires Reachable(1, s) && s.nrOpen == 1 && |s.descrs| == 2
    requires s.descrs[0] == Descr(FPC_DEFAULT_PERIOD, {}, [], Jobs(0))
    ensures Reachable(1, s') && s'.nrOpen == 1 && |s'.descrs| == 2
    ensures s'.descrs[0] == Descr(FPC_DEFAULT_PERIOD, {}, [], Terminated)
  {
    ThreadsNeverStuck(1, s, 0);
    var s1 := Take(s, StepThread(0, false));
    ThreadsNeverStuck(1, s1, 0);
    var s2 := Take(s1, StepThread(0, false));
    ThreadsNeverStuck(1, s2, 0);
    var s3 := Take(s2, StepThread(0, false));
    ThreadsNeverStuck(1, s3, 0);
    MapIsExact(1, s3);
    s' := Take(s3, StepThread(0, false));
  }
}
