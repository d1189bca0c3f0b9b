/** The code of fast periodic counters that one thread executes at a time: the
    handler, the sampling loops and the job loop.  Each method is tied to the
    step of the transition system that stands for it. */
module FpcClosureCode {
  import opened Base
  import opened FpcModel
  import opened FpcProtocol
  import opened FpcLoops

  class FpcClosure {
    var ctr: nat
    var sampledCtr: nat
    var totalCtr: nat
    var periodicIncNs: nat
    var skippedIntervals: nat
    var isHeaderLogged: bool
    var chLogf: seq<Line>

    /** The fields are those of the model's channel. */
    ghost predicate Matches(ch: Channel)
      reads this
    {
      && ctr == ch.ctr && sampledCtr == ch.sampled && totalCtr == ch.total
      && periodicIncNs == ch.period && skippedIntervals == ch.skipped
      && isHeaderLogged == ch.headerLogged && chLogf == ch.file
    }

    constructor ()
      ensures Matches(NewChannel())
    {
      ctr, sampledCtr, totalCtr := 0, 0, 0;
      periodicIncNs, skippedIntervals := FPC_DEFAULT_PERIOD, 0;
      isHeaderLogged, chLogf := false, [];
    }

    method FastPeriodicCounterHandler()
      modifies `ctr
      ensures ctr == old(ctr) + 1
    {
      ctr := ctr + 1;
    }

    method Exchange() returns (count: nat)
      modifies `ctr
      ensures count == old(ctr) && ctr == 0
    {
      count, ctr := ctr, 0;
    }

    method PrintSkippedIntervals()
      modifies `chLogf, `skippedIntervals
      ensures forall ch: Channel :: old(Matches(ch)) ==> Matches(ReportSkipped(ch))
    {
      if skippedIntervals > 0 {
        chLogf := chLogf + [Skipped(skippedIntervals)];
        skippedIntervals := 0;
      }
    }

    method Sample()
      modifies this
      ensures forall ch: Channel :: old(Matches(ch)) ==> Matches(Sampled(ch))
    {
      sampledCtr := Exchange();
    }

    method Process()
      modifies this
      ensures forall ch: Channel :: old(Matches(ch)) ==> Matches(Processed(ch))
    {
      if sampledCtr == 0 {
        skippedIntervals := skippedIntervals + 1;
      } else {
        totalCtr := totalCtr + sampledCtr;
        PrintSkippedIntervals();
        chLogf := chLogf + [Line.Sample(sampledCtr)];
      }
    }

    method Insert(ghost d: nat)
      modifies this
      ensures forall ch: Channel :: old(Matches(ch)) ==> Matches(Inserted(ch, d))
    {
      if !isHeaderLogged {
        isHeaderLogged := true;
        chLogf := chLogf + [Header];
      }
      var evCount := Exchange();
      totalCtr := totalCtr + evCount;
      chLogf := chLogf + [Start(evCount)];
    }

    method MoveAway(ghost d: nat, jb: Job)
      modifies this
      ensures forall ch: Channel :: old(Matches(ch)) ==> Matches(MovedAway(ch, d, jb))
    {
      var evCount := Exchange();
      totalCtr := totalCtr + evCount;
      PrintSkippedIntervals();
      chLogf := chLogf + [Truncated(evCount)];
      periodicIncNs := jb.target;
    }

    method Delete()
      modifies this
      ensures forall ch: Channel :: old(Matches(ch)) ==> Matches(Deleted(ch))
    {
      var evCount := Exchange();
      totalCtr := totalCtr + evCount;
      PrintSkippedIntervals();
      chLogf := chLogf + [Truncated(evCount)];
      chLogf := chLogf + [Final(totalCtr)];
    }
  }

  /** A sampling thread.  `table` lists the closures by channel number; `closures`
      are the numbers of those that the thread samples. */
  class ThrDescriptor {
    const table: seq<FpcClosure>
    var closures: set<nat>
    var queue: seq<Job>

    ghost predicate Valid()
      reads this
    {
      && (forall c, e :: 0 <= c < e < |table| ==> table[c] != table[e])
      && (forall c :: c in closures ==> c < |table|)
      && (forall jb :: jb in queue ==> jb.ch < |table|)
    }

    /** The closures are those of the model's channels, this is thread d. */
    ghost predicate Represents(s: State, d: nat)
      reads this, table
    {
      && |s.chs| == |table| && d < |s.descrs| && s.descrs[d].closures == closures
      && forall c :: 0 <= c < |table| ==> table[c].Matches(s.chs[c])
    }

    /** Represented channels have the fields of any others with the same fields. */
    lemma SameRepresents(s: State, r: State, d: nat)
      requires Represents(s, d) && SameWork(s, r, d)
      ensures Represents(r, d)
    {
      forall c | 0 <= c < |table| ensures table[c].Matches(r.chs[c]) {
        assert SameFields(s.chs[c], r.chs[c]);
      }
    }

    /** The first loop of a sampling round: every channel of the thread is sampled,
        in the order of channel numbers.  The model's thread does it in a run. */
    method SampleAll(ghost s: State, ghost d: nat)
      requires Valid() && Represents(s, d)
      modifies table
      ensures d < |s.descrs| && Represents(SampleEnd(s, d, closures), d)
    {
      for i := 0 to |table|
        invariant forall c :: 0 <= c < |table| ==>
          table[c].Matches(if c < i && c in closures then Sampled(s.chs[c]) else s.chs[c])
      {
        assert forall c :: 0 <= c < |table| && c != i ==> table[c] != table[i];
        if i in closures {
          table[i].Sample();
        }
      }
    }

    /** The second loop: the samples are recorded. */
    method ProcessAll(ghost s: State, ghost d: nat)
      requires Valid() && Represents(s, d)
      modifies table
      ensures d < |s.descrs| && Represents(ProcessEnd(s, d, closures), d)
    {
      for i := 0 to |table|
        invariant forall c :: 0 <= c < |table| ==>
          table[c].Matches(if c < i && c in closures then Processed(s.chs[c]) else s.chs[c])
      {
        assert forall c :: 0 <= c < |table| && c != i ==> table[c] != table[i];
        if i in closures {
          table[i].Process();
        }
      }
    }

    method DequeueChannel(ch: nat) returns (found: bool)
      modifies `closures
      ensures found <==> ch in old(closures)
      ensures closures == old(closures) - {ch}
    {
      found := ch in closures;
      closures := closures - {ch};
    }

    method ExecuteJob(jb: Job, ghost s: State, ghost d: nat, ghost left: nat) returns (moved: bool)
      requires Valid() && Represents(s, d) && jb.ch < |table|
      modifies `closures, table[jb.ch]
      ensures Valid() && Represents(Execute(s, d, jb, left), d)
      ensures moved <==> jb.kind.Move? && jb.ch in old(closures)
    {
      moved := false;
      var cl := table[jb.ch];
      match jb.kind {
        case Insert =>
          cl.Insert(d);
          closures := closures + {jb.ch};
        case Move =>
          moved := DequeueChannel(jb.ch);
          if moved {
            cl.MoveAway(d, jb);
          }
        case Delete =>
          cl.Delete();
          var found := DequeueChannel(jb.ch);
      }
    }

    /** The thread holds the next jobs of the model's queue. */
    ghost predicate NextJobs(r: State, d: nat)
      reads `queue
    {
      d < |r.descrs| && queue <= r.descrs[d].queue && r.descrs[d].pc == Jobs(|queue|)
    }

    /** One turn of the job loop, as one turn of the model's thread. */
    method ProcessJob(ghost r: State, ghost d: nat)
      returns (moved: seq<Job>, ghost s1: State, ghost s2: State, ghost r': State, ghost k: nat)
      requires Valid() && Represents(r, d) && NextJobs(r, d) && Inv(r) && queue != []
      modifies this, table
      ensures IsTurn(r, d, s1, s2, r', k, moved)
      ensures Valid() && Represents(r', d) && NextJobs(r', d) && queue == old(queue)[1..]
    {
      var jb := queue[0];
      ghost var handedOn;
      s1, s2, r', k, handedOn := Turn(r, d);
      assert r.descrs[d].queue[0] == jb && queue[1..] <= r.descrs[d].queue[1..];
      SameRepresents(r, s1, d);
      queue := queue[1..];
      var forwarded := ExecuteJob(jb, s1, d, |queue|);
      SameRepresents(s2, r', d);
      moved := if forwarded then [jb.(kind := JobKind.Insert)] else [];
    }

    /** The job loop, when no job arrives meanwhile.  Jobs are executed in the order
        in which they were queued, as in a run of the model's thread alone from where
        it has read their number to where none is left; the jobs handed on have then
        been submitted to the threads of their new periods. */
    method ProcessJobQueue(ghost s: State, ghost d: nat)
      returns (moved: seq<Job>, ghost r: State, ghost k: nat)
      requires Valid() && Represents(s, d) && Inv(s)
      requires s.descrs[d].queue == queue && s.descrs[d].pc == Jobs(|queue|)
      modifies this, table
      ensures Valid() && queue == [] && Represents(r, d)
      ensures d < |s.descrs| && InLoop(s, d, k, r, moved) && r.descrs[d].pc == Jobs(0)
      ensures forall i :: 0 <= i < |moved| ==> SubmittedTo(r, moved[i])
    {
      moved, r, k := [], s, 0;
      LoopBegin(s, d);
      var nrJobs := |queue|;
      for j := 0 to nrJobs
        invariant Valid() && Represents(r, d) && NextJobs(r, d) && |queue| == nrJobs - j
        invariant InLoop(s, d, k, r, moved)
      {
        var moved';
        ghost var s1, s2, r', k';
        moved', s1, s2, r', k' := ProcessJob(r, d);
        NextTurn(s, d, k, r, moved, s1, s2, r', k', moved');
        moved, r, k := moved + moved', r', k + k';
      }
      LoopEnd(s, d, k, r, moved);
    }
  }
}
