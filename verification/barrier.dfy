/** The counting barrier: every thread counts its calls in a counter of its own,
    and waits until no other counter is behind. */
module Barrier {
  datatype Pc =
    | Outside
    | Entered                       // counted, level not yet read
    | Scanning(level: nat, thr: nat)

  /** `returned` counts the calls each thread has returned from; the model keeps it. */
  datatype State = State(ctr: seq<nat>, pcs: seq<Pc>, returned: seq<nat>)

  function Init(n: nat): State {
    State(seq(n, t => 0), seq(n, t => Outside), seq(n, t => 0))
  }

  predicate Shaped(s: State) { |s.ctr| == |s.pcs| == |s.returned| }

  /** The thread looks at a counter that is behind its level. */
  predicate Blocked(s: State, t: nat) {
    t < |s.pcs| && s.pcs[t].Scanning? && s.pcs[t].thr < |s.ctr| && s.ctr[s.pcs[t].thr] < s.pcs[t].level
  }

  /** A blocked thread spins: its step changes nothing. */
  function Next(s: State, t: nat): (r: State)
    requires Shaped(s) && t < |s.pcs|
    ensures Shaped(r) && |r.pcs| == |s.pcs|
  {
    match s.pcs[t]
    case Outside => s.(ctr := s.ctr[t := s.ctr[t] + 1], pcs := s.pcs[t := Entered])
    case Entered => s.(pcs := s.pcs[t := Scanning(s.ctr[t], 0)])
    case Scanning(level, thr) =>
      if thr >= |s.ctr| then s.(pcs := s.pcs[t := Outside], returned := s.returned[t := s.returned[t] + 1])
      else if s.ctr[thr] < level then s
      else s.(pcs := s.pcs[t := Scanning(level, thr + 1)])
  }

  predicate Names(run: seq<nat>, n: nat) {
    forall i :: 0 <= i < |run| ==> run[i] < n
  }

  /** A run is the order in which threads take their steps. */
  function Exec(s: State, run: seq<nat>): (r: State)
    requires Shaped(s) && Names(run, |s.pcs|)
    ensures Shaped(r) && |r.pcs| == |s.pcs|
    decreases |run|
  {
    if run == [] then s else Exec(Next(s, run[0]), run[1..])
  }

  ghost predicate Reachable(n: nat, s: State) {
    exists run: seq<nat> :: Names(run, n) && Exec(Init(n), run) == s
  }

  // ---- the invariant ------------------------------------------------------

  /** No counter among the first `k` is behind `level`. */
  predicate Passed(ctr: seq<nat>, level: nat, k: nat) {
    forall j :: 0 <= j < k && j < |ctr| ==> ctr[j] >= level
  }

  predicate ThreadOk(ctr: seq<nat>, c: nat, pc: Pc, returned: nat) {
    && Passed(ctr, returned, |ctr|)
    && match pc
       case Outside => returned == c
       case Entered => returned + 1 == c
       case Scanning(level, thr) => returned + 1 == c == level && thr <= |ctr| && Passed(ctr, level, thr)
  }

  predicate Inv(s: State) {
    Shaped(s) && forall t :: 0 <= t < |s.pcs| ==> ThreadOk(s.ctr, s.ctr[t], s.pcs[t], s.returned[t])
  }

  lemma StepKeeps(s: State, t: nat)
    requires Inv(s) && t < |s.pcs|
    ensures Inv(Next(s, t))
  {
    var s' := Next(s, t);
    forall u | 0 <= u < |s'.pcs| ensures ThreadOk(s'.ctr, s'.ctr[u], s'.pcs[u], s'.returned[u]) {
      assert ThreadOk(s.ctr, s.ctr[u], s.pcs[u], s.returned[u]) && ThreadOk(s.ctr, s.ctr[t], s.pcs[t], s.returned[t]);
    }
  }

  lemma {:induction false} RunKeeps(s: State, run: seq<nat>)
    requires Inv(s) && Names(run, |s.pcs|)
    ensures Inv(Exec(s, run))
    decreases |run|
  {
    if run != [] {
      StepKeeps(s, run[0]);
      RunKeeps(Next(s, run[0]), run[1..]);
    }
  }

  lemma ReachableInv(n: nat, s: State)
    requires Reachable(n, s)
    ensures Inv(s) && |s.pcs| == n
  {
    var run: seq<nat> :| Names(run, n) && Exec(Init(n), run) == s;
    RunKeeps(Init(n), run);
  }

  // ---- main results -------------------------------------------------------

  /** No thread returns from its k-th call before every thread has entered its k-th. */
  lemma NobodyLeavesEarly(n: nat, s: State, t: nat, u: nat)
    requires Reachable(n, s) && t < n && u < n
    ensures Shaped(s) && |s.pcs| == n && s.returned[t] <= s.ctr[u]
  {
    ReachableInv(n, s);
    assert ThreadOk(s.ctr, s.ctr[t], s.pcs[t], s.returned[t]);
  }

  /** Any two threads are at most one call apart. */
  lemma CountersAreClose(n: nat, s: State, t: nat, u: nat)
    requires Reachable(n, s) && t < n && u < n
    ensures Shaped(s) && |s.pcs| == n && s.ctr[t] <= s.ctr[u] + 1
  {
    NobodyLeavesEarly(n, s, t, u);
    ReachableInv(n, s);
    assert ThreadOk(s.ctr, s.ctr[t], s.pcs[t], s.returned[t]);
  }

  /** The thread that a blocked thread waits for is not blocked itself: so the
      threads never all wait, and no thread waits through another. */
  lemma NoWaitingChains(n: nat, s: State, t: nat)
    requires Reachable(n, s) && Blocked(s, t)
    ensures var u := s.pcs[t].thr; u < n && !Blocked(s, u)
    ensures var u := s.pcs[t].thr; |s.returned| == |s.ctr| == n && s.ctr[u] + 1 == s.ctr[t]
  {
    ReachableInv(n, s);
    var u := s.pcs[t].thr;
    assert ThreadOk(s.ctr, s.ctr[t], s.pcs[t], s.returned[t]) && ThreadOk(s.ctr, s.ctr[u], s.pcs[u], s.returned[u]);
    CountersAreClose(n, s, t, u);
  }

  /** Once every thread has entered, a waiting thread gets through by its own steps
      alone, one for each counter still to look at and one to return. */
  lemma {:induction false} AllArrivedPass(s: State, t: nat)
    requires Inv(s) && t < |s.pcs| && s.pcs[t].Scanning? && Passed(s.ctr, s.pcs[t].level, |s.ctr|)
    ensures var own := seq(|s.ctr| - s.pcs[t].thr + 1, i => t);
            Exec(s, own) == s.(pcs := s.pcs[t := Outside], returned := s.returned[t := s.returned[t] + 1])
    decreases |s.ctr| - s.pcs[t].thr
  {
    assert ThreadOk(s.ctr, s.ctr[t], s.pcs[t], s.returned[t]);
    var own := seq(|s.ctr| - s.pcs[t].thr + 1, i => t);
    var s' := Next(s, t);
    if s.pcs[t].thr < |s.ctr| {
      StepKeeps(s, t);
      AllArrivedPass(s', t);
      assert own[1..] == seq(|s'.ctr| - s'.pcs[t].thr + 1, i => t);
      assert s'.pcs[t := Outside] == s.pcs[t := Outside];
    } else {
      assert own[1..] == [];
    }
  }

  // ---- the code -----------------------------------------------------------

  /** The steps of a run that are not those of thread `tid`. */
  function Others(run: seq<nat>, tid: nat): seq<nat> {
    if run == [] then []
    else
      var n := |run| - 1;
      Others(run[..n], tid) + (if run[n] == tid then [] else [run[n]])
  }

  /** The run leads to `cur`, with these steps of the other threads; `tid` has not
      yet returned. */
  predicate During(s: State, cur: State, run: seq<nat>, tid: nat, others: seq<nat>)
    requires Shaped(s)
  {
    && Names(run, |s.pcs|) && Exec(s, run) == cur && Others(run, tid) == others
    && tid < |s.pcs| && cur.returned[tid] == s.returned[tid]
    && forall j :: 0 <= j < |s.ctr| ==> s.ctr[j] <= cur.ctr[j]
  }

  lemma {:induction false} ExecAppend(s: State, run: seq<nat>, t: nat)
    requires Shaped(s) && Names(run, |s.pcs|) && t < |s.pcs|
    ensures Names(run + [t], |s.pcs|) && Exec(s, run + [t]) == Next(Exec(s, run), t)
    decreases |run|
  {
    if run == [] {
      assert (run + [t])[1..] == [];
    } else {
      ExecAppend(Next(s, run[0]), run[1..], t);
      assert (run + [t])[1..] == run[1..] + [t];
    }
  }

  /** One more step of a run: of another thread, or of `tid`. */
  lemma TakeStep(s: State, cur: State, run: seq<nat>, tid: nat, others: seq<nat>, t: nat)
    requires Shaped(s) && t < |s.pcs| && During(s, cur, run, tid, others)
    ensures Names(run + [t], |s.pcs|) && Exec(s, run + [t]) == Next(cur, t)
    ensures Others(run + [t], tid) == if t == tid then others else others + [t]
    ensures !(t == tid && cur.pcs[tid].Scanning? && cur.pcs[tid].thr >= |s.ctr|) ==>
      During(s, Next(cur, t), run + [t], tid, if t == tid then others else others + [t])
  {
    ExecAppend(s, run, t);
    assert (run + [t])[..|run|] == run;
  }

  /** The call counts itself and reads its level. */
  lemma Begin(s: State, tid: nat) returns (run: seq<nat>)
    requires Shaped(s) && tid < |s.pcs| && s.pcs[tid].Outside?
    ensures During(s, Next(Next(s, tid), tid), run, tid, [])
  {
    TakeStep(s, s, [], tid, [], tid);
    TakeStep(s, Next(s, tid), [] + [tid], tid, [], tid);
    run := [tid] + [tid];
  }

  /** The call of thread `tid` has looked at the first `thr` counters. */
  predicate LooksAt(s: State, cur: State, run: seq<nat>, tid: nat, others: seq<nat>, level: nat, thr: nat) {
    && Shaped(s) && Shaped(cur) && tid < |s.ctr| == |cur.ctr|
    && During(s, cur, run, tid, others)
    && cur.ctr[tid] == level == s.ctr[tid] + 1
    && cur.pcs[tid] == Scanning(level, thr) && Passed(cur.ctr, level, thr)
    && (Passed(s.ctr[tid := level], level, |s.ctr|) ==> others == [])
  }

  /** While a counter is behind, the other threads move. */
  lemma OtherMoves(s: State, cur: State, run: seq<nat>, tid: nat, others: seq<nat>, level: nat, thr: nat, u: nat)
    requires LooksAt(s, cur, run, tid, others, level, thr) && thr < |s.ctr| && cur.ctr[thr] < level
    requires u < |s.ctr| && u != tid
    ensures LooksAt(s, Next(cur, u), run + [u], tid, others + [u], level, thr)
    ensures Next(cur, u).ctr == cur.ctr[u := Next(cur, u).ctr[u]]
  {
    TakeStep(s, cur, run, tid, others, u);
    assert s.ctr[tid := level][thr] <= cur.ctr[thr] < level;
  }

  /** A counter that is not behind is passed. */
  lemma LookOn(s: State, cur: State, run: seq<nat>, tid: nat, others: seq<nat>, level: nat, thr: nat)
    requires LooksAt(s, cur, run, tid, others, level, thr) && thr < |s.ctr| && cur.ctr[thr] >= level
    ensures LooksAt(s, Next(cur, tid), run + [tid], tid, others, level, thr + 1)
  {
    TakeStep(s, cur, run, tid, others, tid);
  }

  /** After the last counter the call returns. */
  lemma Return(s: State, cur: State, run: seq<nat>, tid: nat, others: seq<nat>, level: nat)
    requires LooksAt(s, cur, run, tid, others, level, |s.ctr|)
    ensures Names(run + [tid], |s.ctr|) && Others(run + [tid], tid) == others
    ensures var r := Exec(s, run + [tid]);
            r.ctr == cur.ctr && r.pcs[tid].Outside? && r.returned[tid] == s.returned[tid] + 1
  {
    TakeStep(s, cur, run, tid, others, tid);
  }

  class BarrierCode {
    var ctr: array<nat>
    var nrThreads: nat

    constructor (maxAllocNrThreads: nat)
      ensures ctr.Length == maxAllocNrThreads && nrThreads == 0 && fresh(ctr)
    {
      ctr := new nat[maxAllocNrThreads];
      nrThreads := 0;
    }

    method BarrierInit(n: nat)
      requires n <= ctr.Length
      modifies this`nrThreads, ctr
      ensures nrThreads == n && ctr[..n] == Init(n).ctr && ctr[n..] == old(ctr[n..])
    {
      nrThreads := n;
      for i := 0 to n
        invariant forall j :: 0 <= j < i ==> ctr[j] == 0
        invariant ctr[n..] == old(ctr[n..]) && nrThreads == n
      {
        ctr[i] := 0;
      }
      assert ctr[..n] == Init(n).ctr;
    }

    /** The inner loop: spin while the counter is behind.  The other threads take the
        steps of `others`, and their counters change as the model's do. */
    method Spin(s: State, cur: State, ghost run: seq<nat>, tid: nat, others: seq<nat>, start: nat, level: nat, thr: nat)
      returns (ok: bool, next: State, ghost run': seq<nat>, used: nat)
      requires start <= |others| && thr < nrThreads && Names(others, nrThreads) && tid !in others
      requires LooksAt(s, cur, run, tid, others[..start], level, thr)
      requires |s.ctr| == nrThreads <= ctr.Length && cur.ctr == ctr[..nrThreads]
      modifies ctr
      ensures start <= used <= |others| && LooksAt(s, next, run', tid, others[..used], level, thr)
      ensures next.ctr == ctr[..nrThreads]
      ensures if ok then ctr[thr] >= level else ctr[thr] < level && used == |others|
      ensures ctr[nrThreads..] == old(ctr[nrThreads..])
    {
      next, run', used := cur, run, start;
      while ctr[thr] < level
        invariant start <= used <= |others| && LooksAt(s, next, run', tid, others[..used], level, thr)
        invariant next.ctr == ctr[..nrThreads]
        invariant ctr[nrThreads..] == old(ctr[nrThreads..])
        decreases |others| - used
      {
        if used == |others| {
          return false, next, run', used;
        }
        var u := others[used];
        assert u != tid && others[..used + 1] == others[..used] + [u];
        OtherMoves(s, next, run', tid, others[..used], level, thr, u);
        next := Next(next, u);
        run' := run' + [u];
        ctr[u] := next.ctr[u];
        used := used + 1;
      }
      ok := true;
    }

    /** `barrier_wait` of thread `tid`.  The call has not returned if the steps of
        `others` do not suffice.  `run` is the run of the model that the call makes
        together with them. */
    method BarrierWait(tid: nat, s: State, others: seq<nat>) returns (passed: bool, ghost run: seq<nat>)
      requires tid < nrThreads <= ctr.Length
      requires Shaped(s) && |s.ctr| == nrThreads && s.ctr == ctr[..nrThreads] && s.pcs[tid].Outside?
      requires Names(others, nrThreads) && tid !in others
      modifies ctr
      ensures Names(run, nrThreads) && Others(run, tid) <= others
      ensures ctr[..nrThreads] == Exec(s, run).ctr && ctr[nrThreads..] == old(ctr[nrThreads..])
      ensures ctr[tid] == s.ctr[tid] + 1
      ensures passed ==> Passed(ctr[..nrThreads], ctr[tid], nrThreads)
      ensures passed ==> Exec(s, run).pcs[tid].Outside? && Exec(s, run).returned[tid] == s.returned[tid] + 1
      ensures !passed ==> Blocked(Exec(s, run), tid) && Others(run, tid) == others
      ensures Passed(s.ctr[tid := ctr[tid]], ctr[tid], nrThreads) ==> passed && Others(run, tid) == []
    {
      ctr[tid] := ctr[tid] + 1;
      var myLevel := ctr[tid];
      var cur, ok, used := Next(Next(s, tid), tid), true, 0;
      run := Begin(s, tid);
      for thr := 0 to nrThreads
        invariant used <= |others| && LooksAt(s, cur, run, tid, others[..used], myLevel, thr)
        invariant cur.ctr == ctr[..nrThreads]
        invariant ctr[nrThreads..] == old(ctr[nrThreads..])
      {
        ok, cur, run, used := Spin(s, cur, run, tid, others, used, myLevel, thr);
        if !ok {
          assert s.ctr[tid := myLevel][thr] <= cur.ctr[thr] < myLevel;
          return false, run;
        }
        LookOn(s, cur, run, tid, others[..used], myLevel, thr);
        cur := Next(cur, tid);
        run := run + [tid];
      }
      Return(s, cur, run, tid, others[..used], myLevel);
      run := run + [tid];
      passed := true;
    }
  }
}
