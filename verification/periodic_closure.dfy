/** The code of the periodic counter, over structures of seconds and nanoseconds.
    Each method is tied to the function of the model that stands for it; results of
    time arithmetic are written in place, also into their own operands. */
module PeriodicClosureCode {
  import opened LogRecord
  import opened Timespecs
  import opened PeriodicCounter

  class PCClosure {
    var ctr: nat
    const timeStart: TimespecVar
    const timeFlush: TimespecVar
    const periodicInc: TimespecVar
    var periodicIncNs: nat
    var isHeaderLogged: bool
    var chLogf: seq<Line>
    var closed: bool

    ghost predicate Valid()
      reads this, timeStart, timeFlush, periodicInc
    {
      && timeStart != timeFlush && timeFlush != periodicInc && timeStart != periodicInc
      && Normal(timeStart.Value()) && Normal(timeFlush.Value()) && Normal(periodicInc.Value())
      && periodicIncNs == Ns(periodicInc.Value()) < TWO_63
    }

    /** The counter of the model. */
    function View(): Counter
      reads this, timeStart, timeFlush
    {
      Counter(ctr, Ns(timeStart.Value()), Ns(timeFlush.Value()), periodicIncNs, isHeaderLogged, chLogf, closed)
    }

    constructor (now: TimespecVar)
      requires Normal(now.Value())
      ensures Valid() && View() == NewCounter(Ns(now.Value()))
      ensures fresh(timeStart) && fresh(timeFlush) && fresh(periodicInc)
    {
      ctr, periodicIncNs, isHeaderLogged, chLogf, closed := 0, DEFAULT_PERIOD, false, [], false;
      timeStart := new TimespecVar(now.Value(), now.tsc);
      timeFlush := new TimespecVar(now.Value(), now.tsc);
      periodicInc := new TimespecVar(Ts(DEFAULT_PERIOD / NANO_S_PER_S, DEFAULT_PERIOD % NANO_S_PER_S), 0);
      new;
      TimespecVar.AddTS(timeFlush, timeStart, periodicInc);
    }

    method PrintInitialHeaderAndPeriod()
      requires Valid()
      modifies `isHeaderLogged, `chLogf
      ensures Valid() && View() == WithHeader(old(View()))
    {
      if !isHeaderLogged {
        chLogf := chLogf + [Header, Period(Ns(timeStart.Value()), periodicIncNs)];
        isHeaderLogged := true;
      }
    }

    /** The count of the period that has ended, if any, and the periods skipped. */
    method PrintReport(fromFlush: nat)
      requires Valid() && fromFlush < TWO_32
      modifies `chLogf
      ensures chLogf == old(chLogf) + Report(old(View()), fromFlush)
    {
      if ctr > 0 {
        chLogf := chLogf + [Count(Ns(timeFlush.Value()), ctr)];
      }
      var total := if ctr == 0 then (fromFlush + 1) % TWO_32 else fromFlush;
      if total > 0 {
        chLogf := chLogf + [Skipped(total)];
      }
    }

    /** The time since the flush time, in 64 bits. */
    method ElapsedNs(now: TimespecVar) returns (e: nat)
      requires Valid() && Normal(now.Value()) && 0 <= Ns(now.Value()) - Ns(timeFlush.Value()) < TWO_64
      ensures e == Ns(now.Value()) - Ns(timeFlush.Value())
    {
      var elapsed := new TimespecVar(now.Value(), now.tsc);
      TimespecVar.SubtractTS(elapsed, timeFlush, now);
      e := (elapsed.tvSec * NANO_S_PER_S + elapsed.tvNsec) % TWO_64;
    }

    method GetNextShotAndFlushCtr(now: TimespecVar) returns (nextShot: TimespecVar)
      requires Valid() && Normal(now.Value()) && periodicIncNs > 0
      requires 0 <= Ns(now.Value()) - Ns(timeFlush.Value()) < TWO_64
      modifies `chLogf
      ensures Valid() && fresh(nextShot) && Normal(nextShot.Value())
      ensures Ns(nextShot.Value()) == NextShot(Ns(now.Value()) - Ns(timeFlush.Value()), periodicIncNs)
      ensures chLogf == old(chLogf) + Report(old(View()), Past(old(View()), Ns(now.Value())))
    {
      var elapsedNs := ElapsedNs(now);
      var fromFlush := Periods(elapsedNs, periodicIncNs);
      var nextShotNs := Shot(fromFlush, periodicIncNs);
      nextShot := new TimespecVar(OfNs(nextShotNs), 0);
      PrintReport(fromFlush);
    }

    /** `PeriodicCounterHandler`, with the time that it reads. */
    method PeriodicCounterHandler(now: TimespecVar)
      requires Valid() && Normal(now.Value()) && periodicIncNs > 0 && now != timeFlush
      requires Ns(now.Value()) - Ns(timeFlush.Value()) < TWO_64
      modifies this, timeFlush
      ensures Valid() && View() == Handled(old(View()), Ns(now.Value()))
    {
      if now.tvSec > timeFlush.tvSec || (now.tvSec == timeFlush.tvSec && now.tvNsec > timeFlush.tvNsec) {
        PrintInitialHeaderAndPeriod();
        var nextShot := GetNextShotAndFlushCtr(now);
        TimespecVar.AddTS(timeFlush, timeFlush, nextShot);
        ctr := 1;
      } else {
        ctr := ctr + 1;
      }
    }

    method FlushCtr(now: TimespecVar)
      requires Valid() && Normal(now.Value()) && periodicIncNs > 0
      requires Ns(now.Value()) - Ns(timeFlush.Value()) < TWO_64
      modifies `chLogf
      ensures Valid() && chLogf == old(chLogf) + FlushLines(old(View()), Ns(now.Value()))
    {
      if CompareTS(now.Value(), timeFlush.Value()) == -1 {
        chLogf := chLogf + [TruncatedPeriod(Ns(now.Value()), ctr)];
      } else {
        var elapsedNs := ElapsedNs(now);
        PrintReport(Periods(elapsedNs, periodicIncNs));
      }
    }

    method CloseChannel(now: TimespecVar)
      requires Valid() && Normal(now.Value()) && periodicIncNs > 0
      requires Ns(now.Value()) - Ns(timeFlush.Value()) < TWO_64
      modifies this
      ensures Valid() && View() == PeriodicCounter.Closed(old(View()), Ns(now.Value()))
    {
      PrintInitialHeaderAndPeriod();
      FlushCtr(now);
      chLogf := chLogf + [ShutDown(Ns(now.Value()))];
      closed := true;
    }

    /** Both representations of the period. */
    method SetPeriod(ns: nat)
      modifies periodicInc, `periodicIncNs
      ensures Normal(periodicInc.Value()) && periodicIncNs == Ns(periodicInc.Value()) == ns
    {
      var t := OfNs(ns);
      periodicInc.tvSec, periodicInc.tvNsec := t.sec, t.nsec;
      periodicIncNs := ns;
    }

    /** `setArgPeriodicCounterHandler`: only argument 0 with a value of at least 0 is
        accepted, anything else closes the channel. */
    method SetArg(argNumber: int, argValue: int, now: TimespecVar) returns (ret: int)
      requires Valid() && Normal(now.Value()) && periodicIncNs > 0 && argValue < TWO_63
      requires now !in {timeStart, timeFlush, periodicInc}
      requires Ns(now.Value()) - Ns(timeFlush.Value()) < TWO_64
      modifies this, timeStart, timeFlush, periodicInc
      ensures Valid() && ret == (if argNumber == 0 && argValue >= 0 then 0 else -1)
      ensures ret == 0 ==> View() == Reset(old(View()), old(Ns(now.Value())), argValue)
      ensures ret == -1 ==> View() == PeriodicCounter.Closed(old(View()), old(Ns(now.Value())))
    {
      if argNumber != 0 || argValue < 0 {
        CloseChannel(now);
        return -1;
      }
      Restart(argValue, now);
      return 0;
    }

    /** A new grid begins at the start time. */
    method Reprogram(ns: nat)
      requires Valid() && ns < TWO_63
      modifies this, timeFlush, periodicInc
      ensures Valid() && ctr == 0 && periodicIncNs == ns && isHeaderLogged == old(isHeaderLogged)
      ensures closed == old(closed) && Ns(timeFlush.Value()) == Ns(timeStart.Value()) + ns
      ensures chLogf == old(chLogf) + [Reprogrammed(Ns(timeStart.Value())), Period(Ns(timeStart.Value()), ns)]
    {
      SetPeriod(ns);
      TimespecVar.AddTS(timeFlush, timeStart, periodicInc);
      chLogf := chLogf + [Reprogrammed(Ns(timeStart.Value())), Period(Ns(timeStart.Value()), periodicIncNs)];
      ctr := 0;
    }

    method Restart(argValue: nat, now: TimespecVar)
      requires Valid() && Normal(now.Value()) && periodicIncNs > 0 && argValue < TWO_63
      requires now !in {timeStart, timeFlush, periodicInc}
      requires Ns(now.Value()) - Ns(timeFlush.Value()) < TWO_64
      modifies this, timeStart, timeFlush, periodicInc
      ensures Valid() && View() == Reset(old(View()), old(Ns(now.Value())), argValue)
    {
      PrintInitialHeaderAndPeriod();
      timeStart.tvSec, timeStart.tvNsec, timeStart.tsc := now.tvSec, now.tvNsec, now.tsc;
      FlushCtr(timeStart);
      Reprogram(argValue);
    }
  }
}
