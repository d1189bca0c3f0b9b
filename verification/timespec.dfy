/** Points in time and durations as seconds and nanoseconds. */
module Timespecs {
  import opened LogRecord

  const NANO_S_PER_S: nat := 1_000_000_000

  /** The part of the structure that is a time. */
  datatype Ts = Ts(sec: int, nsec: int)

  predicate Normal(t: Ts) { t.sec >= 0 && 0 <= t.nsec < NANO_S_PER_S }

  function Ns(t: Ts): int { t.sec * NANO_S_PER_S + t.nsec }

  /** The representation of a number of nanoseconds. */
  function OfNs(ns: nat): (t: Ts)
    ensures Normal(t) && Ns(t) == ns
  {
    Ts(ns / NANO_S_PER_S, ns % NANO_S_PER_S)
  }

  /** A variable of the structure: operations write their result in place, which may
      be one of the operands.  The time stamp counter, in 64 bits, is carried along. */
  class TimespecVar {
    var tvSec: int
    var tvNsec: int
    var tsc: uint64

    function Value(): Ts
      reads this
    {
      Ts(tvSec, tvNsec)
    }

    constructor (t: Ts, counter: uint64)
      ensures Value() == t && tsc == counter
    {
      tvSec, tvNsec, tsc := t.sec, t.nsec, counter;
    }

    static method AddTS(result: TimespecVar, t1: TimespecVar, t2: TimespecVar)
      requires Normal(t1.Value()) && Normal(t2.Value())
      modifies result
      ensures Normal(result.Value())
      ensures Ns(result.Value()) == old(Ns(t1.Value())) + old(Ns(t2.Value()))
      ensures result.tsc == (old(t1.tsc) + old(t2.tsc)) % TWO_64
    {
      result.tvSec := t1.tvSec + t2.tvSec;
      result.tvNsec := t1.tvNsec + t2.tvNsec;
      if result.tvNsec >= NANO_S_PER_S {
        result.tvSec := result.tvSec + 1;
        result.tvNsec := result.tvNsec - NANO_S_PER_S;
      }
      result.tsc := (t1.tsc + t2.tsc) % TWO_64;
    }

    static method SubtractTS(result: TimespecVar, start: TimespecVar, end: TimespecVar)
      requires Normal(start.Value()) && Normal(end.Value())
      modifies result
      ensures 0 <= result.tvNsec < NANO_S_PER_S
      ensures Ns(result.Value()) == old(Ns(end.Value())) - old(Ns(start.Value()))
      ensures result.tsc == (old(end.tsc) - old(start.tsc)) % TWO_64
    {
      if end.tvNsec - start.tvNsec < 0 {
        result.tvSec := end.tvSec - start.tvSec - 1;
        result.tvNsec := end.tvNsec - start.tvNsec + NANO_S_PER_S;
      } else {
        result.tvSec := end.tvSec - start.tvSec;
        result.tvNsec := end.tvNsec - start.tvNsec;
      }
      result.tsc := (end.tsc - start.tsc) % TWO_64;
    }
  }

  /** The order of two points in time, as -1, 0 or 1. */
  function CompareTS(t1: Ts, t2: Ts): (r: int)
    requires Normal(t1) && Normal(t2)
    ensures r == if Ns(t1) < Ns(t2) then -1 else if Ns(t1) == Ns(t2) then 0 else 1
  {
    if t1.sec == t2.sec && t1.nsec == t2.nsec then 0
    else if t1.sec < t2.sec || (t1.sec == t2.sec && t1.nsec < t2.nsec) then -1
    else 1
  }
}
