/** The periodic counter: events are counted, and the count is written when an
    event finds that the current period is over. */
module PeriodicCounter {
  import opened Arithmetic
  import opened LogRecord
  import opened Sums
  import opened Timespecs

  const DEFAULT_PERIOD: nat := 1 * NANO_S_PER_S

  datatype Line =
    | Header
    | Period(start: int, period: nat)
    | Count(end: int, events: nat)       // one full period
    | Skipped(intervals: nat)
    | TruncatedPeriod(now: int, events: nat)
    | Reprogrammed(now: int)
    | ShutDown(now: int)

  /** Times are in nanoseconds. */
  datatype Counter = Counter(
    ctr: nat, start: int, flush: int, period: nat, headerLogged: bool, file: seq<Line>, closed: bool)

  datatype Op = Event(now: int) | SetPeriod(now: int, period: nat) | Close(now: int)

  function NewCounter(now: int): Counter {
    Counter(0, now, now + DEFAULT_PERIOD, DEFAULT_PERIOD, false, [], false)
  }

  /** Whole periods of length p in e nanoseconds; the code keeps them in 32 bits. */
  function Periods(e: nat, p: nat): (n: nat)
    requires p > 0
    ensures n < TWO_32
  {
    (e / p) % TWO_32
  }

  /** The periods past the flush time. */
  function Past(c: Counter, now: int): nat
    requires c.period > 0 && now >= c.flush
  {
    Periods(now - c.flush, c.period)
  }

  /** How far the flush time is moved: the sum is one of 32 bits, the product one
      of 64. */
  function Shot(periods: nat, p: nat): nat {
    ((1 + periods) % TWO_32) * p % TWO_64
  }

  function NextShot(e: nat, p: nat): nat
    requires p > 0
  {
    Shot(Periods(e, p), p)
  }

  function WithHeader(c: Counter): Counter {
    if c.headerLogged then c else c.(headerLogged := true, file := c.file + [Header, Period(c.start, c.period)])
  }

  /** The count of the period that ended at the flush time, if it is not zero, and
      then the periods without events. */
  function Report(c: Counter, past: nat): seq<Line> {
    var skipped := (if c.ctr == 0 then past + 1 else past) % TWO_32;
    (if c.ctr > 0 then [Count(c.flush, c.ctr)] else []) + (if skipped > 0 then [Skipped(skipped)] else [])
  }

  /** The handler. */
  function Handled(c: Counter, now: int): Counter
    requires c.period > 0
  {
    if now > c.flush then
      var c1 := WithHeader(c);
      var past := Past(c, now);
      c1.(file := c1.file + Report(c, past), flush := c.flush + NextShot(now - c.flush, c.period), ctr := 1)
    else
      c.(ctr := c.ctr + 1)
  }

  /** `flushCtr`: what is written when the counter is stopped at a time. */
  function FlushLines(c: Counter, now: int): seq<Line>
    requires c.period > 0
  {
    if now < c.flush then [TruncatedPeriod(now, c.ctr)] else Report(c, Past(c, now))
  }

  /** A new period begins now; the value is at least 0 here, and positive for a
      counter that goes on. */
  function Reset(c: Counter, now: int, period: nat): Counter
    requires c.period > 0
  {
    var c1 := WithHeader(c);
    c1.(start := now, period := period, flush := now + period, ctr := 0,
        file := c1.file + FlushLines(c, now) + [Reprogrammed(now), Period(now, period)])
  }

  function Closed(c: Counter, now: int): Counter
    requires c.period > 0
  {
    var c1 := WithHeader(c);
    c1.(file := c1.file + FlushLines(c, now) + [ShutDown(now)], closed := true)
  }

  function Apply(c: Counter, op: Op): Counter
    requires c.period > 0
  {
    match op
    case Event(now) => Handled(c, now)
    case SetPeriod(now, period) => Reset(c, now, period)
    case Close(now) => Closed(c, now)
  }

  /** Fewer than 2^32 - 1 periods have passed since the flush time. */
  predicate InRange(c: Counter, now: int)
    requires c.period > 0
  {
    now >= c.flush ==> (now - c.flush) / c.period < TWO_32 - 1
  }

  /** The time since the flush time, and one more period, fit in 64 bits. */
  predicate NoWrap(c: Counter, now: int) {
    now - c.flush + c.period < TWO_64
  }

  /** An operation on an open counter at a time not before the last one. */
  predicate Enabled(c: Counter, last: int, op: Op) {
    && !c.closed && c.period > 0 && last <= op.now && InRange(c, op.now) && NoWrap(c, op.now)
    && (op.SetPeriod? ==> 0 < op.period < TWO_63)
  }

  /** Sequences of operations with a clock that never goes back. */
  predicate Legal(c: Counter, last: int, ops: seq<Op>)
    decreases |ops|
  {
    ops == [] || (Enabled(c, last, ops[0]) && Legal(Apply(c, ops[0]), ops[0].now, ops[1..]))
  }

  function Run(c: Counter, last: int, ops: seq<Op>): Counter
    requires Legal(c, last, ops)
    decreases |ops|
  {
    if ops == [] then c else Run(Apply(c, ops[0]), ops[0].now, ops[1..])
  }

  function Events(ops: seq<Op>): nat {
    if ops == [] then 0 else (if ops[0].Event? then 1 else 0) + Events(ops[1..])
  }

  // ---- sums over a file ---------------------------------------------------

  function EventsOf(l: Line): nat {
    if l.Count? || l.TruncatedPeriod? then l.events else 0
  }

  function IntervalsOf(l: Line): nat {
    match l
    case Count(_, _) => 1
    case Skipped(n) => n
    case _ => 0
  }

  function Printed(file: seq<Line>): nat { Total(EventsOf, file) }

  /** The periods that a file reports since the last reprogramming. */
  function Reported(file: seq<Line>): nat {
    if file == [] then 0
    else
      var last := file[|file| - 1];
      if last.Reprogrammed? then 0 else Reported(file[..|file| - 1]) + IntervalsOf(last)
  }

  lemma {:induction false} ReportedConcat(a: seq<Line>, b: seq<Line>)
    requires forall i :: 0 <= i < |b| ==> !b[i].Reprogrammed?
    ensures Reported(a + b) == Reported(a) + Total(IntervalsOf, b)
  {
    if b == [] {
      assert a + b == a;
    } else {
      var init, last := b[..|b| - 1], b[|b| - 1];
      ReportedConcat(a, init);
      assert (a + b)[..|a + b| - 1] == a + init && b == init + [last];
      TotalAppend(IntervalsOf, init, last);
    }
  }

  lemma TwoLines(w: Line -> nat, x: Line, y: Line)
    ensures Total(w, [x, y]) == w(x) + w(y) && Total(w, [x]) == w(x) && Total(w, []) == 0
  {
    assert [x, y][1..] == [y] && [y][1..] == [] && [x][1..] == [];
    assert Total(w, [y]) == w(y) + Total(w, [y][1..]);
  }

  /** The lines of a flush account for all events, and for the periods up to now. */
  lemma ReportSums(c: Counter, past: nat)
    requires past < TWO_32 - 1
    ensures Printed(Report(c, past)) == c.ctr
    ensures Total(IntervalsOf, Report(c, past)) == past + 1
    ensures forall i :: 0 <= i < |Report(c, past)| ==> !Report(c, past)[i].Reprogrammed?
  {
    TwoLines(EventsOf, Count(c.flush, c.ctr), Skipped(past));
    TwoLines(IntervalsOf, Count(c.flush, c.ctr), Skipped(past));
    TwoLines(EventsOf, Skipped(past + 1), Skipped(past));
    TwoLines(IntervalsOf, Skipped(past + 1), Skipped(past));
  }

  // ---- the flush grid -----------------------------------------------------

  /** `last` is the time of the last operation.  The flush time is on the grid that
      the start time and the period span, one period past the reported ones. */
  predicate Grid(c: Counter, last: int) {
    && c.period > 0
    && c.flush == c.start + (Reported(c.file) + 1) * c.period
    && last <= c.flush
    && (c.flush - c.period <= last)
  }

  predicate Inv(c: Counter, last: int, events: nat) {
    Grid(c, last) && Printed(c.file) + c.ctr == events
  }

  /** A flush moves the flush time past now, by at most one period, exactly when
      fewer than 2^32 - 1 periods have passed; otherwise it stays in the past. */
  lemma FlushLandsAhead(c: Counter, now: int)
    requires c.period > 0 && now > c.flush && NoWrap(c, now)
    ensures InRange(c, now) <==> now < Handled(c, now).flush
    ensures InRange(c, now) ==> Handled(c, now).flush <= now + c.period
  {
    var e, p := now - c.flush, c.period;
    if e / p < TWO_32 - 1 { NextShotAhead(e, p); } else { NextShotBehind(e, p); }
  }

  lemma NextProduct(q: nat, p: nat)
    ensures (q + 1) * p == q * p + p
  {
  }

  lemma SmallPeriods(e: nat, p: nat)
    requires p > 0 && e / p < TWO_32
    ensures Periods(e, p) == e / p
  {
  }

  lemma SmallShot(q: nat, p: nat)
    requires q < TWO_32 - 1 && (q + 1) * p < TWO_64
    ensures Shot(q, p) == (q + 1) * p
  {
    assert (1 + q) % TWO_32 == q + 1;
  }

  lemma NextShotAhead(e: nat, p: nat)
    requires p > 0 && e + p < TWO_64 && e / p < TWO_32 - 1
    ensures NextShot(e, p) == (e / p + 1) * p && e < NextShot(e, p) <= e + p
  {
    var q := e / p;
    Quotient(e, p);
    NextProduct(q, p);
    SmallPeriods(e, p);
    SmallShot(q, p);
  }

  lemma NextShotBehind(e: nat, p: nat)
    requires p > 0 && e / p >= TWO_32 - 1
    ensures NextShot(e, p) <= e
  {
    var q := e / p;
    Quotient(e, p);
    var n := (1 + q % TWO_32) % TWO_32;
    MulMonotonic(n, q, p);
    SmallMod(n * p);
  }

  lemma SmallMod(x: nat)
    ensures x % TWO_64 <= x
  {
  }

  lemma HeaderSums(c: Counter)
    ensures Printed(WithHeader(c).file) == Printed(c.file) && Reported(WithHeader(c).file) == Reported(c.file)
  {
    var h := [Header, Period(c.start, c.period)];
    TotalConcat(EventsOf, c.file, h);
    TwoLines(EventsOf, h[0], h[1]);
    ReportedConcat(c.file, h);
    TwoLines(IntervalsOf, h[0], h[1]);
  }

  /** How far a flush moves the flush time. */
  lemma FlushAdvance(c: Counter, now: int)
    requires c.period > 0 && now > c.flush && NoWrap(c, now) && InRange(c, now)
    ensures Handled(c, now).flush == c.flush + ((now - c.flush) / c.period + 1) * c.period
    ensures now < Handled(c, now).flush <= now + c.period
  {
    NextShotAhead(now - c.flush, c.period);
  }

  lemma PastIsExact(c: Counter, now: int)
    requires c.period > 0 && now >= c.flush && InRange(c, now)
    ensures Past(c, now) == (now - c.flush) / c.period < TWO_32 - 1
  {
  }

  lemma AddPeriods(start: int, r: nat, n: nat, p: nat)
    ensures start + (r + 1) * p + (n + 1) * p == start + (r + n + 2) * p
  {
  }

  /** What a flush by the handler writes. */
  lemma HandledFile(c: Counter, now: int)
    requires c.period > 0 && now > c.flush && InRange(c, now) && Past(c, now) < TWO_32 - 1
    ensures Reported(Handled(c, now).file) == Reported(c.file) + Past(c, now) + 1
    ensures Printed(Handled(c, now).file) == Printed(c.file) + c.ctr
  {
    var lines := Report(c, Past(c, now));
    HeaderSums(c);
    ReportSums(c, Past(c, now));
    ReportedConcat(WithHeader(c).file, lines);
    TotalConcat(EventsOf, WithHeader(c).file, lines);
  }

  lemma HandledKeeps(c: Counter, last: int, events: nat, now: int)
    requires Inv(c, last, events) && Enabled(c, last, Event(now))
    ensures Inv(Handled(c, now), now, events + 1)
  {
    if now > c.flush {
      PastIsExact(c, now);
      FlushAdvance(c, now);
      HandledFile(c, now);
      AddPeriods(c.start, Reported(c.file), Past(c, now), c.period);
    }
  }

  /** The periods reported up to now are all those that have ended. */
  lemma EndedPeriods(start: int, r: nat, p: nat, flush: int, last: int, now: int)
    requires p > 0 && flush == start + (r + 1) * p && flush - p <= last <= now
    ensures now >= start
    ensures (now - start) / p == if now < flush then r else r + 1 + (now - flush) / p
  {
    assert (r + 1) * p == r * p + p;
    if now < flush {
      DivIs(now - start, p, r);
    } else {
      var q := (now - flush) / p;
      Quotient(now - flush, p);
      assert (r + 1 + q) * p == (r + 1) * p + q * p;
      DivIs(now - start, p, r + 1 + q);
    }
  }

  lemma FlushLineSums(c: Counter, now: int)
    requires c.period > 0 && InRange(c, now)
    ensures Printed(FlushLines(c, now)) == c.ctr
    ensures Total(IntervalsOf, FlushLines(c, now)) == if now < c.flush then 0 else 1 + (now - c.flush) / c.period
    ensures forall i :: 0 <= i < |FlushLines(c, now)| ==> !FlushLines(c, now)[i].Reprogrammed?
  {
    if now < c.flush {
      TwoLines(EventsOf, TruncatedPeriod(now, c.ctr), Header);
      TwoLines(IntervalsOf, TruncatedPeriod(now, c.ctr), Header);
    } else {
      ReportSums(c, Past(c, now));
    }
  }

  /** What a stop writes: all events, and all the periods that have ended since the
      counter was last programmed. */
  lemma FlushReportsAll(c: Counter, last: int, events: nat, now: int)
    requires Inv(c, last, events) && c.period > 0 && last <= now && InRange(c, now)
    ensures var file := WithHeader(c).file + FlushLines(c, now);
            Printed(file) == events && Reported(file) == (now - c.start) / c.period
  {
    HeaderSums(c);
    FlushLineSums(c, now);
    ReportedConcat(WithHeader(c).file, FlushLines(c, now));
    TotalConcat(EventsOf, WithHeader(c).file, FlushLines(c, now));
    EndedPeriods(c.start, Reported(c.file), c.period, c.flush, last, now);
  }

  lemma DivIs(n: nat, d: nat, q: nat)
    requires d > 0 && q * d <= n < q * d + d
    ensures n / d == q
  {
    DivMod(n, d, q, n - q * d);
  }

  lemma ResetSums(file: seq<Line>, now: int, period: nat)
    ensures var file' := file + [Reprogrammed(now), Period(now, period)];
            Printed(file') == Printed(file) && Reported(file') == 0
  {
    var tail := [Reprogrammed(now), Period(now, period)];
    TotalConcat(EventsOf, file, tail);
    TwoLines(EventsOf, tail[0], tail[1]);
    assert (file + tail)[..|file + tail| - 1] == file + [tail[0]];
    assert Reported(file + [tail[0]]) == 0;
  }

  lemma ResetKeeps(c: Counter, last: int, events: nat, now: int, period: nat)
    requires Inv(c, last, events) && Enabled(c, last, SetPeriod(now, period))
    ensures Inv(Reset(c, now, period), now, events)
  {
    FlushReportsAll(c, last, events, now);
    ResetSums(WithHeader(c).file + FlushLines(c, now), now, period);
  }

  lemma StepKeeps(c: Counter, last: int, events: nat, op: Op)
    requires Inv(c, last, events) && Enabled(c, last, op) && !op.Close?
    ensures Inv(Apply(c, op), op.now, events + if op.Event? then 1 else 0)
  {
    if op.Event? {
      HandledKeeps(c, last, events, op.now);
    } else {
      ResetKeeps(c, last, events, op.now, op.period);
    }
  }

  lemma ClosedSums(c: Counter, last: int, events: nat, now: int)
    requires Inv(c, last, events) && Enabled(c, last, Close(now))
    ensures Printed(Closed(c, now).file) == events
    ensures Reported(Closed(c, now).file) == (now - c.start) / c.period
  {
    FlushReportsAll(c, last, events, now);
    var file := WithHeader(c).file + FlushLines(c, now);
    var end := ShutDown(now);
    TotalConcat(EventsOf, file, [end]);
    TwoLines(EventsOf, end, end);
    ReportedConcat(file, [end]);
    TwoLines(IntervalsOf, end, end);
  }

  /** The time of the last operation. */
  function LastTime(last: int, ops: seq<Op>): int {
    if ops == [] then last else ops[|ops| - 1].now
  }

  lemma ClosedStops(c: Counter, last: int, ops: seq<Op>)
    requires c.closed && Legal(c, last, ops)
    ensures ops == []
  {
  }

  lemma {:induction false} RunKeeps(c: Counter, last: int, events: nat, ops: seq<Op>)
    requires Inv(c, last, events) && !c.closed && Legal(c, last, ops)
    ensures var r := Run(c, last, ops);
            if r.closed then Printed(r.file) == events + Events(ops)
            else Inv(r, LastTime(last, ops), events + Events(ops))
    decreases |ops|
  {
    if ops != [] {
      var op := ops[0];
      var c' := Apply(c, op);
      if op.Close? {
        ClosedSums(c, last, events, op.now);
        ClosedStops(c', op.now, ops[1..]);
      } else {
        StepKeeps(c, last, events, op);
        RunKeeps(c', op.now, events + (if op.Event? then 1 else 0), ops[1..]);
      }
    }
  }

  // ---- main results -------------------------------------------------------

  /** After any operations on a new counter: until it is closed, the flush time is
      on the grid, one period past the reported ones, and within one period of the
      last operation; and every event is in the counter or in one written count.
      A closed file accounts for all events. */
  lemma CounterIsExact(start: int, ops: seq<Op>)
    requires Legal(NewCounter(start), start, ops)
    ensures var r := Run(NewCounter(start), start, ops);
            && (!r.closed ==> Grid(r, LastTime(start, ops)) && Printed(r.file) + r.ctr == Events(ops))
            && (r.closed ==> Printed(r.file) == Events(ops))
  {
    RunKeeps(NewCounter(start), start, 0, ops);
  }

  /** An event that starts a new period leaves the flush time in the period ahead. */
  lemma FlushTimeIsAhead(start: int, ops: seq<Op>, now: int)
    requires Legal(NewCounter(start), start, ops)
    requires var r := Run(NewCounter(start), start, ops); Enabled(r, LastTime(start, ops), Event(now)) && now > r.flush
    ensures var r := Run(NewCounter(start), start, ops);
            && now < Handled(r, now).flush <= now + r.period
            && Reported(r.file) < Reported(Handled(r, now).file)
            && Handled(r, now).flush == r.flush + (Reported(Handled(r, now).file) - Reported(r.file)) * r.period
  {
    var r := Run(NewCounter(start), start, ops);
    RunKeeps(NewCounter(start), start, 0, ops);
    PastIsExact(r, now);
    FlushAdvance(r, now);
    HandledFile(r, now);
  }
}
