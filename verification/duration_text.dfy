/** `formatDuration`: durations as text, with as many units as they need. */
module DurationText {
  import opened LogRecord
  import opened DecimalText
  import opened Timespecs

  const S_PER_MIN: nat := 60
  const S_PER_HOUR: nat := 60 * S_PER_MIN
  const S_PER_DAY: nat := 24 * S_PER_HOUR

  /** A 32-bit value printed as a signed number. */
  function Signed32(n: nat): string {
    var v := n % TWO_32;
    if v < TWO_31 then Digits(v) else "-" + Digits(TWO_32 - v)
  }

  function Clock2(n: nat): string { Padded('0', 2, n % 256) }

  function Nanos(ns: nat): string { Padded('0', 9, ns) }

  function Unit(units: bool, unit: string): string { if units then unit else "" }

  // ---- the text -----------------------------------------------------------

  /** The text without its unit.  The comparisons are strict: exactly one day is
      printed as 24 hours, one hour as 60 minutes, one minute as 60 seconds. */
  function Text(t: nat, ns: nat): string {
    if t > S_PER_DAY then Signed32(t / S_PER_DAY) + "_" + HourText(t % S_PER_DAY, ns)
    else if t > S_PER_HOUR then HourText(t, ns)
    else if t > S_PER_MIN then MinuteText(t, ns)
    else if t > 0 then SpacedText(t % 256, ns)
    else Grouped(ns)
  }

  function HourText(t: nat, ns: nat): string { Clock2(t / S_PER_HOUR) + ":" + MinuteText(t % S_PER_HOUR, ns) }

  function MinuteText(t: nat, ns: nat): string { Clock2(t / 60) + ":" + SecondText(t % 60, ns) }

  function SecondText(t: nat, ns: nat): string { Clock2(t) + ":" + Nanos(ns) }

  function SpacedText(t: nat, ns: nat): string { Padded(' ', 2, t) + ":" + Nanos(ns) }

  function UnitOf(t: nat): string {
    if t > S_PER_DAY then " days_hh:mm:ss:ns"
    else if t > S_PER_HOUR then " hh:mm:ss:ns"
    else if t > S_PER_MIN then " mm:ss:ns"
    else if t > 0 then " ss:ns"
    else " ns"
  }

  // ---- reading it back ----------------------------------------------------

  function UpToSpace(s: string): string {
    if s == "" || s[0] == ' ' then "" else [s[0]] + UpToSpace(s[1..])
  }

  /** The unit follows the first space that is not the first character. */
  function WithoutUnit(s: string): string {
    if s == "" then "" else [s[0]] + UpToSpace(s[1..])
  }

  predicate Separates(c: char) { c == ':' || c == '_' }

  predicate Field(s: string) { forall i :: 0 <= i < |s| ==> !Separates(s[i]) }

  predicate NoSpace(s: string) { forall i :: 0 <= i < |s| ==> s[i] != ' ' }

  /** Nothing, or a space and more. */
  predicate IsUnit(unit: string) { unit == "" || unit[0] == ' ' }

  /** The numbers between the separators. */
  function Fields(s: string, acc: nat): seq<nat> {
    if s == "" then [acc]
    else if Separates(s[0]) then [acc] + Fields(s[1..], 0)
    else Fields(s[1..], if '0' <= s[0] <= '9' then acc * 10 + (s[0] - '0') as nat else acc)
  }

  /** Days, hours, minutes and seconds, as many as there are, as seconds. */
  function Seconds(f: seq<nat>): nat {
    if f == [] then 0
    else
      var rest := Seconds(f[1..]);
      (match |f|
       case 1 => f[0]
       case 2 => f[0] * S_PER_MIN
       case 3 => f[0] * S_PER_HOUR
       case _ => f[0] * S_PER_DAY) + rest
  }

  /** The duration that a text stands for. */
  function Decode(s: string): (nat, nat) {
    var f := Fields(WithoutUnit(s), 0);
    if f == [] then (0, 0) else (Seconds(f[..|f| - 1]), f[|f| - 1])
  }

  lemma {:induction false} FieldsOfOne(a: string, acc: nat)
    requires Field(a)
    ensures Fields(a, acc) == [Num(a, acc)]
  {
    if a != "" { FieldsOfOne(a[1..], if '0' <= a[0] <= '9' then acc * 10 + (a[0] - '0') as nat else acc); }
  }

  lemma {:induction false} FieldsOfMore(a: string, sep: char, rest: string, acc: nat)
    requires Field(a) && Separates(sep)
    ensures Fields(a + [sep] + rest, acc) == [Num(a, acc)] + Fields(rest, 0)
  {
    var s := a + [sep] + rest;
    if a == "" {
      assert s[1..] == rest;
    } else {
      assert s[0] == a[0] && s[1..] == a[1..] + [sep] + rest;
      FieldsOfMore(a[1..], sep, rest, if '0' <= a[0] <= '9' then acc * 10 + (a[0] - '0') as nat else acc);
    }
  }

  lemma {:induction false} SpaceEnds(a: string, unit: string)
    requires NoSpace(a) && IsUnit(unit)
    ensures UpToSpace(a + unit) == a
  {
    if a == "" {
      assert a + unit == unit;
    } else {
      assert (a + unit)[1..] == a[1..] + unit;
      SpaceEnds(a[1..], unit);
    }
  }

  lemma UnitIsCut(body: string, unit: string)
    requires body != "" && NoSpace(body[1..]) && IsUnit(unit)
    ensures WithoutUnit(body + unit) == body
  {
    assert (body + unit)[1..] == body[1..] + unit;
    SpaceEnds(body[1..], unit);
  }

  // ---- the fields of the text ---------------------------------------------

  lemma {:induction false} DigitsPlain(n: nat)
    ensures Field(Digits(n)) && NoSpace(Digits(n))
  {
    if n >= 10 { DigitsPlain(n / 10); }
  }

  lemma PaddedPlain(fill: char, width: nat, n: nat)
    requires fill == '0' || fill == ' '
    ensures Field(Padded(fill, width, n)) && (fill == '0' ==> NoSpace(Padded(fill, width, n)))
    ensures Padded(fill, width, n) != ""
    ensures width <= 2 ==> NoSpace(Padded(fill, width, n)[1..])
  {
    DigitsPlain(n);
  }

  lemma {:induction false} GroupedPlain(n: nat)
    ensures Field(Grouped(n)) && NoSpace(Grouped(n)) && Grouped(n) != ""
  {
    if n < 1000 {
      DigitsPlain(n);
    } else {
      GroupedPlain(n / 1000);
      PaddedPlain('0', 3, n % 1000);
    }
  }

  /** A text that begins with a field. */
  lemma FieldThen(a: string, sep: char, rest: string, n: nat, f: seq<nat>)
    requires Field(a) && NoSpace(a) && a != "" && Num(a, 0) == n && Separates(sep)
    requires NoSpace(rest) && Fields(rest, 0) == f
    ensures Fields(a + [sep] + rest, 0) == [n] + f
    ensures NoSpace(a + [sep] + rest) && a + [sep] + rest != ""
  {
    FieldsOfMore(a, sep, rest, 0);
  }

  lemma SmallClock2(n: nat)
    requires n < 256
    ensures Clock2(n) == Padded('0', 2, n)
  {
    assert n % 256 == n;
  }

  lemma ClockField(n: nat)
    requires n < 256
    ensures Field(Clock2(n)) && NoSpace(Clock2(n)) && Clock2(n) != "" && Num(Clock2(n), 0) == n
  {
    SmallClock2(n);
    PaddedPlain('0', 2, n);
    NumPadded('0', 2, n);
  }

  lemma NanosField(ns: nat)
    ensures NoSpace(Nanos(ns)) && Fields(Nanos(ns), 0) == [ns]
  {
    PaddedPlain('0', 9, ns);
    NumPadded('0', 9, ns);
    FieldsOfOne(Nanos(ns), 0);
  }

  lemma SecondFields(t: nat, ns: nat)
    requires t < 60
    ensures Fields(SecondText(t, ns), 0) == [t] + [ns] && NoSpace(SecondText(t, ns)) && SecondText(t, ns) != ""
  {
    ClockField(t);
    NanosField(ns);
    FieldThen(Clock2(t), ':', Nanos(ns), t, [ns]);
  }

  lemma MinuteFields(t: nat, ns: nat)
    requires t <= S_PER_HOUR
    ensures Fields(MinuteText(t, ns), 0) == [t / 60, t % 60] + [ns]
    ensures NoSpace(MinuteText(t, ns)) && MinuteText(t, ns) != ""
  {
    ClockField(t / 60);
    SecondFields(t % 60, ns);
    FieldThen(Clock2(t / 60), ':', SecondText(t % 60, ns), t / 60, [t % 60] + [ns]);
    assert [t / 60] + ([t % 60] + [ns]) == [t / 60, t % 60] + [ns];
  }

  /** Hours, minutes and seconds of t, and days before them. */
  function HourParts(t: nat): seq<nat> { [t / S_PER_HOUR] + [t % S_PER_HOUR / 60, t % S_PER_HOUR % 60] }

  function DayParts(t: nat): seq<nat> { [t / S_PER_DAY] + HourParts(t % S_PER_DAY) }

  lemma HourFields(t: nat, ns: nat)
    requires t <= S_PER_DAY
    ensures Fields(HourText(t, ns), 0) == HourParts(t) + [ns]
    ensures NoSpace(HourText(t, ns)) && HourText(t, ns) != ""
  {
    var h, r := t / S_PER_HOUR, t % S_PER_HOUR;
    ClockField(h);
    MinuteFields(r, ns);
    FieldThen(Clock2(h), ':', MinuteText(r, ns), h, [r / 60, r % 60] + [ns]);
    Associative([h], [r / 60, r % 60], [ns]);
  }

  lemma Associative(a: seq<nat>, b: seq<nat>, c: seq<nat>)
    ensures a + (b + c) == (a + b) + c
  {
  }

  lemma DayFields(t: nat, ns: nat)
    requires t > S_PER_DAY && t / S_PER_DAY < TWO_31
    ensures Fields(Text(t, ns), 0) == [t / S_PER_DAY] + Fields(HourText(t % S_PER_DAY, ns), 0)
    ensures NoSpace(Text(t, ns)) && Text(t, ns) != ""
  {
    var days, rest := t / S_PER_DAY, t % S_PER_DAY;
    DaysField(days);
    HourFields(rest, ns);
    FieldThen(Signed32(days), '_', HourText(rest, ns), days, Fields(HourText(rest, ns), 0));
  }

  lemma SmallSigned32(n: nat)
    requires n < TWO_31
    ensures Signed32(n) == Digits(n)
  {
    assert n % TWO_32 == n;
  }

  lemma DaysField(days: nat)
    requires days < TWO_31
    ensures var a := Signed32(days); Field(a) && NoSpace(a) && a != "" && Num(a, 0) == days
  {
    SmallSigned32(days);
    DigitsPlain(days);
    NumDigits(days);
  }

  lemma SecondsOf(a: nat, b: nat, c: nat, d: nat)
    ensures Seconds([a]) == a && Seconds([a, b]) == a * S_PER_MIN + b
    ensures Seconds([a, b, c]) == a * S_PER_HOUR + b * S_PER_MIN + c
    ensures Seconds([a, b, c, d]) == a * S_PER_DAY + b * S_PER_HOUR + c * S_PER_MIN + d
    ensures Seconds([]) == 0
  {
    assert [a][1..] == [] && [a, b][1..] == [b] && [b][1..] == [] && [a, b, c][1..] == [b, c] && [b, c][1..] == [c];
    assert [a, b, c, d][1..] == [b, c, d] && [b, c, d][1..] == [c, d] && [c, d][1..] == [d];
    assert [c][1..] == [] && [d][1..] == [];
    assert Seconds([b]) == b && Seconds([c]) == c && Seconds([d]) == d;
    assert Seconds([c, d]) == c * S_PER_MIN + d && Seconds([b, c]) == b * S_PER_MIN + c;
  }

  /** A text of which the fields are known. */
  lemma DecodeIs(body: string, unit: string, f: seq<nat>, ns: nat)
    requires body != "" && NoSpace(body[1..]) && IsUnit(unit)
    requires Fields(body, 0) == f + [ns]
    ensures Decode(body + unit) == (Seconds(f), ns)
  {
    UnitIsCut(body, unit);
    assert (f + [ns])[..|f|] == f;
  }

  lemma HourSum(t: nat)
    ensures t / S_PER_HOUR * S_PER_HOUR + t % S_PER_HOUR / 60 * S_PER_MIN + t % S_PER_HOUR % 60 == t
  {
  }

  lemma PartsSum(t: nat)
    ensures Seconds(HourParts(t)) == t && Seconds(DayParts(t)) == t
  {
    var r := t % S_PER_DAY;
    assert HourParts(t) == [t / S_PER_HOUR, t % S_PER_HOUR / 60, t % S_PER_HOUR % 60];
    SecondsOf(t / S_PER_HOUR, t % S_PER_HOUR / 60, t % S_PER_HOUR % 60, 0);
    HourSum(t);
    assert DayParts(t) == [t / S_PER_DAY, r / S_PER_HOUR, r % S_PER_HOUR / 60, r % S_PER_HOUR % 60];
    SecondsOf(t / S_PER_DAY, r / S_PER_HOUR, r % S_PER_HOUR / 60, r % S_PER_HOUR % 60);
    HourSum(r);
  }

  lemma DecodeDays(t: nat, ns: nat, unit: string)
    requires t > S_PER_DAY && t / S_PER_DAY < TWO_31 && IsUnit(unit)
    ensures Decode(Text(t, ns) + unit) == (t, ns)
  {
    DayFields(t, ns);
    HourFields(t % S_PER_DAY, ns);
    Associative([t / S_PER_DAY], HourParts(t % S_PER_DAY), [ns]);
    PartsSum(t);
    DecodeIs(Text(t, ns), unit, DayParts(t), ns);
  }

  lemma DecodeHours(t: nat, ns: nat, unit: string)
    requires t <= S_PER_DAY && IsUnit(unit)
    ensures Decode(HourText(t, ns) + unit) == (t, ns)
  {
    HourFields(t, ns);
    PartsSum(t);
    DecodeIs(HourText(t, ns), unit, HourParts(t), ns);
  }

  lemma DecodeMinutes(t: nat, ns: nat, unit: string)
    requires t <= S_PER_HOUR && IsUnit(unit)
    ensures Decode(MinuteText(t, ns) + unit) == (t, ns)
  {
    var f := [t / 60, t % 60];
    MinuteFields(t, ns);
    SecondsOf(f[0], f[1], 0, 0);
    assert Fields(MinuteText(t, ns), 0) == f + [ns];
    DecodeIs(MinuteText(t, ns), unit, f, ns);
  }

  lemma SpacedField(t: nat)
    requires t <= S_PER_MIN
    ensures var a := Padded(' ', 2, t); Field(a) && a != "" && NoSpace(a[1..]) && Num(a, 0) == t
  {
    PaddedPlain(' ', 2, t);
    NumPadded(' ', 2, t);
  }

  lemma DecodeTwo(a: string, b: string, unit: string, t: nat, ns: nat)
    requires Field(a) && a != "" && NoSpace(a[1..]) && Num(a, 0) == t
    requires NoSpace(b) && Fields(b, 0) == [ns] && IsUnit(unit)
    ensures Decode(a + ":" + b + unit) == (t, ns)
  {
    FieldsOfMore(a, ':', b, 0);
    assert (a + ":" + b)[1..] == a[1..] + ":" + b;
    SecondsOf(t, 0, 0, 0);
    DecodeIs(a + ":" + b, unit, [t], ns);
  }

  lemma DecodeSeconds(t: nat, ns: nat, unit: string)
    requires t <= S_PER_MIN && IsUnit(unit)
    ensures Decode(SpacedText(t, ns) + unit) == (t, ns)
  {
    SpacedField(t);
    NanosField(ns);
    DecodeTwo(Padded(' ', 2, t), Nanos(ns), unit, t, ns);
  }

  lemma DecodeNanos(ns: nat, unit: string)
    requires IsUnit(unit)
    ensures Decode(Grouped(ns) + unit) == (0, ns)
  {
    GroupedPlain(ns);
    FieldsOfOne(Grouped(ns), 0);
    NumGrouped(ns);
    assert Fields(Grouped(ns), 0) == [] + [ns];
    DecodeIs(Grouped(ns), unit, [], ns);
  }

  lemma UnitsAreUnits(t: nat, units: bool)
    ensures IsUnit(Unit(units, UnitOf(t)))
  {
  }

  lemma DecodeAny(t: nat, ns: nat, unit: string)
    requires t / S_PER_DAY < TWO_31 && IsUnit(unit)
    ensures Decode(Text(t, ns) + unit) == (t, ns)
  {
    if t > S_PER_DAY {
      DecodeDays(t, ns, unit);
    } else if t > S_PER_HOUR {
      assert Text(t, ns) == HourText(t, ns);
      DecodeHours(t, ns, unit);
    } else if t > S_PER_MIN {
      assert Text(t, ns) == MinuteText(t, ns);
      DecodeMinutes(t, ns, unit);
    } else {
      DecodeShort(t, ns, unit);
    }
  }

  lemma DecodeShort(t: nat, ns: nat, unit: string)
    requires t <= S_PER_MIN && IsUnit(unit)
    ensures Decode(Text(t, ns) + unit) == (t, ns)
  {
    if t > 0 {
      assert t % 256 == t;
      assert Text(t, ns) == SpacedText(t, ns);
      DecodeSeconds(t, ns, unit);
    } else {
      DecodeNanos(ns, unit);
    }
  }

  /** Every duration can be read back from its text, with or without the unit, at
      exact days, hours and minutes too. */
  lemma TextIsDecodable(t: nat, ns: nat, units: bool)
    requires t / S_PER_DAY < TWO_31
    ensures Decode(Text(t, ns) + Unit(units, UnitOf(t))) == (t, ns)
  {
    UnitsAreUnits(t, units);
    DecodeAny(t, ns, Unit(units, UnitOf(t)));
  }

  // ---- the code -----------------------------------------------------------

  /** `formatDuration`; the format reads the nanoseconds as a signed number. */
  method FormatDuration(seconds: nat, ns: nat, units: bool) returns (s: string)
    requires ns < TWO_63
    ensures s == Text(seconds, ns) + Unit(units, UnitOf(seconds))
    ensures seconds / S_PER_DAY < TWO_31 ==> Decode(s) == (seconds, ns)
  {
    var tSecs := seconds;
    if tSecs > S_PER_DAY {
      var days := tSecs / S_PER_DAY;
      tSecs := tSecs % S_PER_DAY;
      var hours := tSecs / S_PER_HOUR;
      tSecs := tSecs % S_PER_HOUR;
      var mins := tSecs / 60;
      var secs := tSecs % 60;
      s := Signed32(days) + "_" + (Clock2(hours) + ":" + (Clock2(mins) + ":" + (Clock2(secs) + ":" + Nanos(ns))));
      s := s + Unit(units, " days_hh:mm:ss:ns");
    } else if tSecs > S_PER_HOUR {
      var hours := tSecs / S_PER_HOUR;
      tSecs := tSecs % S_PER_HOUR;
      var mins := tSecs / 60;
      var secs := tSecs % 60;
      s := Clock2(hours) + ":" + (Clock2(mins) + ":" + (Clock2(secs) + ":" + Nanos(ns)));
      s := s + Unit(units, " hh:mm:ss:ns");
    } else if tSecs > S_PER_MIN {
      var mins := tSecs / 60;
      var secs := tSecs % 60;
      s := Clock2(mins) + ":" + (Clock2(secs) + ":" + Nanos(ns));
      s := s + Unit(units, " mm:ss:ns");
    } else if tSecs > 0 {
      s := Padded(' ', 2, tSecs % 256) + ":" + Nanos(ns);
      s := s + Unit(units, " ss:ns");
    } else {
      s := Grouped(ns) + Unit(units, " ns");
    }
    if seconds / S_PER_DAY < TWO_31 {
      TextIsDecodable(seconds, ns, units);
    }
  }

  /** A duration in nanoseconds is split into seconds and the rest. */
  method FormatDurationNs(ns: nat, units: bool) returns (s: string)
    requires ns < TWO_64
    ensures Decode(s).0 * NANO_S_PER_S + Decode(s).1 == ns
  {
    var splitS, splitNs := ns / NANO_S_PER_S, ns % NANO_S_PER_S;
    assert splitS / S_PER_DAY < TWO_31;
    s := FormatDuration(splitS, splitNs, units);
  }
}
