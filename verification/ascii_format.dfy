/** Log files as text, one line for each record, and a reader of such files.  The
    reader splits at line ends and commas; the last line counts only if it is
    ended, so that a file that was cut off can be read as well. */
module AsciiFormat {
  import opened Base
  import opened LogRecord
  import opened DecimalText

  // ---- what is written ----------------------------------------------------

  function IntText(x: int): string { if x < 0 then "-" + Digits(-x) else Digits(x) }

  function Join(f: seq<string>, c: char): string
    requires f != []
  {
    if |f| == 1 then f[0] else f[0] + [c] + Join(f[1..], c)
  }

  /** `writeInAscii`, without the end of the line. */
  function AsciiLine(r: LogData): string {
    Join([IntText(r.tuple), " " + IntText(r.ts.sec), " " + IntText(r.ts.nsec), " " + IntText(r.ts.tsc),
          " " + IntText(r.ts.aux)], ',')
  }

  function AsciiLog(log: seq<LogData>): string {
    if log == [] then "" else AsciiLine(log[0]) + ['\n'] + AsciiLog(log[1..])
  }

  // ---- splitting ----------------------------------------------------------

  function Butlast(r: seq<string>): seq<string>
    requires r != []
  {
    r[..|r| - 1]
  }

  /** Where two texts meet, the last piece of one and the first of the other become one. */
  function Glue(p: seq<string>, q: seq<string>): (r: seq<string>)
    requires p != [] && q != []
    ensures Butlast(p) <= r && |r| == |p| + |q| - 1
  {
    Butlast(p) + [p[|p| - 1] + q[0]] + q[1..]
  }

  /** The pieces between the separators. */
  function Split(s: string, c: char): (r: seq<string>)
    ensures r != []
  {
    if s == "" then [""]
    else if s[0] == c then [""] + Split(s[1..], c)
    else Glue([[s[0]]], Split(s[1..], c))
  }

  lemma GlueIsAssociative(p: seq<string>, q: seq<string>, r: seq<string>)
    requires p != [] && q != [] && r != []
    ensures Glue(Glue(p, q), r) == Glue(p, Glue(q, r))
  {
    var x, y := Glue(Glue(p, q), r), Glue(p, Glue(q, r));
    if |q| == 1 {
      assert p[|p| - 1] + (q[0] + r[0]) == p[|p| - 1] + q[0] + r[0];
      assert Butlast(Glue(p, q)) == Butlast(p);
    } else {
      assert Butlast(Glue(p, q)) == Butlast(p) + [p[|p| - 1] + q[0]] + Butlast(q)[1..];
      assert Glue(q, r)[1..] == Butlast(q)[1..] + [q[|q| - 1] + r[0]] + r[1..];
    }
    assert |x| == |y| && forall i :: 0 <= i < |x| ==> x[i] == y[i];
  }

  lemma GlueCons(x: string, p: seq<string>, q: seq<string>)
    requires p != [] && q != []
    ensures Glue([x] + p, q) == [x] + Glue(p, q)
  {
    assert Butlast([x] + p) == [x] + Butlast(p);
  }

  lemma {:induction false} SplitConcat(a: string, b: string, c: char)
    ensures Split(a + b, c) == Glue(Split(a, c), Split(b, c))
  {
    if a == "" {
      assert a + b == b && "" + Split(b, c)[0] == Split(b, c)[0];
      assert Butlast([""]) == [];
    } else {
      assert (a + b)[1..] == a[1..] + b;
      SplitConcat(a[1..], b, c);
      if a[0] == c {
        GlueCons("", Split(a[1..], c), Split(b, c));
      } else {
        GlueIsAssociative([[a[0]]], Split(a[1..], c), Split(b, c));
      }
    }
  }

  lemma {:induction false} SplitNone(a: string, c: char)
    requires c !in a
    ensures Split(a, c) == [a]
  {
    if a != "" {
      SplitNone(a[1..], c);
      assert [a[0]] + a[1..] == a;
      assert Glue([[a[0]]], [a[1..]]) == [a];
    }
  }

  lemma SplitAt(a: string, b: string, c: char)
    requires c !in a
    ensures Split(a + [c] + b, c) == [a] + Split(b, c)
  {
    SplitNone(a, c);
    assert ([c] + b)[1..] == b;
    SplitConcat(a, [c] + b, c);
    assert a + [c] + b == a + ([c] + b) && a + "" == a;
    assert Glue([a], [""] + Split(b, c)) == [a] + Split(b, c);
  }

  // ---- the reader ---------------------------------------------------------

  /** What a line shows of a record: all but the bytes that fill the structure up. */
  datatype Shown = Shown(tuple: int, sec: int, nsec: int, tsc: int, aux: int)

  function Show(r: LogData): Shown { Shown(r.tuple, r.ts.sec, r.ts.nsec, r.ts.tsc, r.ts.aux) }

  function Int(s: string): int {
    var n: int := Num(s, 0);
    if '-' in s then -n else n
  }

  function ReadLine(line: string): Option<Shown> {
    var f := Split(line, ',');
    if |f| != 5 then None else Some(Shown(Int(f[0]), Int(f[1]), Int(f[2]), Int(f[3]), Int(f[4])))
  }

  /** The lines that are ended. */
  function Lines(text: string): seq<string> { Butlast(Split(text, '\n')) }

  function ReadLines(ls: seq<string>): seq<Option<Shown>> { seq(|ls|, i requires 0 <= i < |ls| => ReadLine(ls[i])) }

  function ReadAscii(text: string): seq<Option<Shown>> { ReadLines(Lines(text)) }

  // ---- one line -----------------------------------------------------------

  predicate Numeric(s: string) { forall c :: c in s ==> '0' <= c <= '9' || c == '-' || c == ' ' }

  lemma {:induction false} DigitsAreNumeric(n: nat)
    ensures forall c :: c in Digits(n) ==> '0' <= c <= '9'
  {
    if n >= 10 { DigitsAreNumeric(n / 10); }
  }

  lemma IntRoundTrip(x: int)
    ensures Numeric(IntText(x)) && Int(IntText(x)) == x
    ensures Numeric(" " + IntText(x)) && Int(" " + IntText(x)) == x
  {
    var n: nat := if x < 0 then -x else x;
    DigitsAreNumeric(n);
    NumDigits(n);
    NumSkips("-", Digits(n));
    NumSkips(" ", IntText(x));
  }

  lemma NumSkips(a: string, b: string)
    requires |a| == 1 && !('0' <= a[0] <= '9')
    ensures Num(a + b, 0) == Num(b, 0)
  {
    assert (a + b)[1..] == b;
  }

  lemma {:induction false} SplitJoin(f: seq<string>, c: char)
    requires f != [] && forall i :: 0 <= i < |f| ==> c !in f[i]
    ensures Split(Join(f, c), c) == f
  {
    if |f| == 1 {
      SplitNone(f[0], c);
    } else {
      SplitJoin(f[1..], c);
      SplitAt(f[0], Join(f[1..], c), c);
    }
  }

  lemma {:induction false} JoinHasNo(f: seq<string>, c: char, d: char)
    requires f != [] && c != d && forall i :: 0 <= i < |f| ==> d !in f[i]
    ensures d !in Join(f, c)
  {
    if |f| > 1 { JoinHasNo(f[1..], c, d); }
  }

  /** A line is read back, and has no line end in it. */
  lemma LineRoundTrip(r: LogData)
    ensures ReadLine(AsciiLine(r)) == Some(Show(r)) && '\n' !in AsciiLine(r)
  {
    IntRoundTrip(r.tuple);
    IntRoundTrip(r.ts.sec);
    IntRoundTrip(r.ts.nsec);
    IntRoundTrip(r.ts.tsc);
    IntRoundTrip(r.ts.aux);
    var f := [IntText(r.tuple), " " + IntText(r.ts.sec), " " + IntText(r.ts.nsec), " " + IntText(r.ts.tsc),
              " " + IntText(r.ts.aux)];
    SplitJoin(f, ',');
    JoinHasNo(f, ',', '\n');
  }

  lemma FirstLine(line: string, text: string)
    requires '\n' !in line
    ensures ReadAscii(line + ['\n'] + text) == [ReadLine(line)] + ReadAscii(text)
  {
    SplitAt(line, text, '\n');
    assert Lines(line + ['\n'] + text) == [line] + Lines(text);
  }

  // ---- main results -------------------------------------------------------

  /** Whatever was logged is read back from the text. */
  lemma {:induction false} AsciiRoundTrip(log: seq<LogData>)
    ensures ReadAscii(AsciiLog(log)) == seq(|log|, i requires 0 <= i < |log| => Some(Show(log[i])))
  {
    if log != [] {
      AsciiRoundTrip(log[1..]);
      LineRoundTrip(log[0]);
      FirstLine(AsciiLine(log[0]), AsciiLog(log[1..]));
    }
  }

  /** Text that was cut off yields the lines in front of the cut. */
  lemma ReadAsciiOfPrefix(text: string, n: nat)
    requires n <= |text|
    ensures ReadAscii(text[..n]) <= ReadAscii(text)
  {
    assert text == text[..n] + text[n..];
    SplitConcat(text[..n], text[n..], '\n');
    assert Lines(text[..n]) <= Lines(text);
  }

  lemma {:induction false} AsciiConcat(a: seq<LogData>, b: seq<LogData>)
    ensures AsciiLog(a + b) == AsciiLog(a) + AsciiLog(b)
  {
    if a == [] {
      assert a + b == b;
    } else {
      assert (a + b)[1..] == a[1..] + b;
      AsciiConcat(a[1..], b);
      StringsAssociate(AsciiLine(a[0]) + ['\n'], AsciiLog(a[1..]), AsciiLog(b));
    }
  }

  lemma StringsAssociate(x: string, y: string, z: string)
    ensures x + y + z == x + (y + z)
  {
  }

  lemma AsciiAppend(log: seq<LogData>, r: LogData)
    ensures AsciiLog(log + [r]) == AsciiLog(log) + AsciiLine(r) + ['\n']
  {
    AsciiConcat(log, [r]);
    assert [r][1..] == [] && AsciiLine(r) + ['\n'] + "" == AsciiLine(r) + ['\n'];
    assert AsciiLog([r]) == AsciiLine(r) + ['\n'];
    assert AsciiLog(log) + (AsciiLine(r) + ['\n']) == AsciiLog(log) + AsciiLine(r) + ['\n'];
  }

  /** `writeInAscii` adds one line to the file. */
  method WriteInAscii(logf: string, ghost log: seq<LogData>, r: LogData) returns (logf': string)
    requires logf == AsciiLog(log)
    ensures logf' == AsciiLog(log + [r])
  {
    AsciiAppend(log, r);
    logf' := logf + AsciiLine(r) + ['\n'];
  }
}
