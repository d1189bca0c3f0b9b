/** Small datatypes and sequence functions shared by the models. */
module Base {
  datatype Option<+T> = None | Some(value: T)

  predicate NoDuplicates<T(==)>(s: seq<T>) {
    forall i, j :: 0 <= i < j < |s| ==> s[i] != s[j]
  }

  /** The concatenation of a sequence of sequences. */
  function Flatten<T>(ss: seq<seq<T>>): seq<T> {
    if ss == [] then [] else ss[0] + Flatten(ss[1..])
  }

  lemma {:induction false} FlattenConcat<T>(a: seq<seq<T>>, b: seq<seq<T>>)
    ensures Flatten(a + b) == Flatten(a) + Flatten(b)
  {
    if a == [] {
      assert a + b == b;
    } else {
      FlattenConcat(a[1..], b);
      assert (a + b)[1..] == a[1..] + b;
      assert Flatten(a + b) == a[0] + (Flatten(a[1..]) + Flatten(b));
    }
  }

  lemma FlattenAppend<T>(a: seq<seq<T>>, x: seq<T>)
    ensures Flatten(a + [x]) == Flatten(a) + x
  {
    FlattenConcat(a, [x]);
    assert Flatten([x]) == x + Flatten([x][1..]) == x;
  }

  /** Flattening a prefix gives a prefix. */
  lemma {:induction false} FlattenPrefix<T>(a: seq<seq<T>>, n: nat)
    requires n <= |a|
    ensures Flatten(a[..n]) <= Flatten(a)
  {
    FlattenConcat(a[..n], a[n..]);
    assert a == a[..n] + a[n..];
  }
}

/** The record one call of a logging handler produces: a tuple and a time stamp.
    Field widths are those of the C++ structures; `pad` stands for the four
    bytes that fill `struct timespec` up to 32 bytes. */
module LogRecord {
  const TWO_31: int := 0x8000_0000
  const TWO_32: int := 0x1_0000_0000
  const TWO_63: int := 0x8000_0000_0000_0000
  const TWO_64: int := 0x1_0000_0000_0000_0000

  type int64 = x: int | -TWO_63 <= x < TWO_63
  type uint64 = x: int | 0 <= x < TWO_64
  type uint32 = x: int | 0 <= x < TWO_32

  datatype Timespec = Timespec(sec: int64, nsec: int64, tsc: uint64, aux: uint32, pad: uint32)
  datatype LogData = LogData(tuple: int64, ts: Timespec)
}

/** Weights added up over a sequence: how often something occurs in a queue, in
    the hands of a set of threads, or in a set of channels. */
module Sums {
  function Total<T>(w: T -> nat, s: seq<T>): nat {
    if s == [] then 0 else w(s[0]) + Total(w, s[1..])
  }

  lemma {:induction false} TotalConcat<T>(w: T -> nat, a: seq<T>, b: seq<T>)
    ensures Total(w, a + b) == Total(w, a) + Total(w, b)
  {
    if a == [] {
      assert a + b == b;
    } else {
      TotalConcat(w, a[1..], b);
      assert (a + b)[1..] == a[1..] + b;
    }
  }

  lemma TotalAppend<T>(w: T -> nat, a: seq<T>, x: T)
    ensures Total(w, a + [x]) == Total(w, a) + w(x)
  {
    TotalConcat(w, a, [x]);
    assert Total(w, [x]) == w(x) + Total(w, [x][1..]);
  }

  lemma {:induction false} TotalUpdate<T>(w: T -> nat, s: seq<T>, i: nat, x: T)
    requires i < |s|
    ensures Total(w, s[i := x]) + w(s[i]) == Total(w, s) + w(x)
  {
    if i == 0 {
      assert s[0 := x][1..] == s[1..];
    } else {
      TotalUpdate(w, s[1..], i - 1, x);
      assert s[i := x][1..] == s[1..][i - 1 := x];
    }
  }

  lemma {:induction false} TotalZero<T>(w: T -> nat, s: seq<T>)
    ensures Total(w, s) == 0 <==> forall i :: 0 <= i < |s| ==> w(s[i]) == 0
  {
    if s != [] {
      TotalZero(w, s[1..]);
      assert forall i :: 1 <= i < |s| ==> s[i] == s[1..][i - 1];
      assert forall i :: 0 <= i < |s| - 1 ==> s[1..][i] == s[i + 1];
    }
  }

  /** What one position, or two, contribute is part of the total. */
  lemma {:induction false} TotalContains<T>(w: T -> nat, s: seq<T>, i: nat)
    requires i < |s|
    ensures w(s[i]) <= Total(w, s)
  {
    if i > 0 { TotalContains(w, s[1..], i - 1); }
  }

  lemma {:induction false} TotalContainsTwo<T>(w: T -> nat, s: seq<T>, i: nat, j: nat)
    requires i < j < |s|
    ensures w(s[i]) + w(s[j]) <= Total(w, s)
  {
    if i > 0 {
      TotalContainsTwo(w, s[1..], i - 1, j - 1);
    } else {
      TotalContains(w, s[1..], j - 1);
    }
  }

  /** A positive total has a position that contributes. */
  lemma TotalWitness<T>(w: T -> nat, s: seq<T>) returns (i: nat)
    requires Total(w, s) > 0
    ensures i < |s| && w(s[i]) > 0
  {
    TotalZero(w, s);
    i :| 0 <= i < |s| && w(s[i]) > 0;
  }

  /** If every element weighs one, the total is the length, and conversely. */
  lemma {:induction false} TotalFull<T>(w: T -> nat, s: seq<T>)
    requires forall x :: w(x) <= 1
    ensures Total(w, s) <= |s|
    ensures Total(w, s) == |s| <==> forall i :: 0 <= i < |s| ==> w(s[i]) == 1
  {
    if s != [] {
      TotalFull(w, s[1..]);
      assert forall i :: 1 <= i < |s| ==> s[i] == s[1..][i - 1];
      assert forall i :: 0 <= i < |s| - 1 ==> s[1..][i] == s[i + 1];
    }
  }
}

/** Facts about products and quotients. */
module Arithmetic {
  lemma MulMonotonic(a: nat, b: nat, d: nat)
    requires a <= b
    ensures a * d <= b * d
  {
  }

  lemma Quotient(e: nat, p: nat)
    requires p > 0
    ensures (e / p) * p <= e < (e / p) * p + p
  {
    assert e == (e / p) * p + e % p;
  }

  /** Quotient and remainder are the only pair that makes up the number. */
  lemma DivMod(n: nat, d: nat, q: nat, r: nat)
    requires r < d && n == q * d + r
    ensures n / d == q && n % d == r
  {
    var q', r' := n / d, n % d;
    assert n == q' * d + r';
    if q' < q {
      MulMonotonic(q' + 1, q, d);
    } else if q < q' {
      MulMonotonic(q + 1, q', d);
    }
  }
}
