/** Logging the first X of every Y tuples, with a bit mask in place of a modulo. */
module XoY {
  import opened Arithmetic
  import opened LogRecord

  const X_FACTOR: nat := 100
  const Y_FACTOR: nat := 16384
  const TWO_52: nat := 0x10_0000_0000_0000
  const TWO_53: nat := 0x20_0000_0000_0000

  function Pow2(k: nat): (p: nat)
    ensures p > 0
  {
    if k == 0 then 1 else 2 * Pow2(k - 1)
  }

  ghost predicate IsPowerOfTwo(n: nat) {
    exists k: nat :: n == Pow2(k)
  }

  /** Bitwise and. */
  function BitAnd(a: nat, b: nat): nat
    decreases a
  {
    if a == 0 || b == 0 then 0 else 2 * BitAnd(a / 2, b / 2) + a % 2 * (b % 2)
  }

  /** The conversion of a signed value to 64 unsigned bits. */
  function U64(v: int): nat { v % TWO_64 }

  // ---- mask and modulo ----------------------------------------------------

  lemma HalfMod(t: nat, p: nat)
    requires p > 0
    ensures t % (2 * p) == 2 * (t / 2 % p) + t % 2
  {
    var h := t / 2;
    var q, r := h / p, h % p;
    assert h == q * p + r;
    assert t == 2 * h + t % 2;
    assert t == q * (2 * p) + (2 * r + t % 2);
    DivMod(t, 2 * p, q, 2 * r + t % 2);
  }

  lemma AndStep(t: nat, p: nat)
    requires t > 0 && p > 0
    ensures BitAnd(t, 2 * p - 1) == 2 * BitAnd(t / 2, p - 1) + t % 2
  {
    assert (2 * p - 1) / 2 == p - 1 && (2 * p - 1) % 2 == 1;
  }

  lemma MaskStep(t: nat, p: nat)
    requires t > 0 && p > 0 && BitAnd(t / 2, p - 1) == t / 2 % p
    ensures BitAnd(t, 2 * p - 1) == t % (2 * p)
  {
    HalfMod(t, p);
    AndStep(t, p);
  }

  lemma {:induction false} PowerMask(t: nat, k: nat)
    ensures BitAnd(t, Pow2(k) - 1) == t % Pow2(k)
  {
    if k == 0 {
      assert Pow2(k) == 1;
    } else if t == 0 {
      DivMod(0, Pow2(k), 0, 0);
    } else {
      PowerMask(t / 2, k - 1);
      MaskStep(t, Pow2(k - 1));
    }
  }

  lemma {:induction false} AndSelf(n: nat)
    ensures BitAnd(n, n) == n
  {
    if n > 0 { AndSelf(n / 2); }
  }

  /** An odd number and its predecessor have all bits in common but the last. */
  lemma OddAnd(y: nat)
    requires y > 1 && y % 2 == 1
    ensures BitAnd(y, y - 1) == 2 * (y / 2)
  {
    assert (y - 1) / 2 == y / 2;
    AndSelf(y / 2);
  }

  lemma {:induction false} NoCommonBit(y: nat)
    requires y > 0 && BitAnd(y, y - 1) == 0
    ensures IsPowerOfTwo(y)
    decreases y
  {
    if y == 1 {
      assert y == Pow2(0);
    } else if y % 2 == 1 {
      OddAnd(y);
    } else {
      assert (y - 1) / 2 == y / 2 - 1;
      NoCommonBit(y / 2);
      var k: nat :| y / 2 == Pow2(k);
      assert y == Pow2(k + 1);
    }
  }

  /** Masking with y - 1 is reducing modulo y, for all tuples, exactly when y is a
      power of two. */
  lemma MaskIsModulo(y: nat)
    requires 0 < y < TWO_64
    ensures (forall t: nat :: t < TWO_64 ==> BitAnd(t, y - 1) == t % y) <==> IsPowerOfTwo(y)
  {
    if IsPowerOfTwo(y) {
      var k: nat :| y == Pow2(k);
      forall t: nat ensures BitAnd(t, y - 1) == t % y { PowerMask(t, k); }
    } else if BitAnd(y, y - 1) == 0 {
      NoCommonBit(y);
    } else {
      assert y % y == 0;
    }
  }

  // ---- the consistency check ----------------------------------------------

  /** How many low bits do not fit into the 53 of a double. */
  function Excess(y: nat): nat {
    if y < TWO_53 then 0 else 1 + Excess(y / 2)
  }

  /** The double nearest to y; of two that are equally near, the even one. */
  function Rounded(y: nat): nat {
    var unit := Pow2(Excess(y));
    var q, r := y / unit, y % unit;
    (if 2 * r < unit || (2 * r == unit && q % 2 == 0) then q else q + 1) * unit
  }

  /** `lg` stands for floor(log2(x)) on doubles, of which only its exactness at powers
      of two matters. */
  ghost predicate ExactAtPowers(lg: nat -> int) {
    forall k: nat :: lg(Pow2(k)) == k
  }

  /** `checkConsistency`.  For zero, the logarithm is minus infinity and its power is
      zero again; a negative power is a fraction. */
  predicate CheckConsistency(x: nat, y: nat, lg: nat -> int) {
    if y < x then false
    else
      var param := Rounded(y);
      if param == 0 then true
      else
        var result := lg(param);
        result >= 0 && Pow2(result) == param
  }

  /** The check accepts what is a power of two once rounded to a double, and zero. */
  lemma CheckMeans(x: nat, y: nat, lg: nat -> int)
    requires ExactAtPowers(lg)
    ensures CheckConsistency(x, y, lg) <==> x <= y && (Rounded(y) == 0 || IsPowerOfTwo(Rounded(y)))
  {
    if IsPowerOfTwo(Rounded(y)) {
      var k: nat :| Rounded(y) == Pow2(k);
      assert lg(Pow2(k)) == k;
    }
  }

  /** Up to 2^53, the check is for powers of two. */
  lemma CheckIsExact(x: nat, y: nat, lg: nat -> int)
    requires ExactAtPowers(lg) && 0 < y <= TWO_53
    ensures CheckConsistency(x, y, lg) <==> x <= y && IsPowerOfTwo(y)
  {
    CheckMeans(x, y, lg);
    if y == TWO_53 {
      assert Excess(TWO_53) == 1 && Pow2(1) == 2 && Rounded(TWO_53) == TWO_53;
    } else {
      assert Excess(y) == 0 && Pow2(0) == 1 && Rounded(y) == y;
    }
  }

  lemma OddIsNoPower(n: nat)
    requires n > 1 && n % 2 == 1
    ensures !IsPowerOfTwo(n)
  {
    forall k: nat ensures n != Pow2(k) {
      assert k > 0 ==> Pow2(k) == 2 * Pow2(k - 1);
    }
  }

  lemma {:induction false} PowerAdd(a: nat, b: nat)
    ensures Pow2(a + b) == Pow2(a) * Pow2(b)
  {
    if a > 0 {
      PowerAdd(a - 1, b);
      assert a - 1 + b == a + b - 1;
      assert 2 * (Pow2(a - 1) * Pow2(b)) == 2 * Pow2(a - 1) * Pow2(b);
    }
  }

  /** Above 2^53 rounding lets through values that are no powers of two, and so does
      the conversion of -1: the mask then is not a modulo. */
  lemma RoundingAccepts(lg: nat -> int)
    requires ExactAtPowers(lg)
    ensures CheckConsistency(X_FACTOR, TWO_53 + 1, lg) && !IsPowerOfTwo(TWO_53 + 1)
    ensures CheckConsistency(X_FACTOR, U64(-1), lg) && !IsPowerOfTwo(U64(-1))
    ensures CheckConsistency(0, 0, lg)
  {
    Powers();
    var a := TWO_53 + 1;
    assert a / 2 == TWO_52 && Excess(a / 2) == 0;
    assert Excess(a) == 1 && Pow2(1) == 2;
    assert Rounded(a) == TWO_53;
    CheckMeans(X_FACTOR, a, lg);
    OddIsNoPower(a);
    LargestRounds();
    CheckMeans(X_FACTOR, U64(-1), lg);
    OddIsNoPower(U64(-1));
    assert Rounded(0) == 0;
  }

  lemma Product(a: nat, b: nat, x: nat, y: nat, z: nat)
    requires Pow2(a) == x && Pow2(b) == y && x * y == z
    ensures Pow2(a + b) == z
  {
    PowerAdd(a, b);
  }

  lemma Powers()
    ensures Pow2(53) == TWO_53 && Pow2(64) == TWO_64 && Pow2(11) == 2048
  {
    var p11, p22, p44, p53 := 2048, 4194304, 17592186044416, TWO_53;
    Product(4, 4, 16, 16, 256);
    Product(8, 1, 256, 2, 512);
    Product(8, 3, 256, 8, p11);
    Product(11, 11, p11, p11, p22);
    Product(22, 22, p22, p22, p44);
    Product(44, 9, p44, 512, p53);
    Product(53, 11, p53, p11, TWO_64);
  }

  lemma AtLeastTwo53(k: nat)
    ensures Pow2(53 + k) >= TWO_53
  {
    Powers();
    PowerAdd(53, k);
    MulMonotonic(1, Pow2(k), TWO_53);
  }

  lemma {:induction false} ExcessOfOnes(k: nat)
    ensures Excess(Pow2(53 + k) - 1) == k
  {
    if k == 0 {
      Powers();
    } else {
      ExcessOfOnes(k - 1);
      AtLeastTwo53(k - 1);
      assert Pow2(53 + k) == 2 * Pow2(53 + (k - 1));
    }
  }

  lemma LargestRounds()
    ensures U64(-1) == TWO_64 - 1 && Rounded(TWO_64 - 1) == TWO_64
  {
    Powers();
    ExcessOfOnes(11);
  }

  // ---- the handler --------------------------------------------------------

  datatype Factors = Factors(x: nat, y: nat, mask: nat)

  /** What is logged: the number of the tuple, as 64 unsigned bits, under the mask. */
  predicate Logs(f: Factors, tuple: int) { BitAnd(U64(tuple), f.mask) < f.x }

  /** A parameter call; `SetBoth` is the call with all arguments at once. */
  datatype Call = SetX(value: int) | SetY(value: int) | SetBoth(x: int, y: int)

  /** One parameter; false when the value is inconsistent. */
  function SetOne(f: Factors, isY: bool, value: int, lg: nat -> int): (Factors, bool) {
    if isY then
      if CheckConsistency(f.x, U64(value), lg) then (f.(y := U64(value), mask := U64(value - 1)), true) else (f, false)
    else
      if CheckConsistency(U64(value), f.y, lg) then (f.(x := U64(value)), true) else (f, false)
  }

  /** Y is set before X. */
  function SetArg(f: Factors, call: Call, lg: nat -> int): (Factors, bool) {
    match call
    case SetX(v) => SetOne(f, false, v, lg)
    case SetY(v) => SetOne(f, true, v, lg)
    case SetBoth(x, y) =>
      var (f1, ok) := SetOne(f, true, y, lg);
      if ok then SetOne(f1, false, x, lg) else (f1, false)
  }

  /** All calls, in order, whether or not they succeed. */
  function SetArgs(f: Factors, calls: seq<Call>, lg: nat -> int): Factors
    decreases |calls|
  {
    if calls == [] then f else SetArgs(SetArg(f, calls[0], lg).0, calls[1..], lg)
  }

  /** The values of Y are positive and at most 2^53; X is any value. */
  predicate YInRange(call: Call) {
    match call
    case SetX(_) => true
    case SetY(v) => 0 < v <= TWO_53
    case SetBoth(_, y) => 0 < y <= TWO_53
  }

  ghost predicate Sound(f: Factors) {
    0 < f.y <= TWO_53 && IsPowerOfTwo(f.y) && f.x <= f.y && f.mask == f.y - 1
  }

  lemma SetOneKeeps(f: Factors, isY: bool, value: int, lg: nat -> int)
    requires Sound(f) && ExactAtPowers(lg) && (isY ==> 0 < value <= TWO_53)
    ensures Sound(SetOne(f, isY, value, lg).0)
  {
    if isY {
      CheckIsExact(f.x, U64(value), lg);
    } else {
      CheckIsExact(U64(value), f.y, lg);
    }
  }

  lemma {:induction false} SetArgsKeep(f: Factors, calls: seq<Call>, lg: nat -> int)
    requires Sound(f) && ExactAtPowers(lg) && forall i :: 0 <= i < |calls| ==> YInRange(calls[i])
    ensures Sound(SetArgs(f, calls, lg))
    decreases |calls|
  {
    if calls != [] {
      var call := calls[0];
      match call {
        case SetX(v) => SetOneKeeps(f, false, v, lg);
        case SetY(v) => SetOneKeeps(f, true, v, lg);
        case SetBoth(x, y) =>
          SetOneKeeps(f, true, y, lg);
          SetOneKeeps(SetOne(f, true, y, lg).0, false, x, lg);
      }
      SetArgsKeep(SetArg(f, call, lg).0, calls[1..], lg);
    }
  }

  /** After any parameter calls with values of Y up to 2^53, Y is a power of two not
      below X, and exactly the first X of every Y tuples are logged. */
  lemma {:induction false} LogsFirstXOfY(calls: seq<Call>, lg: nat -> int, tuple: int)
    requires ExactAtPowers(lg) && forall i :: 0 <= i < |calls| ==> YInRange(calls[i])
    ensures var f := SetArgs(Factors(X_FACTOR, Y_FACTOR, Y_FACTOR - 1), calls, lg);
            Sound(f) && (Logs(f, tuple) <==> U64(tuple) % f.y < f.x)
  {
    var f0 := Factors(X_FACTOR, Y_FACTOR, Y_FACTOR - 1);
    assert Y_FACTOR == Pow2(14);
    assert Sound(f0);
    SetArgsKeep(f0, calls, lg);
    var f := SetArgs(f0, calls, lg);
    MaskIsModulo(f.y);
    assert BitAnd(U64(tuple), f.y - 1) == U64(tuple) % f.y;
  }

  // ---- the code -----------------------------------------------------------

  /** `floor` and `log2` are those of the C library. */
  class XoYClosure {
    const lg: nat -> int
    var xFactor: nat
    var yFactor: nat
    var yMask: nat
    var closed: bool
    var chLogf: seq<int>

    function View(): Factors
      reads this
    {
      Factors(xFactor, yFactor, yMask)
    }

    constructor (lg: nat -> int)
      ensures View() == Factors(X_FACTOR, Y_FACTOR, Y_FACTOR - 1) && !closed && chLogf == [] && this.lg == lg
    {
      this.lg := lg;
      xFactor, yFactor, yMask := X_FACTOR, Y_FACTOR, Y_FACTOR - 1;
      closed, chLogf := false, [];
    }

    method XoYHandler(tuple: int)
      modifies `chLogf
      ensures chLogf == if Logs(View(), tuple) then old(chLogf) + [tuple] else old(chLogf)
      ensures Sound(View()) ==>
        chLogf == if U64(tuple) % yFactor < xFactor then old(chLogf) + [tuple] else old(chLogf)
    {
      if Sound(View()) { MaskIsModulo(yFactor); }
      if BitAnd(tuple % TWO_64, yMask) < xFactor {
        chLogf := chLogf + [tuple];
      }
    }

    /** `setArgXoYHandler` for a single argument; other numbers close the channel. */
    method SetArgXoYHandler(argNumber: int, argValue: int) returns (ret: int)
      requires -TWO_63 <= argValue < TWO_63
      modifies this
      ensures argNumber !in {0, 1} ==> ret == -1 && View() == old(View())
      ensures argNumber in {0, 1} ==> (View(), ret == 0) == SetOne(old(View()), argNumber == 1, argValue, lg)
      ensures ret in {0, -1} && closed == (old(closed) || ret == -1) && chLogf == old(chLogf)
    {
      if argNumber != 0 && argNumber != 1 {
        closed := true;
        return -1;
      }
      if argNumber == 0 {
        if CheckConsistency(U64(argValue), yFactor, lg) {
          xFactor := U64(argValue);
        } else {
          closed := true;
          return -1;
        }
      }
      if argNumber == 1 {
        if CheckConsistency(xFactor, U64(argValue), lg) {
          yFactor := U64(argValue);
          yMask := U64(argValue - 1);
        } else {
          closed := true;
          return -1;
        }
      }
      return 0;
    }

    /** All arguments at once; a wrong number of them is only reported. */
    method SetArgsXoYHandler(par: seq<int>) returns (ret: int)
      requires |par| >= 1 && (par[0] == 2 ==> |par| >= 3)
      requires forall i :: 0 <= i < |par| ==> -TWO_63 <= par[i] < TWO_63
      modifies this
      ensures par[0] != 2 ==> ret == -1 && View() == old(View()) && closed == old(closed)
      ensures par[0] == 2 ==>
        && (View(), ret == 0) == SetArg(old(View()), SetBoth(par[1], par[2]), lg)
        && closed == (old(closed) || ret == -1)
      ensures ret in {0, -1} && chLogf == old(chLogf)
    {
      if par[0] != 2 {
        return -1;
      }
      ret := SetArgXoYHandler(1, par[2]);
      if ret == -1 {
        return -1;
      }
      ret := SetArgXoYHandler(0, par[1]);
    }
  }
}
