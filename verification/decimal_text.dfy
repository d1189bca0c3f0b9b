/** Decimal numerals, with and without commas, and `l2aCommas`, which writes the
    digits of a number from the right and then mirrors them in place.  Reading a
    numeral passes over everything that is not a digit, so that leading zeros,
    blanks and commas do not matter. */
module DecimalText {
  import opened LogRecord

  function DigitChar(d: nat): char
    requires d < 10
  {
    '0' + d as char
  }

  /** The numeral of n, without leading zeros. */
  function Digits(n: nat): (s: string)
    ensures |s| >= 1
  {
    (if n < 10 then "" else Digits(n / 10)) + [DigitChar(n % 10)]
  }

  function Fill(c: char, n: int): string { seq(if n < 0 then 0 else n, i => c) }

  /** At least `width` characters, filled up on the left. */
  function Padded(fill: char, width: nat, n: nat): string { Fill(fill, width - |Digits(n)|) + Digits(n) }

  /** Full groups of three digits from the right, each after a comma. */
  function Grouped(n: nat): string {
    if n < 1000 then Digits(n) else Grouped(n / 1000) + "," + Padded('0', 3, n % 1000)
  }

  function CommaText(num: int): string {
    if num < 0 then "-" + Grouped(-num) else Grouped(num)
  }

  // ---- reading a numeral --------------------------------------------------

  /** Digits count, other characters are passed over. */
  function Num(s: string, acc: nat): nat {
    if s == "" then acc
    else Num(s[1..], if '0' <= s[0] <= '9' then acc * 10 + (s[0] - '0') as nat else acc)
  }

  lemma {:induction false} NumConcat(a: string, b: string, acc: nat)
    ensures Num(a + b, acc) == Num(b, Num(a, acc))
  {
    if a == "" {
      assert a + b == b;
    } else {
      assert (a + b)[1..] == a[1..] + b;
      NumConcat(a[1..], b, if '0' <= a[0] <= '9' then acc * 10 + (a[0] - '0') as nat else acc);
    }
  }

  lemma NumDigit(d: nat, acc: nat)
    requires d < 10
    ensures Num([DigitChar(d)], acc) == acc * 10 + d
  {
    assert [DigitChar(d)][1..] == "";
  }

  /** Reading what was written. */
  lemma {:induction false} NumDigits(n: nat)
    ensures Num(Digits(n), 0) == n
  {
    if n < 10 {
      NumDigit(n, 0);
      assert Digits(n) == [DigitChar(n)];
    } else {
      NumDigits(n / 10);
      NumConcat(Digits(n / 10), [DigitChar(n % 10)], 0);
      NumDigit(n % 10, n / 10);
    }
  }

  lemma {:induction false} NumFill(c: char, n: int)
    requires c == '0' || c == ' '
    ensures Num(Fill(c, n), 0) == 0
  {
    if n > 0 {
      assert Fill(c, n)[1..] == Fill(c, n - 1);
      NumFill(c, n - 1);
    }
  }

  lemma NumPadded(fill: char, width: nat, n: nat)
    requires fill == '0' || fill == ' '
    ensures Num(Padded(fill, width, n), 0) == n
  {
    NumFill(fill, width - |Digits(n)|);
    NumConcat(Fill(fill, width - |Digits(n)|), Digits(n), 0);
    NumDigits(n);
  }

  /** Three digits. */
  function Three(n: nat): string
    requires n < 1000
  {
    [DigitChar(n / 100), DigitChar(n / 10 % 10), DigitChar(n % 10)]
  }

  lemma PaddedThree(n: nat)
    requires n < 1000
    ensures Padded('0', 3, n) == Three(n)
  {
    if n < 10 {
      assert Digits(n) == [DigitChar(n)];
    } else if n < 100 {
      assert Digits(n / 10) == [DigitChar(n / 10)];
      assert Digits(n) == [DigitChar(n / 10), DigitChar(n % 10)];
    } else {
      assert Digits(n / 100) == [DigitChar(n / 100)];
      assert n / 10 / 10 == n / 100;
      assert Digits(n / 10) == [DigitChar(n / 100), DigitChar(n / 10 % 10)];
      assert Digits(n) == Three(n);
    }
  }

  lemma ThreeSum(n: nat, acc: nat)
    requires n < 1000
    ensures ((acc * 10 + n / 100) * 10 + n / 10 % 10) * 10 + n % 10 == acc * 1000 + n
  {
    assert n / 10 == n / 100 * 10 + n / 10 % 10;
  }

  lemma NumThree(n: nat, acc: nat)
    requires n < 1000
    ensures Num(Three(n), acc) == acc * 1000 + n
  {
    var a, b, c := [DigitChar(n / 100)], [DigitChar(n / 10 % 10)], [DigitChar(n % 10)];
    assert Three(n) == a + b + c;
    NumConcat(a + b, c, acc);
    NumConcat(a, b, acc);
    NumDigit(n / 100, acc);
    NumDigit(n / 10 % 10, acc * 10 + n / 100);
    NumDigit(n % 10, (acc * 10 + n / 100) * 10 + n / 10 % 10);
    ThreeSum(n, acc);
  }

  /** Commas do not change the number. */
  lemma {:induction false} NumGrouped(n: nat)
    ensures Num(Grouped(n), 0) == n
  {
    if n < 1000 {
      NumDigits(n);
    } else {
      NumGrouped(n / 1000);
      PaddedThree(n % 1000);
      NumConcat(Grouped(n / 1000) + ",", Three(n % 1000), 0);
      NumConcat(Grouped(n / 1000), ",", 0);
      assert Num(",", n / 1000) == Num(","[1..], n / 1000);
      NumThree(n % 1000, n / 1000);
    }
  }

  // ---- l2aCommas ----------------------------------------------------------

  /** The digits of n with commas, as the code finds them from the right: the last
      digit of n is the k-th of the whole number. */
  function FromRight(n: nat, k: nat): (s: string)
    ensures |s| >= 1
  {
    (if n / 10 == 0 then "" else FromRight(n / 10, k + 1) + (if k % 3 == 0 then "," else "")) + [DigitChar(n % 10)]
  }

  lemma {:induction false} FromRightPeriodic(n: nat, k: nat)
    ensures FromRight(n, k + 3) == FromRight(n, k)
  {
    if n / 10 != 0 { FromRightPeriodic(n / 10, k + 1); }
  }

  lemma FromRightSmall(n: nat)
    requires n < 1000
    ensures FromRight(n, 1) == Digits(n)
  {
    if n >= 10 {
      assert FromRight(n / 10, 2) == Digits(n / 10) by {
        if n >= 100 {
          assert FromRight(n / 10 / 10, 3) == [DigitChar(n / 10 / 10)] == Digits(n / 10 / 10);
        }
      }
    }
  }

  /** The last digit, and what is in front of it. */
  lemma FromRightStep(n: nat, k: nat)
    ensures FromRight(n, k) == (if n / 10 == 0 then "" else Front(n, k)) + [DigitChar(n % 10)]
  {
  }

  function Front(n: nat, k: nat): string
    requires n / 10 != 0
  {
    FromRight(n / 10, k + 1) + (if k % 3 == 0 then "," else "")
  }

  lemma LastThree(n: nat)
    ensures n / 10 / 10 == n / 100 && n / 100 / 10 == n / 1000
    ensures n / 100 % 10 == n % 1000 / 100 && n / 10 % 10 == n % 1000 / 10 % 10 && n % 10 == n % 1000 % 10
  {
  }

  lemma ThreeSteps(n: nat)
    requires n >= 1000
    ensures FromRight(n, 1) == FromRight(n / 1000, 4) + "," + Three(n % 1000)
  {
    LastThree(n);
    FromRightStep(n, 1);
    FromRightStep(n / 10, 2);
    FromRightStep(n / 100, 3);
    assert Front(n / 100, 3) == FromRight(n / 1000, 4) + ",";
    assert Front(n / 10, 2) == FromRight(n / 100, 3);
    assert Front(n, 1) == FromRight(n / 10, 2);
  }

  /** Grouping from the right is grouping by thousands. */
  lemma {:induction false} FromRightIsGrouped(n: nat)
    ensures FromRight(n, 1) == Grouped(n)
  {
    if n < 1000 {
      FromRightSmall(n);
    } else {
      FromRightIsGrouped(n / 1000);
      FromRightPeriodic(n / 1000, 1);
      PaddedThree(n % 1000);
      ThreeSteps(n);
    }
  }

  function Reversed(s: string): (r: string)
    ensures |r| == |s|
  {
    seq(|s|, i requires 0 <= i < |s| => s[|s| - 1 - i])
  }

  lemma ReversedAppend(s: string, c: char)
    ensures Reversed(s + [c]) == [c] + Reversed(s)
  {
  }

  /** Digits, sign and commas are written from the right and then mirrored in place. */
  method L2aCommas(num: int, ptr: array<char>)
    requires -TWO_63 < num < TWO_63 && |CommaText(num)| < ptr.Length
    modifies ptr
    ensures ptr[..|CommaText(num)|] == CommaText(num) && ptr[|CommaText(num)|] == 0 as char
  {
    var index := WriteFromRight(num, ptr);
    assert index == |Reversed(ptr[..index])| == |CommaText(num)|;
    ptr[index] := 0 as char;
    Mirror(ptr, index);
  }

  method Put(ptr: array<char>, index: nat, c: char) returns (next: nat)
    requires index < ptr.Length
    modifies ptr
    ensures next == index + 1 && Reversed(ptr[..next]) == [c] + Reversed(old(ptr[..index]))
  {
    ptr[index] := c;
    next := index + 1;
    assert ptr[..next] == old(ptr[..index]) + [c];
    ReversedAppend(old(ptr[..index]), c);
  }

  /** One digit and, before further digits, every third time a comma. */
  method PutDigit(n: nat, digitNr: nat, ptr: array<char>, index: nat) returns (next: nat)
    requires index + |FromRight(n, digitNr)| < ptr.Length
    modifies ptr
    ensures index < next < ptr.Length
    ensures var left := if n / 10 == 0 then "" else FromRight(n / 10, digitNr + 1);
            left + Reversed(ptr[..next]) == FromRight(n, digitNr) + Reversed(old(ptr[..index]))
  {
    FromRightStep(n, digitNr);
    next := Put(ptr, index, DigitChar(n % 10));
    if n / 10 != 0 && digitNr % 3 == 0 {
      next := Put(ptr, next, ',');
    }
  }

  method WriteDigits(num: nat, ptr: array<char>) returns (index: nat)
    requires |FromRight(num, 1)| < ptr.Length
    modifies ptr
    ensures index < ptr.Length && Reversed(ptr[..index]) == FromRight(num, 1)
  {
    var n := num;
    var digitNr := 1;
    index := 0;
    while true
      invariant index < ptr.Length
      invariant FromRight(n, digitNr) + Reversed(ptr[..index]) == FromRight(num, 1)
      decreases n
    {
      assert |FromRight(n, digitNr) + Reversed(ptr[..index])| == |FromRight(num, 1)|;
      index := PutDigit(n, digitNr, ptr, index);
      n := n / 10;
      if n == 0 {
        break;
      }
      digitNr := digitNr + 1;
    }
  }

  method WriteFromRight(num: int, ptr: array<char>) returns (index: nat)
    requires |CommaText(num)| < ptr.Length
    modifies ptr
    ensures index < ptr.Length && Reversed(ptr[..index]) == CommaText(num)
  {
    var n: nat := if num < 0 then -num else num;
    FromRightIsGrouped(n);
    index := WriteDigits(n, ptr);
    assert index == |Grouped(n)|;
    if num < 0 {
      index := Put(ptr, index, '-');
      assert |Reversed(ptr[..index])| == index;
    }
  }

  method Mirror(ptr: array<char>, index: nat)
    requires index <= ptr.Length
    modifies ptr
    ensures ptr[..index] == Reversed(old(ptr[..index])) && ptr[index..] == old(ptr[index..])
  {
    var low, high: int := 0, index - 1;
    while low < high
      invariant low + high == index - 1 && 0 <= low <= high + 2
      invariant forall k :: 0 <= k < low ==> ptr[k] == old(ptr[index - 1 - k]) && ptr[index - 1 - k] == old(ptr[k])
      invariant forall k :: low <= k <= high ==> ptr[k] == old(ptr[k])
      invariant ptr[index..] == old(ptr[index..])
    {
      var temp := ptr[low];
      ptr[low] := ptr[high];
      ptr[high] := temp;
      low, high := low + 1, high - 1;
    }
  }
}
