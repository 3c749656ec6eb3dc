/** Decimal digit strings: their values, and how numbers are written with them. */
module Decimals {
  import opened Words

  function Pow10(n: nat): (r: nat)
    ensures r >= 1
  {
    if n == 0 then 1 else 10 * Pow10(n - 1)
  }

  lemma {:induction false} PowersMultiply(a: nat, b: nat)
    ensures Pow10(a) * Pow10(b) == Pow10(a + b)
  {
    if a > 0 {
      PowersMultiply(a - 1, b);
      assert Pow10(a) * Pow10(b) == 10 * (Pow10(a - 1) * Pow10(b));
    }
  }

  lemma LargePowers()
    ensures Pow10(18) == 1_000_000_000_000_000_000
    ensures Pow10(19) == 10 * Pow10(18) && Pow10(21) == 1000 * Pow10(18)
    ensures Pow10(39) == 1000 * Pow10(18) * Pow10(18)
  {
    assert Pow10(3) == 1000;
    PowersMultiply(3, 3);
    PowersMultiply(6, 3);
    PowersMultiply(9, 9);
    PowersMultiply(3, 18);
    PowersMultiply(21, 18);
  }

  predicate IsDigit(c: char) { '0' <= c <= '9' }

  predicate AllDigits(s: string) { forall i :: 0 <= i < |s| ==> IsDigit(s[i]) }

  function DigitValue(c: char): (d: nat)
    requires IsDigit(c)
    ensures d < 10
  {
    c as int - '0' as int
  }

  function Digit(d: nat): (c: char)
    requires d < 10
    ensures IsDigit(c) && DigitValue(c) == d && (c == '0' <==> d == 0)
  {
    ('0' as int + d) as char
  }

  const DIGITS: string := "0123456789"

  /** The ten digit characters, in this order, stand for the numbers from zero to nine. */
  lemma DigitsInOrder()
    ensures forall k: nat :: k < 10 ==> IsDigit(DIGITS[k]) && DigitValue(DIGITS[k]) == k && Digit(k) == DIGITS[k]
    ensures forall c: char :: IsDigit(c) <==> c in DIGITS
    ensures forall c: char, d: char :: IsDigit(c) && IsDigit(d) ==>
              (DigitValue(c) as int) - (DigitValue(d) as int) == c as int - d as int
  {
    forall c: char | IsDigit(c) ensures c in DIGITS {
      assert DIGITS[c as int - '0' as int] == c;
    }
  }

  function Value(s: string): nat
    requires AllDigits(s)
  {
    if |s| == 0 then 0 else 10 * Value(s[..|s| - 1]) + DigitValue(s[|s| - 1])
  }

  /** The usual decimal numeral, without leading zeros. */
  function Numeral(n: nat): (s: string)
    ensures AllDigits(s) && |s| >= 1
  {
    if n < 10 then [Digit(n)] else Numeral(n / 10) + [Digit(n % 10)]
  }

  /** The last `width` digits of n. */
  function Padded(n: nat, width: nat): (s: string)
    ensures AllDigits(s) && |s| == width
  {
    if width == 0 then "" else Padded(n / 10, width - 1) + [Digit(n % 10)]
  }

  /** Formatting with a minimum number of digits, filled up with zeros. */
  function ZeroFilled(n: nat, width: nat): (s: string)
    ensures AllDigits(s) && |s| >= width
  {
    if n < Pow10(width) then Padded(n, width) else (LongNumeral(n, width); Numeral(n))
  }

  lemma {:induction false} LongNumeral(n: nat, width: nat)
    requires n >= Pow10(width)
    ensures |Numeral(n)| >= width
  {
    if width > 0 { LongNumeral(n / 10, width - 1); }
  }

  lemma {:induction false} ShortNumeral(n: nat, width: nat)
    requires n < Pow10(width) && width >= 1
    ensures |Numeral(n)| <= width
  {
    if n >= 10 { ShortNumeral(n / 10, width - 1); }
  }

  lemma {:induction false} NumeralValue(n: nat)
    ensures Value(Numeral(n)) == n
  {
    if n >= 10 {
      NumeralValue(n / 10);
      assert Numeral(n)[..|Numeral(n)| - 1] == Numeral(n / 10);
    }
  }

  lemma {:induction false} PaddedValue(n: nat, width: nat)
    requires n < Pow10(width)
    ensures Value(Padded(n, width)) == n
  {
    if width > 0 {
      var q, d := n / 10, n % 10;
      assert n == 10 * q + d && q < Pow10(width - 1);
      PaddedValue(q, width - 1);
      ValueAppend(Padded(q, width - 1), d);
      assert Padded(n, width) == Padded(q, width - 1) + [Digit(d)];
    }
  }

  lemma ValueAppend(s: string, d: nat)
    requires AllDigits(s) && d < 10
    ensures AllDigits(s + [Digit(d)]) && Value(s + [Digit(d)]) == 10 * Value(s) + d
  {
    assert (s + [Digit(d)])[..|s|] == s;
  }

  /** n without its `low` last digits, and those digits. */
  function High(n: nat, low: nat): nat { Quotient(n, Pow10(low)) }
  function Low(n: nat, low: nat): (r: nat)
    ensures r < Pow10(low)
  {
    Remainder(n, Pow10(low))
  }

  lemma NoHighDigits(n: nat, low: nat)
    ensures High(n, low) == 0 <==> n < Pow10(low)
  {
    if n < Pow10(low) { UniqueRemainder(n, Pow10(low), 0, n); }
  }

  lemma SplitTen(n: nat, low: nat)
    requires low > 0
    ensures High(n, low) == High(n / 10, low - 1)
    ensures Low(n, low) / 10 == Low(n / 10, low - 1) && Low(n, low) % 10 == n % 10
  {
    var p := Pow10(low - 1);
    var q, r := Quotient(n / 10, p), Remainder(n / 10, p);
    Division(n / 10, p);
    assert n == (10 * p) * q + (10 * r + n % 10);
    UniqueRemainder(n, 10 * p, q, 10 * r + n % 10);
  }

  /** The low digits of a long numeral are the padded remainder. */
  lemma {:induction false} SplitNumeral(n: nat, low: nat)
    requires n >= Pow10(low)
    ensures Numeral(n) == Numeral(High(n, low)) + Padded(Low(n, low), low)
  {
    if low > 0 {
      SplitNumeral(n / 10, low - 1);
      SplitTen(n, low);
      assert Padded(Low(n, low), low) == Padded(Low(n / 10, low - 1), low - 1) + [Digit(n % 10)];
    }
  }

  lemma {:induction false} SplitPadded(n: nat, high: nat, low: nat)
    ensures Padded(n, high + low) == Padded(High(n, low), high) + Padded(Low(n, low), low)
    decreases low
  {
    if low > 0 {
      SplitPadded(n / 10, high, low - 1);
      SplitTen(n, low);
      AppendDigit(n, high + low, High(n, low), high, Low(n, low), low);
    }
  }

  lemma AppendDigit(n: nat, width: nat, q: nat, high: nat, r: nat, low: nat)
    requires low > 0 && width == high + low && n % 10 == r % 10
    requires Padded(n / 10, width - 1) == Padded(q, high) + Padded(r / 10, low - 1)
    ensures Padded(n, width) == Padded(q, high) + Padded(r, low)
  {
  }

  // ----- Trailing zeros -----

  /** The length of s without its trailing zeros. */
  function TrimmedLength(s: string): (k: nat)
    ensures k <= |s|
    ensures k > 0 ==> s[k - 1] != '0'
    ensures forall i :: k <= i < |s| ==> s[i] == '0'
  {
    if |s| == 0 || s[|s| - 1] != '0' then |s| else TrimmedLength(s[..|s| - 1])
  }

  lemma TrimmedUnique(s: string, k: nat)
    requires k <= |s| && (k > 0 ==> s[k - 1] != '0')
    requires forall i :: k <= i < |s| ==> s[i] == '0'
    ensures TrimmedLength(s) == k
  {
  }

  /** Trimming a text stops inside its last part exactly when that part is not all zeros. */
  lemma TrimmedTail(front: string, tail: string)
    ensures TrimmedLength(tail) > 0 ==> TrimmedLength(front + tail) == |front| + TrimmedLength(tail)
    ensures TrimmedLength(tail) == 0 ==> TrimmedLength(front + tail) <= |front|
  {
    var s, k := front + tail, TrimmedLength(tail);
    assert forall i :: 0 <= i < |tail| ==> s[|front| + i] == tail[i];
    if k > 0 {
      assert s[|front| + k - 1] == tail[k - 1];
      forall i | |front| + k <= i < |s| ensures s[i] == '0' { assert s[i] == tail[i - |front|]; }
      TrimmedUnique(s, |front| + k);
    }
  }

  lemma {:induction false} TrimmedValue(s: string)
    requires AllDigits(s)
    ensures Value(s) == Value(s[..TrimmedLength(s)]) * Pow10(|s| - TrimmedLength(s))
  {
    var k := TrimmedLength(s);
    if k == |s| {
      assert s[..k] == s;
    } else {
      var init := s[..|s| - 1];
      TrimmedValue(init);
      assert init[..k] == s[..k];
      TenTimes(Value(s[..k]), Pow10(|init| - k));
    }
  }

  lemma TenTimes(x: nat, p: nat)
    ensures 10 * (x * p) == x * (10 * p)
  {
  }

  lemma {:induction false} ZerosTrimAway(s: string)
    requires AllDigits(s)
    ensures TrimmedLength(s) == 0 <==> Value(s) == 0
  {
    if |s| > 0 { ZerosTrimAway(s[..|s| - 1]); }
  }
}
