/** Machine words as natural numbers with explicit bit operations.  The runtime keeps its
    queue flags, job masks and allocator counters in fixed-width words; the bitwise operators
    are defined here bit by bit, and each lemma says what an operator does to every bit. */
module Words {

  function Pow2(k: nat): (r: nat)
    ensures r >= 1
  {
    if k == 0 then 1 else 2 * Pow2(k - 1)
  }

  predicate Bit(x: nat, i: nat) {
    if i == 0 then x % 2 == 1 else Bit(x / 2, i - 1)
  }

  function And(x: nat, y: nat): nat {
    if x == 0 || y == 0 then 0
    else 2 * And(x / 2, y / 2) + (if x % 2 == 1 && y % 2 == 1 then 1 else 0)
  }

  function Or(x: nat, y: nat): nat {
    if x == 0 then y
    else if y == 0 then x
    else 2 * Or(x / 2, y / 2) + (if x % 2 == 1 || y % 2 == 1 then 1 else 0)
  }

  /** Complement within a word of `width` bits. */
  function Not(x: nat, width: nat): nat
    requires x < Pow2(width)
  {
    Pow2(width) - 1 - x
  }

  function TrailingZeros(x: nat): nat
    requires x != 0
  {
    if x % 2 == 1 then 0 else 1 + TrailingZeros(x / 2)
  }

  lemma {:induction false} ZeroHasNoBits(i: nat)
    ensures !Bit(0, i)
  {
    if i > 0 { ZeroHasNoBits(i - 1); }
  }

  lemma {:induction false} BitOfAnd(x: nat, y: nat, i: nat)
    ensures Bit(And(x, y), i) <==> Bit(x, i) && Bit(y, i)
  {
    if x == 0 || y == 0 {
      ZeroHasNoBits(i);
    } else if i > 0 {
      BitOfAnd(x / 2, y / 2, i - 1);
      assert And(x, y) / 2 == And(x / 2, y / 2);
    }
  }

  lemma {:induction false} BitOfOr(x: nat, y: nat, i: nat)
    ensures Bit(Or(x, y), i) <==> Bit(x, i) || Bit(y, i)
  {
    if x == 0 || y == 0 {
      ZeroHasNoBits(i);
    } else if i > 0 {
      BitOfOr(x / 2, y / 2, i - 1);
      assert Or(x, y) / 2 == Or(x / 2, y / 2);
    }
  }

  lemma {:induction false} BitOfNot(x: nat, width: nat, i: nat)
    requires x < Pow2(width)
    ensures Bit(Not(x, width), i) <==> i < width && !Bit(x, i)
  {
    if width == 0 {
      ZeroHasNoBits(i);
    } else if i > 0 {
      BitOfNot(x / 2, width - 1, i - 1);
      assert Not(x, width) / 2 == Not(x / 2, width - 1);
    }
  }

  lemma {:induction false} BitOfPow2(k: nat, i: nat)
    ensures Bit(Pow2(k), i) <==> i == k
  {
    if k == 0 {
      if i > 0 { ZeroHasNoBits(i - 1); }
    } else if i > 0 {
      BitOfPow2(k - 1, i - 1);
    }
  }

  lemma {:induction false} Pow2Increases(j: nat, k: nat)
    requires j < k
    ensures 2 * Pow2(j) <= Pow2(k)
  {
    if j + 1 < k { Pow2Increases(j, k - 1); }
  }

  lemma {:induction false} Pow2Product(a: nat, b: nat)
    ensures Pow2(a) * Pow2(b) == Pow2(a + b)
  {
    if a > 0 {
      Pow2Product(a - 1, b);
      assert Pow2(a) * Pow2(b) == 2 * (Pow2(a - 1) * Pow2(b));
    }
  }

  predicate PowerOfTwo(x: nat) {
    x == 1 || (x > 1 && x % 2 == 0 && PowerOfTwo(x / 2))
  }

  lemma {:induction false} Exponent(x: nat) returns (k: nat)
    requires PowerOfTwo(x)
    ensures x == Pow2(k)
  {
    if x == 1 {
      k := 0;
    } else {
      var j := Exponent(x / 2);
      k := j + 1;
    }
  }

  lemma {:induction false} BoundedBits(x: nat, width: nat, i: nat)
    requires x < Pow2(width) && Bit(x, i)
    ensures i < width
  {
    if width == 0 {
      ZeroHasNoBits(i);
    } else if i > 0 {
      BoundedBits(x / 2, width - 1, i - 1);
    }
  }

  lemma {:induction false} Bounded(x: nat, y: nat, width: nat)
    requires x < Pow2(width) && y < Pow2(width)
    ensures And(x, y) < Pow2(width) && Or(x, y) < Pow2(width)
  {
    if x != 0 && y != 0 {
      Bounded(x / 2, y / 2, width - 1);
    }
  }

  /** `trailing_zeros` is the position of the lowest set bit. */
  lemma {:induction false} TrailingZerosIsLowest(x: nat)
    requires x != 0
    ensures Bit(x, TrailingZeros(x))
    ensures forall i: nat :: i < TrailingZeros(x) ==> !Bit(x, i)
  {
    if x % 2 == 0 {
      TrailingZerosIsLowest(x / 2);
      forall i: nat | i < TrailingZeros(x) ensures !Bit(x, i) {
        if i > 0 { assert !Bit(x / 2, i - 1); }
      }
    }
  }

  /** The mask `!(2^k - 1)` is even for `k > 0`, and halving it gives the mask for `k - 1`. */
  lemma HalveMask(k: nat, width: nat)
    requires 0 < k <= width
    ensures Pow2(k - 1) <= Pow2(width - 1) && Pow2(k) <= Pow2(width)
    ensures Not(Pow2(k) - 1, width) == 2 * Not(Pow2(k - 1) - 1, width - 1)
  {
    if k < width {
      Pow2Increases(k - 1, width - 1);
    }
  }

  /** Masking with the complement of `2^k - 1` rounds down to a multiple of `2^k`. */
  lemma {:induction false} MaskRoundsDown(x: nat, k: nat, width: nat)
    requires k <= width && x < Pow2(width)
    ensures Pow2(k) <= Pow2(width)
    ensures And(x, Not(Pow2(k) - 1, width)) == x - x % Pow2(k)
  {
    if k == 0 {
      AllOnes(x, width);
      assert Not(Pow2(0) - 1, width) == Pow2(width) - 1 && x % 1 == 0;
    } else {
      MaskRoundsDown(x / 2, k - 1, width - 1);
      MaskStep(x, k, width);
    }
  }

  lemma MaskStep(x: nat, k: nat, width: nat)
    requires 0 < k <= width && Pow2(k - 1) <= Pow2(width - 1)
    requires And(x / 2, Not(Pow2(k - 1) - 1, width - 1)) == x / 2 - x / 2 % Pow2(k - 1)
    ensures Pow2(k) <= Pow2(width)
    ensures And(x, Not(Pow2(k) - 1, width)) == x - x % Pow2(k)
  {
    HalveMask(k, width);
    RoundTwice(x, Not(Pow2(k - 1) - 1, width - 1), Pow2(k - 1));
  }

  lemma RoundTwice(x: nat, half: nat, m: nat)
    requires m >= 1 && And(x / 2, half) == x / 2 - x / 2 % m
    ensures And(x, 2 * half) == x - x % (2 * m)
  {
    HalveModulus(x, m);
    AndEven(x, half);
  }

  lemma AndEven(x: nat, y: nat)
    ensures And(x, 2 * y) == 2 * And(x / 2, y)
  {
    assert 2 * y / 2 == y && 2 * y % 2 == 0;
  }

  lemma {:induction false} AllOnes(x: nat, width: nat)
    requires x < Pow2(width)
    ensures And(x, Pow2(width) - 1) == x
  {
    if x != 0 {
      AllOnes(x / 2, width - 1);
      assert (Pow2(width) - 1) / 2 == Pow2(width - 1) - 1;
    }
  }

  lemma HalveModulus(x: nat, m: nat)
    requires m >= 1
    ensures x % (2 * m) == 2 * ((x / 2) % m) + x % 2
  {
    var q, r := (x / 2) / m, (x / 2) % m;
    assert x / 2 == m * q + r;
    assert x == (2 * m) * q + (2 * r + x % 2);
    UniqueRemainder(x, 2 * m, q, 2 * r + x % 2);
  }

  /** Quotient and remainder of natural numbers. */
  function Quotient(x: nat, m: nat): nat
    requires m > 0
  {
    Division(x, m);
    x / m
  }

  function Remainder(x: nat, m: nat): (r: nat)
    requires m > 0
    ensures r < m
  {
    Division(x, m);
    x % m
  }

  lemma Division(x: nat, m: nat)
    requires m > 0
    ensures x / m >= 0 && 0 <= x % m < m && x == m * (x / m) + x % m
  {
  }

  lemma ProductMonotone(a: nat, b: nat, c: nat)
    requires a <= b
    ensures a * c <= b * c
  {
    assert b * c == a * c + (b - a) * c;
  }

  lemma ProductBound(m: int, d: int)
    requires m > 0
    ensures d >= 1 ==> m * d >= m
    ensures d <= -1 ==> m * d <= -m
  {
  }

  lemma UniqueRemainder(x: int, m: int, q: int, r: int)
    requires m > 0 && x == m * q + r && 0 <= r < m
    ensures x / m == q && x % m == r
  {
    var d := x / m - q;
    assert m * d == r - x % m by {
      assert x == m * (x / m) + x % m;
      assert m * d == m * (x / m) - m * q;
    }
    ProductBound(m, d);
  }
}
