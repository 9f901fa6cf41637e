/** Binary digits of natural numbers. */
module Bits {
  function Pow2(n: nat): (p: nat)
    ensures p >= 1
  {
    if n == 0 then 1 else 2 * Pow2(n - 1)
  }

  /** The digit of `n` with the value `Pow2(i)`. */
  predicate Bit(n: nat, i: nat)
  {
    if i == 0 then n % 2 == 1 else Bit(n / 2, i - 1)
  }

  lemma HalfOfRemainder(n: nat, k: nat)
    requires k > 0
    ensures n % (2 * k) == n % 2 + 2 * (n / 2 % k)
  {
    var q, r := n / 2 / k, n / 2 % k;
    assert n == (2 * k) * q + (2 * r + n % 2) by {
      assert n / 2 == k * q + r;
    }
    Remainder(n, 2 * k, q, 2 * r + n % 2);
  }

  lemma Remainder(n: nat, d: nat, q: nat, r: nat)
    requires r < d && n == d * q + r
    ensures n % d == r
  {
    var q1, r1 := n / d, n % d;
    assert d * q1 + r1 == n;
    assert q < q1 ==> d * (q + 1) <= d * q1;
    assert q1 < q ==> d * (q1 + 1) <= d * q;
  }

  /** The remainder by a power of two keeps the low digits. */
  lemma {:induction false} LowBits(n: nat, width: nat, i: nat)
    ensures Bit(n % Pow2(width), i) <==> i < width && Bit(n, i)
  {
    if width == 0 {
      NoBits(i);
    } else {
      var half := n / 2 % Pow2(width - 1);
      HalfOfRemainder(n, Pow2(width - 1));
      assert n % Pow2(width) == n % 2 + 2 * half;
      if i > 0 {
        LowBits(n / 2, width - 1, i - 1);
        assert (n % 2 + 2 * half) / 2 == half;
      }
    }
  }

  lemma {:induction false} NoBits(i: nat)
    ensures !Bit(0, i)
  {
    if i > 0 {
      NoBits(i - 1);
    }
  }

  /** The digits of `low`, `width` of them, followed by those of `high`. */
  lemma {:induction false} JoinedBits(high: nat, low: nat, width: nat, i: nat)
    requires low < Pow2(width)
    ensures Bit(high * Pow2(width) + low, i) <==> if i < width then Bit(low, i) else Bit(high, i - width)
  {
    if width > 0 {
      var half := high * Pow2(width - 1);
      assert high * Pow2(width) == 2 * half;
      if i > 0 {
        assert (2 * half + low) / 2 == half + low / 2;
        JoinedBits(high, low / 2, width - 1, i - 1);
      }
    }
  }

  /** Numbers with the same digits are equal. */
  lemma {:induction false} SameBits(a: nat, b: nat)
    requires forall i: nat :: Bit(a, i) == Bit(b, i)
    ensures a == b
    decreases a + b
  {
    if a + b > 0 {
      assert Bit(a, 0) == Bit(b, 0);
      forall i: nat
        ensures Bit(a / 2, i) == Bit(b / 2, i)
      {
        assert Bit(a, i + 1) == Bit(b, i + 1);
      }
      SameBits(a / 2, b / 2);
    }
  }
}
