/** Bit operations on unbounded naturals, and what they do to single bits. */
module Bits {

  function Bit(b: nat, i: nat): bool {
    if i == 0 then b % 2 == 1 else Bit(b / 2, i - 1)
  }

  /** `a & b`. */
  function And(a: nat, b: nat): nat {
    if a == 0 || b == 0 then 0 else (if a % 2 == 1 && b % 2 == 1 then 1 else 0) + 2 * And(a / 2, b / 2)
  }

  /** `a | b`. */
  function Or(a: nat, b: nat): nat {
    if a == 0 then b else if b == 0 then a
    else (if a % 2 == 1 || b % 2 == 1 then 1 else 0) + 2 * Or(a / 2, b / 2)
  }

  /** `a << n`. */
  function Shl(a: nat, n: nat): nat {
    if n == 0 then a else 2 * Shl(a, n - 1)
  }

  lemma {:induction false} BitOfZero(i: nat)
    ensures !Bit(0, i)
  {
    if i > 0 {
      BitOfZero(i - 1);
    }
  }

  lemma {:induction false} BitOfAnd(a: nat, b: nat, i: nat)
    ensures Bit(And(a, b), i) <==> Bit(a, i) && Bit(b, i)
    decreases i
  {
    BitOfZero(i);
    if a != 0 && b != 0 && i > 0 {
      BitOfAnd(a / 2, b / 2, i - 1);
    }
  }

  lemma {:induction false} BitOfOr(a: nat, b: nat, i: nat)
    ensures Bit(Or(a, b), i) <==> Bit(a, i) || Bit(b, i)
    decreases i
  {
    BitOfZero(i);
    if a != 0 && b != 0 && i > 0 {
      BitOfOr(a / 2, b / 2, i - 1);
    }
  }

  lemma {:induction false} BitOfShl(a: nat, n: nat, i: nat)
    ensures Bit(Shl(a, n), i) <==> i >= n && Bit(a, i - n)
    decreases n
  {
    if n > 0 && i > 0 {
      assert 2 * Shl(a, n - 1) / 2 == Shl(a, n - 1);
      BitOfShl(a, n - 1, i - 1);
    }
  }

  lemma {:induction false} ShlPositive(n: nat)
    ensures Shl(1, n) >= 1
  {
    if n > 0 {
      ShlPositive(n - 1);
    }
  }

  /** `(1 << n) - 1` has exactly the lowest n bits. */
  lemma {:induction false} BitOfMask(n: nat, i: nat)
    ensures Shl(1, n) >= 1 && (Bit(Shl(1, n) - 1, i) <==> i < n)
    decreases n
  {
    ShlPositive(n);
    if n == 0 {
      BitOfZero(i);
    } else {
      ShlPositive(n - 1);
      assert (Shl(1, n) - 1) / 2 == Shl(1, n - 1) - 1;
      if i > 0 {
        BitOfMask(n - 1, i - 1);
      }
    }
  }

  lemma {:induction false} BitOfOne(i: nat)
    ensures Bit(1, i) <==> i == 0
  {
    if i > 0 {
      BitOfZero(i - 1);
    }
  }

  /** A number without bits is zero. */
  lemma {:induction false} NoBitsIsZero(b: nat)
    requires forall i: nat :: !Bit(b, i)
    ensures b == 0
  {
    if b != 0 {
      assert !Bit(b, 0);
      forall i: nat ensures !Bit(b / 2, i) {
        assert !Bit(b, i + 1);
      }
      NoBitsIsZero(b / 2);
    }
  }

  /** Testing one bit with a single-bit mask. */
  lemma TestBit(b: nat, k: nat)
    ensures And(b, Shl(1, k)) != 0 <==> Bit(b, k)
  {
    BitOfAnd(b, Shl(1, k), k);
    BitOfShl(1, k, k);
    BitOfZero(k);
    if !Bit(b, k) {
      forall i: nat ensures !Bit(And(b, Shl(1, k)), i) {
        BitOfAnd(b, Shl(1, k), i);
        BitOfShl(1, k, i);
        if i >= k {
          BitOfOne(i - k);
        }
      }
      NoBitsIsZero(And(b, Shl(1, k)));
    }
  }

  // --------------------------------------------------------------------- counting

  function Ones(b: nat): nat {
    if b == 0 then 0 else b % 2 + Ones(b / 2)
  }

  lemma {:induction false} AndSelf(a: nat)
    ensures And(a, a) == a
  {
    if a != 0 {
      AndSelf(a / 2);
    }
  }

  /** `b & (b - 1)` drops exactly one bit. */
  lemma {:induction false} DropLowest(b: nat)
    requires b > 0
    ensures And(b, b - 1) < b && Ones(And(b, b - 1)) == Ones(b) - 1
  {
    if b % 2 == 1 {
      if b > 1 {
        assert (b - 1) / 2 == b / 2 && (b - 1) % 2 == 0;
        AndSelf(b / 2);
      }
    } else {
      assert (b - 1) / 2 == b / 2 - 1 && (b - 1) % 2 == 1;
      DropLowest(b / 2);
      assert And(b, b - 1) == 2 * And(b / 2, b / 2 - 1);
    }
  }

  /** How many of the lowest n bits are set. */
  function OnesBelow(b: nat, n: nat): nat {
    if n == 0 then 0 else OnesBelow(b, n - 1) + (if Bit(b, n - 1) then 1 else 0)
  }

  lemma {:induction false} OnesBelowHalf(b: nat, n: nat)
    ensures OnesBelow(b, n + 1) == b % 2 + OnesBelow(b / 2, n)
  {
    if n > 0 {
      OnesBelowHalf(b, n - 1);
    }
  }

  lemma {:induction false} OnesOfZero(n: nat)
    ensures OnesBelow(0, n) == 0
  {
    if n > 0 {
      OnesOfZero(n - 1);
      BitOfZero(n - 1);
    }
  }

  lemma {:induction false} OnesCounts(b: nat, n: nat)
    requires forall i: nat :: i >= n ==> !Bit(b, i)
    ensures Ones(b) == OnesBelow(b, n)
    decreases n
  {
    if n == 0 {
      NoBitsIsZero(b);
    } else if b == 0 {
      OnesOfZero(n);
    } else {
      forall i: nat | i >= n - 1 ensures !Bit(b / 2, i) {
        assert !Bit(b, i + 1);
      }
      OnesCounts(b / 2, n - 1);
      OnesBelowHalf(b, n - 1);
    }
  }
}
