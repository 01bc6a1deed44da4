/** Bitwise operations on unsigned integers and the lowest-set-bit loop. */
module Bits {

  predicate Bit(a: nat, p: nat) {
    if p == 0 then a % 2 == 1 else Bit(a / 2, p - 1)
  }

  function And(a: nat, b: nat): nat {
    if a == 0 || b == 0 then 0 else 2 * And(a / 2, b / 2) + if a % 2 == 1 && b % 2 == 1 then 1 else 0
  }

  function Or(a: nat, b: nat): nat {
    if a == 0 then b else if b == 0 then a
    else 2 * Or(a / 2, b / 2) + if a % 2 == 1 || b % 2 == 1 then 1 else 0
  }

  function ShiftedOne(p: nat): (r: nat)
    ensures r >= 1
  {
    if p == 0 then 1 else 2 * ShiftedOne(p - 1)
  }

  function TrailingZeros(a: nat): nat
    requires a > 0
  {
    if a % 2 == 1 then 0 else 1 + TrailingZeros(a / 2)
  }

  lemma {:induction false} ZeroHasNoBits(p: nat)
    ensures !Bit(0, p)
  {
    if p > 0 {
      ZeroHasNoBits(p - 1);
    }
  }

  lemma {:induction false} BitOr(a: nat, b: nat, p: nat)
    ensures Bit(Or(a, b), p) == (Bit(a, p) || Bit(b, p))
    decreases a
  {
    if a == 0 || b == 0 {
      ZeroHasNoBits(p);
    } else if p > 0 {
      BitOr(a / 2, b / 2, p - 1);
      assert Or(a, b) / 2 == Or(a / 2, b / 2);
    }
  }

  lemma {:induction false} BitShiftedOne(p: nat, q: nat)
    ensures Bit(ShiftedOne(p), q) == (p == q)
  {
    if p == 0 {
      if q > 0 {
        ZeroHasNoBits(q - 1);
      }
    } else if q > 0 {
      BitShiftedOne(p - 1, q - 1);
    }
  }

  lemma {:induction false} AndItself(a: nat)
    ensures And(a, a) == a
  {
    if a > 0 {
      AndItself(a / 2);
    }
  }

  /** The number of trailing zeros is the index of the lowest set bit. */
  lemma {:induction false} LowestBit(a: nat, p: nat)
    requires a > 0
    ensures Bit(a, TrailingZeros(a))
    ensures p < TrailingZeros(a) ==> !Bit(a, p)
    decreases a
  {
    if a % 2 == 0 {
      LowestBit(a / 2, if p > 0 then p - 1 else 0);
    }
  }

  /** `a & (a - 1)` clears exactly the lowest set bit. */
  lemma {:induction false} ClearLowestBit(a: nat, p: nat)
    requires a > 0
    ensures And(a, a - 1) < a
    ensures Bit(And(a, a - 1), p) == (Bit(a, p) && p != TrailingZeros(a))
    decreases a
  {
    if a % 2 == 1 {
      AndItself(a / 2);
      if a == 1 {
        ZeroHasNoBits(p);
        if p > 0 {
          ZeroHasNoBits(p - 1);
        }
      } else {
        assert (a - 1) / 2 == a / 2;
        assert And(a, a - 1) == 2 * (a / 2);
      }
    } else {
      var h := a / 2;
      assert (a - 1) / 2 == h - 1 && (a - 1) % 2 == 1;
      assert And(a, a - 1) == 2 * And(h, h - 1);
      ClearLowestBit(h, if p > 0 then p - 1 else 0);
    }
  }

  lemma {:induction false} ShiftedOneSum(a: nat, b: nat)
    ensures ShiftedOne(a + b) == ShiftedOne(a) * ShiftedOne(b)
  {
    if b > 0 {
      ShiftedOneSum(a, b - 1);
    }
  }

  lemma {:induction false} ShiftedOneMonotone(a: nat, b: nat)
    requires a <= b
    ensures ShiftedOne(a) <= ShiftedOne(b)
    decreases b - a
  {
    if a < b {
      ShiftedOneMonotone(a + 1, b);
    }
  }

  lemma ShiftedOneByte()
    ensures ShiftedOne(7) == 0x80
  {}

  /** Shifts below 64 stay within an unsigned 64-bit integer. */
  lemma ShiftedOneFits(n: nat)
    requires n < 64
    ensures ShiftedOne(n) <= 0x8000_0000_0000_0000
  {
    hide ShiftedOne;
    ShiftedOneMonotone(n, 63);
    ShiftedOneByte();
    ShiftedOneSum(7, 7);
    assert ShiftedOne(14) == 0x4000;
    ShiftedOneSum(14, 14);
    assert ShiftedOne(28) == 0x1000_0000;
    ShiftedOneSum(28, 28);
    assert ShiftedOne(56) == 0x100_0000_0000_0000;
    ShiftedOneSum(56, 7);
  }
}
