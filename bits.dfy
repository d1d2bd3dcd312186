/**
 * Python's shift and bitwise-or on non-negative integers, which are
 * unbounded, so nothing here wraps.
 */
module Bits {

  /** 2 to the power k. */
  function Pow2(k: nat): (p: nat)
    ensures p >= 1
  {
    if k == 0 then 1 else 2 * Pow2(k - 1)
  }

  /** Python's `a << k`: k doublings. */
  function ShiftLeft(a: nat, k: nat): (r: nat)
    ensures r == 0 <==> a == 0
    ensures a <= r
  {
    if k == 0 then a else 2 * ShiftLeft(a, k - 1)
  }

  /** Python's `a | b`: a result bit is set when that bit is set in either operand. */
  function Or(a: nat, b: nat): (r: nat)
    ensures a <= r && b <= r && r <= a + b
    decreases a + b
  {
    if a == 0 then b
    else if b == 0 then a
    else 2 * Or(a / 2, b / 2) + (if a % 2 == 1 || b % 2 == 1 then 1 else 0)
  }

  /** A shift multiplies by a power of two. */
  lemma {:induction false} ShiftIsProduct(a: nat, k: nat)
    ensures ShiftLeft(a, k) == a * Pow2(k)
  {
    if k > 0 {
      ShiftIsProduct(a, k - 1);
      assert a * Pow2(k) == 2 * (a * Pow2(k - 1));
    }
  }

  /**
   * Or-ing a value into the free low bits of a shifted value adds it: the
   * two operands have no set bit in common.
   */
  lemma {:induction false} OrDisjoint(a: nat, b: nat, k: nat)
    requires b < Pow2(k)
    ensures Or(ShiftLeft(a, k), b) == ShiftLeft(a, k) + b
  {
    var high := ShiftLeft(a, k);
    if k == 0 {
      assert b == 0;
    } else if high == 0 || b == 0 {
    } else {
      OrDisjoint(a, b / 2, k - 1);
      assert high % 2 == 0 && high / 2 == ShiftLeft(a, k - 1);
      assert Or(high, b) == 2 * Or(ShiftLeft(a, k - 1), b / 2) + b % 2;
    }
  }

  /** Or commutes with a common shift of both operands. */
  lemma {:induction false} OrShifted(a: nat, b: nat, k: nat)
    ensures Or(ShiftLeft(a, k), ShiftLeft(b, k)) == ShiftLeft(Or(a, b), k)
  {
    if k > 0 && a != 0 && b != 0 {
      var x, y := ShiftLeft(a, k), ShiftLeft(b, k);
      var x', y' := ShiftLeft(a, k - 1), ShiftLeft(b, k - 1);
      assert x == 2 * x' && y == 2 * y';
      assert Or(x, y) == 2 * Or(x', y');
      OrShifted(a, b, k - 1);
    }
  }
}
