/** Bitwise operations on unsigned numbers, bit by bit. */
module Bits {

  datatype BitOp = Or | And

  function Bit(op: BitOp, x: nat, y: nat): nat {
    if op.Or? then (if x == 1 || y == 1 then 1 else 0) else (if x == 1 && y == 1 then 1 else 0)
  }

  function Bitwise(op: BitOp, a: nat, b: nat): nat {
    if a == 0 && b == 0 then 0 else 2 * Bitwise(op, a / 2, b / 2) + Bit(op, a % 2, b % 2)
  }

  function Pow2(k: nat): nat {
    if k == 0 then 1 else 2 * Pow2(k - 1)
  }

  lemma {:induction false} BitwiseBound(op: BitOp, k: nat, a: nat, b: nat)
    requires a < Pow2(k) && b < Pow2(k)
    ensures Bitwise(op, a, b) < Pow2(k)
  {
    if k > 0 {
      BitwiseBound(op, k - 1, a / 2, b / 2);
    }
  }

  /** Nothing is set in zero. */
  lemma {:induction false} BitwiseZero(a: nat)
    ensures Bitwise(Or, a, 0) == Bitwise(Or, 0, a) == a
    ensures Bitwise(And, a, 0) == 0
  {
    if a != 0 {
      BitwiseZero(a / 2);
    }
  }

  /** Both operations give back a number combined with itself. */
  lemma {:induction false} BitwiseSame(op: BitOp, a: nat)
    ensures Bitwise(op, a, a) == a
  {
    if a != 0 {
      BitwiseSame(op, a / 2);
    }
  }

  lemma {:induction false} MaskKeeps(k: nat, a: nat)
    requires a < Pow2(k)
    ensures Bitwise(And, a, Pow2(k) - 1) == a
  {
    if k > 0 {
      MaskKeeps(k - 1, a / 2);
      assert (Pow2(k) - 1) / 2 == Pow2(k - 1) - 1;
    }
  }

  function Join(k: nat, high: nat, low: nat): nat {
    high * Pow2(k) + low
  }

  lemma HalveSum(p: nat, low: nat)
    ensures (2 * p + low) / 2 == p + low / 2 && (2 * p + low) % 2 == low % 2
  {}

  lemma JoinHalves(k: nat, high: nat, low: nat)
    requires k > 0
    ensures Join(k, high, low) / 2 == Join(k - 1, high, low / 2)
    ensures Join(k, high, low) % 2 == low % 2
  {
    Double(high, Pow2(k - 1));
    HalveSum(high * Pow2(k - 1), low);
  }

  lemma Double(a: nat, b: nat)
    ensures a * (2 * b) == 2 * (a * b)
  {}

  lemma JoinDouble(k: nat, high: nat, low: nat, bit: nat)
    requires k > 0
    ensures 2 * Join(k - 1, high, low) + bit == Join(k, high, 2 * low + bit)
  {
    Double(high, Pow2(k - 1));
  }

  lemma BitwiseHalves(op: BitOp, a: nat, b: nat)
    ensures Bitwise(op, a, b) == 2 * Bitwise(op, a / 2, b / 2) + Bit(op, a % 2, b % 2)
  {}

  /** The operations work on the high and the low parts of a word separately. */
  lemma {:induction false} BitwiseJoin(op: BitOp, k: nat, high1: nat, low1: nat, high2: nat, low2: nat)
    requires low1 < Pow2(k) && low2 < Pow2(k)
    ensures Bitwise(op, Join(k, high1, low1), Join(k, high2, low2))
         == Join(k, Bitwise(op, high1, high2), Bitwise(op, low1, low2))
  {
    if k > 0 {
      BitwiseJoin(op, k - 1, high1, low1 / 2, high2, low2 / 2);
      JoinStep(op, k, high1, low1, high2, low2);
    }
  }

  lemma JoinStep(op: BitOp, k: nat, high1: nat, low1: nat, high2: nat, low2: nat)
    requires k > 0
    requires Bitwise(op, Join(k - 1, high1, low1 / 2), Join(k - 1, high2, low2 / 2))
          == Join(k - 1, Bitwise(op, high1, high2), Bitwise(op, low1 / 2, low2 / 2))
    ensures Bitwise(op, Join(k, high1, low1), Join(k, high2, low2))
         == Join(k, Bitwise(op, high1, high2), Bitwise(op, low1, low2))
  {
    JoinHalves(k, high1, low1);
    JoinHalves(k, high2, low2);
    BitwiseHalves(op, Join(k, high1, low1), Join(k, high2, low2));
    BitwiseHalves(op, low1, low2);
    JoinDouble(k, Bitwise(op, high1, high2), Bitwise(op, low1 / 2, low2 / 2), Bit(op, low1 % 2, low2 % 2));
  }

  lemma Powers()
    ensures Pow2(8) == 0x100 && Pow2(24) == 0x100_0000
  {
    assert Pow2(4) == 0x10;
    assert Pow2(8) == 0x100;
    assert Pow2(12) == 0x1000;
    assert Pow2(16) == 0x1_0000;
    assert Pow2(20) == 0x10_0000;
  }
}
