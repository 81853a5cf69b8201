/** Fixed-width integers of the C source and the C operators whose meaning
    differs from Dafny's: truncating division and remainder, the wrap-around
    of a narrowing conversion, and the truncation of a float to an integer. */
module Ints {

  type int8 = x: int | -0x80 <= x < 0x80
  type uint8 = x: int | 0 <= x < 0x100
  type int16 = x: int | -0x8000 <= x < 0x8000
  type uint16 = x: int | 0 <= x < 0x1_0000

  predicate IsInt16(x: int) { -0x8000 <= x < 0x8000 }

  function Abs(x: int): nat { if x < 0 then -x else x }

  /** Conversion of an int to int16: two's-complement wrap-around, written
      as repeated steps of 2^16 toward the range. */
  function ToInt16(x: int): (r: int16)
    ensures IsInt16(x) ==> r == x
    decreases Abs(2 * x + 1)
  {
    if x < -0x8000 then ToInt16(x + 0x1_0000)
    else if x >= 0x8000 then ToInt16(x - 0x1_0000)
    else x
  }

  /** The conversion keeps the value modulo 2^16, so it is the unique int16
      congruent to its argument. */
  lemma {:induction false} ToInt16Congruent(x: int)
    ensures (ToInt16(x) - x) % 0x1_0000 == 0
    decreases Abs(2 * x + 1)
  {
    if x < -0x8000 {
      ToInt16Congruent(x + 0x1_0000);
    } else if x >= 0x8000 {
      ToInt16Congruent(x - 0x1_0000);
    }
  }

  /** Conversion of an int to uint16: reduction modulo 2^16. */
  function ToUint16(x: int): (r: uint16)
    ensures (r - x) % 0x1_0000 == 0
    ensures 0 <= x < 0x1_0000 ==> r == x
  {
    x % 0x1_0000
  }

  /** Conversion of an int to uint8: reduction modulo 2^8. */
  function ToUint8(x: int): (r: uint8)
    ensures (r - x) % 0x100 == 0
    ensures 0 <= x < 0x100 ==> r == x
  {
    x % 0x100
  }

  /** Quotient of natural numbers by repeated subtraction. */
  function NatDiv(a: nat, b: nat): nat
    requires b > 0
    decreases a
  {
    if a < b then 0 else 1 + NatDiv(a - b, b)
  }

  /** Remainder of natural numbers by repeated subtraction. */
  function NatMod(a: nat, b: nat): (m: nat)
    requires b > 0
    ensures m < b
    decreases a
  {
    if a < b then a else NatMod(a - b, b)
  }

  /** Quotient and remainder recompose the dividend. */
  lemma {:induction false} NatDivMod(a: nat, b: nat)
    requires b > 0
    ensures a == b * NatDiv(a, b) + NatMod(a, b)
    decreases a
  {
    if a >= b {
      NatDivMod(a - b, b);
      assert b * NatDiv(a, b) == b * NatDiv(a - b, b) + b;
    }
  }

  /** Division by one. */
  lemma {:induction false} NatDivOne(a: nat)
    ensures NatDiv(a, 1) == a && NatMod(a, 1) == 0
    decreases a
  {
    if a >= 1 {
      NatDivOne(a - 1);
    }
  }

  /** C's `/`: the quotient of the magnitudes, negated when the operands
      have opposite signs, so it is truncated toward zero. */
  function TruncDiv(a: int, b: int): (q: int)
    requires b != 0
    ensures q != 0 ==> ((q < 0) <==> ((a < 0) != (b < 0)))
    ensures Abs(a) < Abs(b) ==> q == 0
  {
    var q: int := NatDiv(Abs(a), Abs(b));
    if (a < 0) != (b < 0) then -q else q
  }

  /** C's `/` rounds toward zero: negating either operand negates the
      quotient, so -7 / 2 is -3 where the Euclidean quotient is -4. */
  lemma TruncDivSymmetric(a: int, b: int)
    requires b != 0
    ensures TruncDiv(-a, b) == -TruncDiv(a, b) && TruncDiv(a, -b) == -TruncDiv(a, b)
    ensures TruncDiv(-7, 2) == -3 != -7 / 2
  {
    assert NatDiv(7, 2) == 1 + NatDiv(5, 2) == 2 + NatDiv(3, 2) == 3 + NatDiv(1, 2) == 3;
  }

  /** C's `%`: the remainder of the magnitudes with the sign of the
      dividend. */
  function TruncMod(a: int, b: int): (r: int)
    requires b != 0
    ensures Abs(r) < Abs(b)
    ensures r != 0 ==> ((r < 0) <==> (a < 0))
  {
    var m: int := NatMod(Abs(a), Abs(b));
    if a < 0 then -m else m
  }

  /** The identity C guarantees between its `/` and `%`. */
  lemma TruncDivMod(a: int, b: int)
    requires b != 0
    ensures a == b * TruncDiv(a, b) + TruncMod(a, b)
  {
    var q, m := NatDiv(Abs(a), Abs(b)), NatMod(Abs(a), Abs(b));
    NatDivMod(Abs(a), Abs(b));
    if a >= 0 && b > 0 {
    } else if a >= 0 {
      assert b * TruncDiv(a, b) == (-b) * q;
    } else if b > 0 {
      assert b * TruncDiv(a, b) == -(b * q);
    } else {
      assert b * TruncDiv(a, b) == -((-b) * q);
    }
  }

  /** Conversion of a float to an integer: truncation toward zero. */
  function TruncReal(x: real): (r: int)
    ensures 0.0 <= x ==> r as real <= x < r as real + 1.0
    ensures x < 0.0 ==> r as real - 1.0 < x <= r as real
  {
    if x >= 0.0 then x.Floor else -((-x).Floor)
  }
}
