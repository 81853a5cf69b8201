/** The packed rational of the MML engine: a 32-bit word whose high half is
    the int16 numerator and whose low half is the int16 denominator, with
    gcd reduction after each operation. Intermediate products are int16 in
    the source and wrap; the reduction divides by zero when both parts of
    the unreduced fraction are zero, which is a trap on the target. */
module Rational {
  import opened Ints
  import opened Wrappers

  /** A rational as its two int16 halves. */
  datatype Rational = Rational(num: int16, den: int16)

  type uint32 = x: int | 0 <= x < 0x1_0000_0000

  /** `MakeRational`: the numerator in the high half of the word and the
      denominator in the low half, each as its uint16 bit pattern. */
  function Pack(r: Rational): (w: uint32)
    ensures w / 0x1_0000 == ToUint16(r.num) && w % 0x1_0000 == ToUint16(r.den)
  {
    ToUint16(r.num) * 0x1_0000 + ToUint16(r.den)
  }

  /** `(int16_t)(w >> 16)` and `(int16_t)(w & 0xFFFF)`. */
  function Unpack(w: uint32): Rational
  {
    Rational(ToInt16(w / 0x1_0000), ToInt16(w % 0x1_0000))
  }

  /** Unpacking a packed word gives back both halves. */
  lemma UnpackPack(r: Rational)
    ensures Unpack(Pack(r)) == r
  {
    var w := Pack(r);
    Int16OfUint16(r.num);
    Int16OfUint16(r.den);
  }

  /** Every word is the packing of its own halves, so the two
      representations are in one-to-one correspondence. */
  lemma PackUnpack(w: uint32)
    ensures Pack(Unpack(w)) == w
  {
    var hi, lo := w / 0x1_0000, w % 0x1_0000;
    Uint16OfInt16(hi);
    Uint16OfInt16(lo);
  }

  /** Reinterpreting the uint16 pattern of an int16 as int16 is the identity. */
  lemma Int16OfUint16(x: int16)
    ensures ToInt16(ToUint16(x)) == x
  {
    if x < 0 {
      assert ToUint16(x) == x + 0x1_0000;
      assert ToInt16(x + 0x1_0000) == ToInt16(x);
    }
  }

  /** Reinterpreting a uint16 pattern as int16 and back is the identity. */
  lemma Uint16OfInt16(x: uint16)
    ensures ToUint16(ToInt16(x)) == x
  {
    if x >= 0x8000 {
      assert ToInt16(x) == x - 0x1_0000;
    }
  }

  // ---------------------------------------------------------------- divisibility

  function Mul(a: int, b: int): int { a * b }

  ghost predicate Divides(d: int, a: int)
  {
    exists k :: Mul(d, k) == a
  }

  lemma DividesBy(d: int, a: int, k: int)
    requires Mul(d, k) == a
    ensures Divides(d, a)
  {
  }

  /** d divides every integer combination of two of its multiples. */
  lemma DividesCombination(d: int, a: int, b: int, q: int)
    requires Divides(d, a) && Divides(d, b)
    ensures Divides(d, a * q + b) && Divides(d, b - a * q)
  {
    var ka :| Mul(d, ka) == a;
    var kb :| Mul(d, kb) == b;
    assert a * q + b == d * (ka * q + kb);
    assert b - a * q == d * (kb - ka * q);
    DividesBy(d, a * q + b, ka * q + kb);
    DividesBy(d, b - a * q, kb - ka * q);
  }

  lemma DividesSelf(a: int)
    ensures Divides(a, a)
  {
    DividesBy(a, a, 1);
  }

  // ---------------------------------------------------------------- gcd

  /** The loop of the source's gcd on a nonzero pair, written as recursion:
      the last nonzero remainder of C's truncating `%`. Its sign follows the
      operands, so the result may be negative. */
  function Euclid(x: int16, y: int16): (g: int16)
    requires y != 0
    ensures g != 0
    decreases Abs(y)
  {
    var r := TruncMod(x, y);
    if r == 0 then y else Euclid(y, r)
  }

  /** The result of Euclid divides both operands. */
  lemma {:induction false} EuclidDivides(x: int16, y: int16)
    requires y != 0
    ensures Divides(Euclid(x, y), x) && Divides(Euclid(x, y), y)
    decreases Abs(y)
  {
    var r := TruncMod(x, y);
    TruncDivMod(x, y);
    if r == 0 {
      DividesBy(y, x, TruncDiv(x, y));
      DividesSelf(y);
    } else {
      EuclidDivides(y, r);
      DividesCombination(Euclid(y, r), y, r, TruncDiv(x, y));
    }
  }

  /** Every common divisor of the pair divides the result of Euclid. */
  lemma {:induction false} EuclidGreatest(x: int16, y: int16, d: int)
    requires y != 0 && Divides(d, x) && Divides(d, y)
    ensures Divides(d, Euclid(x, y))
    decreases Abs(y)
  {
    var r := TruncMod(x, y);
    if r != 0 {
      TruncDivMod(x, y);
      DividesCombination(d, y, x, TruncDiv(x, y));
      EuclidGreatest(y, r, d);
    }
  }

  /** `gcd(a, b)` of the source, with its two zero shortcuts. It is zero
      only for the pair (0, 0). */
  function Gcd(a: int16, b: int16): (g: int16)
    ensures g == 0 <==> a == 0 && b == 0
  {
    if a == 0 then b
    else if b == 0 then a
    else Euclid(a, b)
  }

  /** `gcd(a, b)` is a common divisor of a and b. */
  lemma GcdDivides(a: int16, b: int16)
    ensures Divides(Gcd(a, b), a) && Divides(Gcd(a, b), b)
  {
    if a == 0 {
      DividesBy(b, 0, 0);
      DividesSelf(b);
    } else if b == 0 {
      DividesBy(a, 0, 0);
      DividesSelf(a);
    } else {
      EuclidDivides(a, b);
    }
  }

  /** Every common divisor of a and b divides `gcd(a, b)`. */
  lemma GcdGreatest(a: int16, b: int16, d: int)
    requires Divides(d, a) && Divides(d, b)
    ensures Divides(d, Gcd(a, b))
  {
    if a != 0 && b != 0 {
      EuclidGreatest(a, b, d);
    }
  }

  /** The source's gcd loop, statement for statement. */
  method GcdLoop(a: int16, b: int16) returns (t: int16)
    ensures t == Gcd(a, b)
  {
    if a == 0 {
      return b;
    } else if b == 0 {
      return a;
    }
    var x: int16, y: int16 := a, b;
    var r: int16 := TruncMod(x, y);
    while r != 0
      invariant y != 0 && r == TruncMod(x, y)
      invariant Euclid(x, y) == Euclid(a, b)
      decreases Abs(y)
    {
      x, y := y, r;
      r := TruncMod(x, y);
    }
    return y;
  }

  // ---------------------------------------------------------------- reduction

  /** An exact quotient: dividing a multiple of t by t in C gives the factor. */
  lemma ExactTruncDiv(x: int, t: int, k: int)
    requires t != 0 && x == t * k
    ensures TruncDiv(x, t) == k
  {
    var q := TruncDiv(x, t);
    var r := TruncMod(x, t);
    TruncDivMod(x, t);
    Distribute(t, k, q);
    if k - q != 0 {
      AbsProductAtLeast(t, k - q);
    }
  }

  lemma Distribute(t: int, k: int, q: int)
    ensures t * k - t * q == t * (k - q)
  {
  }

  lemma {:induction false} MulMonotone(a: nat, b: nat)
    requires b >= 1
    ensures a * b >= a
    decreases b
  {
    if b > 1 {
      MulMonotone(a, b - 1);
      assert a * b == a * (b - 1) + a;
    }
  }

  lemma AbsProduct(t: int, m: int)
    ensures Abs(t * m) == Abs(t) * Abs(m)
  {
    assert t * m == (-t) * (-m) && t * m == -((-t) * m) && t * m == -(t * (-m));
    if t >= 0 && m >= 0 {
    } else if t >= 0 {
      MulNonneg(t, -m);
    } else if m >= 0 {
      MulNonneg(-t, m);
    } else {
      MulNonneg(-t, -m);
    }
  }

  lemma MulNonneg(a: nat, b: nat)
    ensures a * b >= 0
  {
  }

  lemma AbsProductAtLeast(t: int, m: int)
    requires t != 0 && m != 0
    ensures Abs(t * m) >= Abs(t)
  {
    AbsProduct(t, m);
    MulMonotone(Abs(t), Abs(m));
  }

  /** t * a == t * b with t nonzero gives a == b. */
  lemma Cancel(t: int, a: int, b: int)
    requires t != 0 && t * a == t * b
    ensures a == b
  {
    Distribute(t, a, b);
    if a - b != 0 {
      AbsProductAtLeast(t, a - b);
    }
  }

  /** The only integer factors of 1 are 1 and -1. */
  lemma UnitFactor(d: int, j: int)
    requires d * j == 1
    ensures d == 1 || d == -1
  {
    assert d != 0 && j != 0;
    AbsProductAtLeast(j, d);
    assert d * j == j * d;
    assert Abs(j) == 1;
  }

  /** A fraction parts fit in (-32768, 32768): the one value whose negation
      does not fit in int16 is left out. */
  predicate Narrow(x: int) { -0x7FFF <= x <= 0x7FFF }

  /** `MakeRational(x / t, y / t)` with `t = gcd(x, y)`. The division traps
      when both parts are zero (None). Otherwise, when neither part is
      -32768, the reduced parts multiplied by the gcd give back the pair. */
  function Reduce(x: int16, y: int16): (r: Option<Rational>)
    ensures r.None? <==> x == 0 && y == 0
  {
    var t := Gcd(x, y);
    if t == 0 then None
    else
      Some(Rational(ToInt16(TruncDiv(x, t)), ToInt16(TruncDiv(y, t))))
  }

  lemma ReduceParts(x: int16, y: int16)
    requires Reduce(x, y).Some? && Narrow(x) && Narrow(y)
    ensures Reduce(x, y).value.num * Gcd(x, y) == x
    ensures Reduce(x, y).value.den * Gcd(x, y) == y
  {
    ReduceExact(x, y);
  }

  lemma ReduceExact(x: int16, y: int16)
    requires Gcd(x, y) != 0
    ensures Narrow(x) ==> TruncDiv(x, Gcd(x, y)) * Gcd(x, y) == x && IsInt16(TruncDiv(x, Gcd(x, y)))
    ensures Narrow(y) ==> TruncDiv(y, Gcd(x, y)) * Gcd(x, y) == y && IsInt16(TruncDiv(y, Gcd(x, y)))
  {
    var t := Gcd(x, y);
    GcdDivides(x, y);
    var kx :| Mul(t, kx) == x;
    var ky :| Mul(t, ky) == y;
    ExactFactor(x, t, kx);
    ExactFactor(y, t, ky);
  }

  /** The exact quotient of a Narrow multiple of t is itself Narrow. */
  lemma ExactFactor(x: int, t: int, k: int)
    requires t != 0 && x == t * k
    ensures TruncDiv(x, t) == k && k * t == x
    ensures Narrow(x) ==> Narrow(k)
  {
    ExactTruncDiv(x, t, k);
    assert k * t == t * k;
    if k != 0 {
      AbsProductAtLeast(k, t);
    }
  }

  /** A reduced fraction is in lowest terms: its only common divisors are
      1 and -1. */
  lemma ReduceInLowestTerms(x: int16, y: int16, d: int)
    requires Reduce(x, y).Some? && Narrow(x) && Narrow(y)
    requires Divides(d, Reduce(x, y).value.num) && Divides(d, Reduce(x, y).value.den)
    ensures d == 1 || d == -1
  {
    var r := Reduce(x, y).value;
    var t := Gcd(x, y);
    var n, m := r.num, r.den;
    ReduceParts(x, y);
    assert n * t == x && m * t == y;
    var kn :| Mul(d, kn) == n;
    var km :| Mul(d, km) == m;
    Regroup(d, kn, t);
    Regroup(d, km, t);
    DividesBy(d * t, x, kn);
    DividesBy(d * t, y, km);
    GcdGreatest(x, y, d * t);
    var j :| Mul(d * t, j) == t;
    Regroup(d, j, t);
    assert t * (d * j) == t * 1;
    Cancel(t, d * j, 1);
    UnitFactor(d, j);
  }

  lemma Regroup(d: int, k: int, t: int)
    ensures (d * k) * t == (d * t) * k == t * (d * k)
  {
  }

  // ---------------------------------------------------------------- operations

  /** The unreduced sum: the same-denominator shortcut, else cross
      multiplication, each wrapped to int16. */
  function AddParts(p: Rational, q: Rational): (int16, int16)
  {
    var a, b, c, d := p.num, p.den, q.num, q.den;
    if b == d then (ToInt16(a + c), b)
    else (ToInt16(a * d + b * c), ToInt16(b * d))
  }

  function SubParts(p: Rational, q: Rational): (int16, int16)
  {
    var a, b, c, d := p.num, p.den, q.num, q.den;
    if b == d then (ToInt16(a - c), b)
    else (ToInt16(a * d - b * c), ToInt16(b * d))
  }

  function MulParts(p: Rational, q: Rational): (int16, int16)
  {
    var a, b, c, d := p.num, p.den, q.num, q.den;
    (ToInt16(a * c), ToInt16(b * d))
  }

  /** `add`: the sum over a shared denominator, or the cross sum, each
      part wrapped to int16, then reduced; it traps exactly when both
      unreduced parts are 0. */
  function Add(p: Rational, q: Rational): (r: Option<Rational>)
    ensures r.None? <==> AddParts(p, q).0 == 0 && AddParts(p, q).1 == 0
  {
    Reduce(AddParts(p, q).0, AddParts(p, q).1)
  }

  /** `sub`: as `add`, with the second operand's numerator subtracted. */
  function Sub(p: Rational, q: Rational): (r: Option<Rational>)
    ensures r.None? <==> SubParts(p, q).0 == 0 && SubParts(p, q).1 == 0
  {
    Reduce(SubParts(p, q).0, SubParts(p, q).1)
  }

  /** `mul`: numerators and denominators multiplied, each wrapped to
      int16, then reduced. */
  function MulR(p: Rational, q: Rational): (r: Option<Rational>)
    ensures r.None? <==> MulParts(p, q).0 == 0 && MulParts(p, q).1 == 0
  {
    Reduce(MulParts(p, q).0, MulParts(p, q).1)
  }

  /** `add` traps (its gcd is 0, and it divides by it) exactly when the
      unreduced sum is 0/0; on a common nonzero denominator it never
      does. */
  lemma AddTraps(p: Rational, q: Rational)
    ensures p.den == q.den ==> (Add(p, q).None? <==> p.den == 0 && ToInt16(p.num + q.num) == 0)
    ensures p.den != q.den ==>
      (Add(p, q).None? <==> ToInt16(p.num * q.den + p.den * q.num) == 0 && ToInt16(p.den * q.den) == 0)
  {
  }

  /** `sub` traps exactly when the unreduced difference is 0/0. */
  lemma SubTraps(p: Rational, q: Rational)
    ensures p.den == q.den ==> (Sub(p, q).None? <==> p.den == 0 && ToInt16(p.num - q.num) == 0)
    ensures p.den != q.den ==>
      (Sub(p, q).None? <==> ToInt16(p.num * q.den - p.den * q.num) == 0 && ToInt16(p.den * q.den) == 0)
  {
  }

  /** `mul` traps exactly when both wrapped products are 0: 256/256 times
      itself is one such case. */
  lemma MulTraps(p: Rational, q: Rational)
    ensures MulR(p, q).None? <==> ToInt16(p.num * q.num) == 0 && ToInt16(p.den * q.den) == 0
    ensures MulR(Rational(256, 256), Rational(256, 256)).None?
  {
    assert ToInt16(256 * 256) == 0;
  }

  /** `getRationalValue` for a nonzero denominator. */
  function Value(r: Rational): real
    requires r.den != 0
  {
    r.num as real / r.den as real
  }

  /** No int16 overflow on the path the operation takes. */
  predicate AddFits(p: Rational, q: Rational)
  {
    var a, b, c, d := p.num, p.den, q.num, q.den;
    if b == d then Narrow(a + c) && Narrow(b) else Narrow(a * d + b * c) && Narrow(b * d)
  }

  predicate SubFits(p: Rational, q: Rational)
  {
    var a, b, c, d := p.num, p.den, q.num, q.den;
    if b == d then Narrow(a - c) && Narrow(b) else Narrow(a * d - b * c) && Narrow(b * d)
  }

  predicate MulFits(p: Rational, q: Rational)
  {
    Narrow(p.num * q.num) && Narrow(p.den * q.den)
  }

  /** The reduced fraction denotes the same number as the pair. */
  lemma ReduceValue(x: int16, y: int16)
    requires y != 0 && Narrow(x) && Narrow(y)
    ensures Reduce(x, y).Some?
    ensures Reduce(x, y).value.den != 0
    ensures Value(Reduce(x, y).value) == x as real / y as real
  {
    var r := Reduce(x, y).value;
    var t := Gcd(x, y);
    var n, m := r.num, r.den;
    ReduceParts(x, y);
    assert n * t == x && m * t == y;
    assert m != 0;
    FracScale(n, m, t);
  }

  lemma FracScale(n: int, m: int, t: int)
    requires m != 0 && t != 0
    ensures (n * t) as real / (m * t) as real == n as real / m as real
  {
    CastMul(n, t);
    CastMul(m, t);
    RealFracScale(n as real, m as real, t as real);
  }

  lemma CastMul(a: int, b: int)
    ensures (a * b) as real == a as real * b as real
  {
  }

  lemma RealFracScale(n: real, m: real, t: real)
    requires m != 0.0 && t != 0.0
    ensures (n * t) / (m * t) == n / m
  {
  }

  /** A fraction over 1 is already reduced. */
  lemma ReduceOverOne(x: int16)
    ensures Reduce(x, 1) == Some(Rational(x, 1))
  {
    NatDivOne(Abs(x));
    assert TruncDiv(x, 1) == x && TruncDiv(1, 1) == 1;
    if x != 0 {
      assert TruncMod(x, 1) == 0;
      assert Gcd(x, 1) == 1;
    }
  }

  /** A unit fraction with a positive denominator is already reduced. */
  lemma ReduceOneOver(y: int16)
    requires y > 0
    ensures Reduce(1, y) == Some(Rational(1, y))
  {
    NatDivOne(y);
    assert TruncDiv(y, 1) == y && TruncDiv(1, 1) == 1;
    if y == 1 {
      assert TruncMod(1, 1) == 0;
    } else {
      assert TruncDiv(1, y) == 0;
      assert TruncMod(1, y) == 1;
      assert TruncMod(y, 1) == 0;
      assert Euclid(y, 1) == 1;
    }
    assert Gcd(1, y) == 1;
  }

  /** Without overflow, `add` is the sum of the two values. */
  lemma AddValue(p: Rational, q: Rational)
    requires p.den != 0 && q.den != 0 && AddFits(p, q)
    ensures Add(p, q).Some? && Add(p, q).value.den != 0
    ensures Value(Add(p, q).value) == Value(p) + Value(q)
  {
    var a: int, b: int, c: int, d: int := p.num, p.den, q.num, q.den;
    var x, y := AddParts(p, q).0, AddParts(p, q).1;
    if b == d {
      assert x == a + c && y == b;
      ReduceValue(x, y);
      SameDenominator(a, c, b, x);
    } else {
      ProductNonzero(b, d);
      assert x == a * d + b * c && y == b * d;
      ReduceValue(x, y);
      CrossSum(a, b, c, d, x, y);
    }
  }

  /** Without overflow, `sub` is the difference of the two values. */
  lemma SubValue(p: Rational, q: Rational)
    requires p.den != 0 && q.den != 0 && SubFits(p, q)
    ensures Sub(p, q).Some? && Sub(p, q).value.den != 0
    ensures Value(Sub(p, q).value) == Value(p) - Value(q)
  {
    var a: int, b: int, c: int, d: int := p.num, p.den, q.num, q.den;
    var x, y := SubParts(p, q).0, SubParts(p, q).1;
    if b == d {
      assert x == a - c && y == b;
      ReduceValue(x, y);
      SameDenominatorDiff(a, c, b, x);
    } else {
      ProductNonzero(b, d);
      assert x == a * d - b * c && y == b * d;
      ReduceValue(x, y);
      CrossDiff(a, b, c, d, x, y);
    }
  }

  /** Without overflow, `mul` is the product of the two values. */
  lemma MulValue(p: Rational, q: Rational)
    requires p.den != 0 && q.den != 0 && MulFits(p, q)
    ensures MulR(p, q).Some? && MulR(p, q).value.den != 0
    ensures Value(MulR(p, q).value) == Value(p) * Value(q)
  {
    var x, y := MulParts(p, q).0, MulParts(p, q).1;
    ProductNonzero(p.den, q.den);
    assert x == p.num * q.num && y == p.den * q.den;
    ReduceValue(x, y);
    ProductValue(p, q, MulR(p, q).value);
  }

  lemma ProductValue(p: Rational, q: Rational, r: Rational)
    requires p.den != 0 && q.den != 0 && r.den != 0 && p.den * q.den != 0
    requires Value(r) == (p.num * q.num) as real / (p.den * q.den) as real
    ensures Value(r) == Value(p) * Value(q)
  {
    CrossProduct(p.num, p.den, q.num, q.den, p.num * q.num, p.den * q.den);
  }

  lemma ProductNonzero(b: int, d: int)
    requires b != 0 && d != 0
    ensures b * d != 0
  {
    AbsProductAtLeast(b, d);
  }

  lemma SameDenominatorDiff(a: int, c: int, b: int, x: int)
    requires b != 0 && x == a - c
    ensures x as real / b as real == a as real / b as real - c as real / b as real
  {
    RealSameDenominatorDiff(a as real, c as real, b as real);
  }

  lemma RealSameDenominatorDiff(a: real, c: real, b: real)
    requires b != 0.0
    ensures (a - c) / b == a / b - c / b
  {
  }

  lemma CrossDiff(a: int, b: int, c: int, d: int, x: int, y: int)
    requires b != 0 && d != 0 && x == a * d - b * c && y == b * d
    ensures x as real / y as real == a as real / b as real - c as real / d as real
  {
    CastMul(a, d);
    CastMul(b, c);
    CastMul(b, d);
    RealCrossDiff(a as real, b as real, c as real, d as real);
  }

  lemma RealCrossDiff(a: real, b: real, c: real, d: real)
    requires b != 0.0 && d != 0.0
    ensures (a * d - b * c) / (b * d) == a / b - c / d
  {
  }

  lemma SameDenominator(a: int, c: int, b: int, x: int)
    requires b != 0 && x == a + c
    ensures x as real / b as real == a as real / b as real + c as real / b as real
  {
    RealSameDenominator(a as real, c as real, b as real);
  }

  lemma RealSameDenominator(a: real, c: real, b: real)
    requires b != 0.0
    ensures (a + c) / b == a / b + c / b
  {
  }

  lemma CrossSum(a: int, b: int, c: int, d: int, x: int, y: int)
    requires b != 0 && d != 0 && x == a * d + b * c && y == b * d
    ensures x as real / y as real == a as real / b as real + c as real / d as real
  {
    CastMul(a, d);
    CastMul(b, c);
    CastMul(b, d);
    RealCrossSum(a as real, b as real, c as real, d as real);
  }

  lemma RealCrossSum(a: real, b: real, c: real, d: real)
    requires b != 0.0 && d != 0.0
    ensures (a * d + b * c) / (b * d) == a / b + c / d
  {
  }

  lemma CrossProduct(a: int, b: int, c: int, d: int, x: int, y: int)
    requires b != 0 && d != 0 && x == a * c && y == b * d
    ensures x as real / y as real == (a as real / b as real) * (c as real / d as real)
  {
    CastMul(a, c);
    CastMul(b, d);
    RealCrossProduct(a as real, b as real, c as real, d as real);
  }

  lemma RealCrossProduct(a: real, b: real, c: real, d: real)
    requires b != 0.0 && d != 0.0
    ensures (a * c) / (b * d) == (a / b) * (c / d)
  {
  }
}
