/** Note lengths: a sum of terms, each a length number (1/n) or the default
    length, optionally scaled by a run of modifiers. */
module MmlLength {
  import opened Ints
  import opened Wrappers
  import opened Rational
  import opened MmlText

  /** A rational result or the trap of its reduction, at index `next`. */
  function Then(r: Option<Rational>, next: nat): Parsed<Rational>
  {
    if r.Some? then Ok(next, r.value) else Trap
  }

  // ---------------------------------------------------------------- numbers

  /** The length numbers the source accepts, by their digit count and
      value. */
  predicate IsLengthCode(digits: nat, n: nat)
  {
    (digits == 1 && n in {1, 2, 3, 4, 6, 8, 9})
    || (digits == 2 && n in {12, 16, 24, 32, 48, 64, 96})
  }

  /** One case of `checkNoteLengthNumber`: a leading digit that stands for
      1/single on its own, or for 1/double when followed by `second`. A
      third digit, or any other second digit, is an error. */
  function OneOrTwo(s: string, i: nat, single: int16, second: char, double: int16): Parsed<Rational>
  {
    var c1, c2 := At(s, i + 1), At(s, i + 2);
    if !IsDigit(c1) then Ok(i + 1, Rational(1, single))
    else if c1 == second && !IsDigit(c2) then Ok(i + 2, Rational(1, double))
    else Fail
  }

  /** `checkNoteLengthNumber`, case by case on the first digit. */
  function LengthNumber(s: string, i: nat): Parsed<Rational>
  {
    var c, c1, c2 := At(s, i), At(s, i + 1), At(s, i + 2);
    if c == '1' then
      if !IsDigit(c1) then Ok(i + 1, Rational(1, 1))
      else if c1 == '6' && !IsDigit(c2) then Ok(i + 2, Rational(1, 16))
      else if c1 == '2' && !IsDigit(c2) then Ok(i + 2, Rational(1, 12))
      else Fail
    else if c == '2' then OneOrTwo(s, i, 2, '4', 24)
    else if c == '3' then OneOrTwo(s, i, 3, '2', 32)
    else if c == '4' then OneOrTwo(s, i, 4, '8', 48)
    else if c == '6' then OneOrTwo(s, i, 6, '4', 64)
    else if c == '8' then (if !IsDigit(c1) then Ok(i + 1, Rational(1, 8)) else Fail)
    else if c == '9' then OneOrTwo(s, i, 9, '6', 96)
    else Fail
  }

  /** A length number is accepted exactly when the maximal digit run at i
      spells one of 1 2 3 4 6 8 9 12 16 24 32 48 64 96; it then ends at the
      end of the run and denotes 1/n. */
  ghost predicate LengthCodeMeaning(s: string, i: nat)
  {
    var e := DigitsEnd(s, i);
    var r := LengthNumber(s, i);
    (r.Ok? <==> e <= |s| && IsLengthCode(e - i, Decimal(s, i, e)))
    && (r.Ok? ==> r.next == e && r.value == Rational(1, Decimal(s, i, e)))
  }

  lemma LengthNumberCodes(s: string, i: nat)
    ensures var e := DigitsEnd(s, i);
            var r := LengthNumber(s, i);
            (r.Ok? <==> e <= |s| && IsLengthCode(e - i, Decimal(s, i, e)))
            && (r.Ok? ==> r.next == e && r.value == Rational(1, Decimal(s, i, e)))
  {
    if !IsDigit(At(s, i)) {
      assert DigitsEnd(s, i) == i;
    } else if !IsDigit(At(s, i + 1)) {
      OneDigitCode(s, i);
    } else if !IsDigit(At(s, i + 2)) {
      TwoDigitCode(s, i);
    } else {
      LongCode(s, i);
    }
    assert LengthCodeMeaning(s, i);
  }

  lemma OneDigitCode(s: string, i: nat)
    requires IsDigit(At(s, i)) && !IsDigit(At(s, i + 1))
    ensures LengthCodeMeaning(s, i)
  {
    assert DigitsEnd(s, i) == i + 1;
    assert Decimal(s, i, i + 1) == DigitOf(s[i]) by {
      assert Decimal(s, i, i + 1) == Decimal(s, i, i) * 10 + DigitOf(s[i]);
    }
  }

  lemma TwoDigitCode(s: string, i: nat)
    requires IsDigit(At(s, i)) && IsDigit(At(s, i + 1)) && !IsDigit(At(s, i + 2))
    ensures LengthCodeMeaning(s, i)
  {
    assert DigitsEnd(s, i) == i + 2 by {
      assert DigitsEnd(s, i + 1) == DigitsEnd(s, i + 2);
    }
    assert Decimal(s, i, i + 2) == DigitOf(s[i]) * 10 + DigitOf(s[i + 1]) by {
      assert Decimal(s, i, i + 2) == Decimal(s, i, i + 1) * 10 + DigitOf(s[i + 1]);
      assert Decimal(s, i, i + 1) == Decimal(s, i, i) * 10 + DigitOf(s[i]);
    }
  }

  lemma LongCode(s: string, i: nat)
    requires IsDigit(At(s, i)) && IsDigit(At(s, i + 1)) && IsDigit(At(s, i + 2))
    ensures LengthCodeMeaning(s, i)
  {
    assert DigitsEnd(s, i) >= i + 3 by {
      assert DigitsEnd(s, i) == DigitsEnd(s, i + 1) == DigitsEnd(s, i + 2) == DigitsEnd(s, i + 3);
    }
  }

  // ---------------------------------------------------------------- modifiers

  /** The end of the run of `c` characters starting at i. */
  function RunEnd(s: string, i: nat, c: char): (j: nat)
    requires c != '\0'
    ensures i <= j
    ensures i < j ==> j <= |s|
    ensures forall k :: i <= k < j ==> s[k] == c
    ensures At(s, j) != c
    decreases |s| - i
  {
    if At(s, i) == c then RunEnd(s, i + 1, c) else i
  }

  function Pow2(k: nat): (p: nat)
    ensures 1 <= p
  {
    if k == 0 then 1 else 2 * Pow2(k - 1)
  }

  const One: Rational := Rational(1, 1)

  /** One modifier of a run: the fraction it multiplies by, the index
      after it, and whether it ends the run. */
  datatype Modifier = Modifier(factor: Rational, next: nat, last: bool)

  /** The modifier at i: '.' is 3/2 and ends the run; ".." is 7/4; k '_'
      are 2^k and k '/' are 1/2^k, the power converted to the int16 argument
      of `MakeRational`. Any other character is no modifier. */
  function ModifierAt(s: string, i: nat): (m: Option<Modifier>)
    ensures m.Some? ==> i < m.value.next <= |s|
  {
    var c := At(s, i);
    if c == '.' then
      if At(s, i + 1) != '.' then Some(Modifier(Rational(3, 2), i + 1, true))
      else Some(Modifier(Rational(7, 4), i + 2, false))
    else if c == '_' then
      var e := RunEnd(s, i, '_');
      Some(Modifier(Rational(ToInt16(Pow2(e - i)), 1), e, false))
    else if c == '/' then
      var e := RunEnd(s, i, '/');
      Some(Modifier(Rational(1, ToInt16(Pow2(e - i))), e, false))
    else None
  }

  /** `checkNoteLengthModifierFactor` from factor `f`: the product of the
      modifiers of the run, reduced after each step. It never fails; a
      reduction can trap. */
  function Modifiers(s: string, i: nat, f: Rational): (r: Parsed<Rational>)
    ensures !r.Fail?
    ensures r.Ok? ==> i <= r.next
    ensures i <= |s| && r.Ok? ==> r.next <= |s|
    decreases |s| - i
  {
    match ModifierAt(s, i)
    case None => Ok(i, f)
    case Some(m) =>
      var g := MulR(f, m.factor);
      if g.None? then Trap
      else if m.last then Ok(m.next, g.value)
      else Modifiers(s, m.next, g.value)
  }

  /** `checkNoteLengthModifierFactor`: the factor of the modifier run at
      i, computed from 1/1. */
  function RunFactor(s: string, i: nat): Parsed<Rational>
  {
    Modifiers(s, i, One)
  }

  /** The inner loops of `checkNoteLengthModifierFactor`: the end of the
      run of `c` at i and 2 to the power of its length. */
  method CountRun(s: string, start: nat, c: char) returns (i: nat, n: nat)
    requires c != '\0'
    ensures i == RunEnd(s, start, c) && n == Pow2(i - start)
  {
    i, n := start, 1;
    while At(s, i) == c
      invariant start <= i <= RunEnd(s, start, c)
      invariant RunEnd(s, i, c) == RunEnd(s, start, c)
      invariant n == Pow2(i - start)
      decreases |s| - i
    {
      i, n := i + 1, n * 2;
    }
  }

  /** The branches of the source's loop body that read one modifier. */
  method ReadModifier(s: string, i: nat) returns (m: Option<Modifier>)
    ensures m == ModifierAt(s, i)
  {
    var c := At(s, i);
    if c == '.' {
      if At(s, i + 1) != '.' {
        m := Some(Modifier(Rational(3, 2), i + 1, true));
      } else {
        m := Some(Modifier(Rational(7, 4), i + 2, false));
      }
    } else if c == '_' {
      var e, n := CountRun(s, i, '_');
      m := Some(Modifier(Rational(ToInt16(n), 1), e, false));
    } else if c == '/' {
      var e, d := CountRun(s, i, '/');
      m := Some(Modifier(Rational(1, ToInt16(d)), e, false));
    } else {
      m := None;
    }
  }

  /** The source's loop. */
  method ModifierFactor(s: string, start: nat) returns (r: Parsed<Rational>)
    ensures r == Modifiers(s, start, One)
  {
    var i := start;
    var factor := One;
    while true
      invariant Modifiers(s, i, factor) == Modifiers(s, start, One)
      decreases |s| - i
    {
      var m := ReadModifier(s, i);
      if m.None? {
        return Ok(i, factor);
      }
      var g := MulR(factor, m.value.factor);
      if g.None? {
        return Trap;
      }
      if m.value.last {
        return Ok(m.value.next, g.value);
      }
      i, factor := m.value.next, g.value;
    }
  }

  /** Multiplying 1/1 by a fraction n/1 or 1/n with n a power of two
      reduces to that fraction itself. */
  lemma MulOneByPower(k: nat)
    requires k <= 14
    ensures Pow2(k) <= 0x4000
    ensures MulR(One, Rational(Pow2(k), 1)) == Some(Rational(Pow2(k), 1))
    ensures MulR(One, Rational(1, Pow2(k))) == Some(Rational(1, Pow2(k)))
  {
    PowerMonotone(k, 14);
    assert Pow2(14) == 0x4000;
    OneTimesWhole(Pow2(k));
    OneTimesUnit(Pow2(k));
  }

  lemma OneTimesWhole(n: int16)
    ensures MulR(One, Rational(n, 1)) == Some(Rational(n, 1))
  {
    assert MulParts(One, Rational(n, 1)) == (n, 1);
    ReduceOverOne(n);
  }

  lemma OneTimesUnit(n: int16)
    requires n > 0
    ensures MulR(One, Rational(1, n)) == Some(Rational(1, n))
  {
    assert MulParts(One, Rational(1, n)) == (1, n);
    ReduceOneOver(n);
  }

  lemma {:induction false} PowerMonotone(k: nat, n: nat)
    requires k <= n
    ensures Pow2(k) <= Pow2(n)
    decreases n - k
  {
    if k < n {
      PowerMonotone(k, n - 1);
    }
  }

  /** k underscores (k at most 14) followed by a character that is not a
      modifier give the factor 2^k and stop after the run. */
  lemma UnderscoreRun(s: string, i: nat, k: nat)
    requires k <= 14 && i + k < |s|
    requires forall j :: i <= j < i + k ==> s[j] == '_'
    requires k > 0 && s[i + k] !in {'.', '_', '/'}
    ensures Pow2(k) <= 0x4000
    ensures Modifiers(s, i, One) == Ok(i + k, Rational(Pow2(k), 1))
  {
    RunEndAt(s, i, '_', k);
    MulOneByPower(k);
  }

  /** k slashes (k at most 14) followed by a character that is not a
      modifier give the factor 1/2^k and stop after the run. */
  lemma SlashRun(s: string, i: nat, k: nat)
    requires k <= 14 && i + k < |s|
    requires forall j :: i <= j < i + k ==> s[j] == '/'
    requires k > 0 && s[i + k] !in {'.', '_', '/'}
    ensures Pow2(k) <= 0x4000
    ensures Modifiers(s, i, One) == Ok(i + k, Rational(1, Pow2(k)))
  {
    RunEndAt(s, i, '/', k);
    MulOneByPower(k);
  }

  lemma {:induction false} RunEndAt(s: string, i: nat, c: char, k: nat)
    requires c != '\0' && i + k < |s|
    requires forall j :: i <= j < i + k ==> s[j] == c
    requires s[i + k] != c
    ensures RunEnd(s, i, c) == i + k
    decreases k
  {
    if k > 0 {
      RunEndAt(s, i + 1, c, k - 1);
    }
  }

  /** A single '.' multiplies the value by 3/2 and ends the run, whatever
      follows it (when the product fits in int16). */
  lemma SingleDotEndsRun(s: string, i: nat, f: Rational)
    requires At(s, i) == '.' && At(s, i + 1) != '.'
    requires f.den != 0 && MulFits(f, Rational(3, 2))
    ensures var r := Modifiers(s, i, f);
            r.Ok? && r.next == i + 1 && r.value.den != 0 && Value(r.value) == Value(f) * 1.5
  {
    MulValue(f, Rational(3, 2));
  }

  /** ".." multiplies the value by 7/4 and the run goes on after it. */
  lemma DoubleDotContinues(s: string, i: nat, f: Rational)
    requires At(s, i) == '.' && At(s, i + 1) == '.'
    requires f.den != 0 && MulFits(f, Rational(7, 4))
    ensures var g := MulR(f, Rational(7, 4));
            g.Some? && g.value.den != 0 && Value(g.value) == Value(f) * 1.75
            && Modifiers(s, i, f) == Modifiers(s, i + 2, g.value)
  {
    MulValue(f, Rational(7, 4));
  }

  /** k '_' (k at most 14) multiply by 2^k and the run goes on after them;
      `ScaleUp` gives the value of the product. */
  lemma UnderscoresContinue(s: string, i: nat, k: nat, f: Rational)
    requires k <= 14 && i + k < |s|
    requires forall j :: i <= j < i + k ==> s[j] == '_'
    requires k > 0 && s[i + k] != '_'
    requires f.den != 0 && Narrow(f.den) && Narrow(f.num * Pow2(k))
    ensures Pow2(k) <= 0x4000
    ensures var g := MulR(f, Rational(Pow2(k), 1));
            g.Some? && Modifiers(s, i, f) == Modifiers(s, i + k, g.value)
  {
    RunEndAt(s, i, '_', k);
    MulOneByPower(k);
    var n: int16 := Pow2(k);
    assert ModifierAt(s, i) == Some(Modifier(Rational(n, 1), i + k, false));
    ScaleUp(f, n);
    ContinueRun(s, i, f);
  }

  /** A modifier that does not end the run leaves the rest of the run to
      the product so far. */
  lemma ContinueRun(s: string, i: nat, f: Rational)
    requires ModifierAt(s, i).Some? && !ModifierAt(s, i).value.last
    requires MulR(f, ModifierAt(s, i).value.factor).Some?
    ensures Modifiers(s, i, f)
            == Modifiers(s, ModifierAt(s, i).value.next, MulR(f, ModifierAt(s, i).value.factor).value)
  {
  }

  /** Multiplying by n/1 multiplies the value by n. */
  lemma ScaleUp(f: Rational, n: int16)
    requires n > 0 && f.den != 0 && Narrow(f.den) && Narrow(f.num * n)
    ensures var g := MulR(f, Rational(n, 1));
            g.Some? && g.value.den != 0 && Value(g.value) == Value(f) * n as real
  {
    assert MulFits(f, Rational(n, 1));
    MulValue(f, Rational(n, 1));
    assert Value(Rational(n, 1)) == n as real;
  }

  /** Multiplying by 1/n divides the value by n. */
  lemma ScaleDown(f: Rational, n: int16)
    requires n > 0 && f.den != 0 && Narrow(f.num) && Narrow(f.den * n)
    ensures var g := MulR(f, Rational(1, n));
            g.Some? && g.value.den != 0 && Value(g.value) == Value(f) / n as real
  {
    assert MulFits(f, Rational(1, n));
    MulValue(f, Rational(1, n));
    DivideByProduct(Value(f), n as real);
  }

  /** k '/' (k at most 14) multiply by 1/2^k and the run goes on after
      them; `ScaleDown` gives the value of the product. */
  lemma SlashesContinue(s: string, i: nat, k: nat, f: Rational)
    requires k <= 14 && i + k < |s|
    requires forall j :: i <= j < i + k ==> s[j] == '/'
    requires k > 0 && s[i + k] != '/'
    requires f.den != 0 && Narrow(f.num) && Narrow(f.den * Pow2(k))
    ensures Pow2(k) <= 0x4000
    ensures var g := MulR(f, Rational(1, Pow2(k)));
            g.Some? && Modifiers(s, i, f) == Modifiers(s, i + k, g.value)
  {
    RunEndAt(s, i, '/', k);
    MulOneByPower(k);
    var n: int16 := Pow2(k);
    assert ModifierAt(s, i) == Some(Modifier(Rational(1, n), i + k, false));
    ScaleDown(f, n);
    ContinueRun(s, i, f);
  }

  lemma DivideByProduct(v: real, n: real)
    requires n != 0.0
    ensures v * (1.0 / n) == v / n
  {
  }

  // ---------------------------------------------------------------- terms and sums

  function IsModifier(c: char): bool { c == '.' || c == '/' || c == '_' }

  /** `checkNoteLengthTerm`: a length number (or the default length when no
      digit follows), then an optional modifier run applied to it. */
  function LengthTerm(s: string, i: nat, default: Rational): (r: Parsed<Rational>)
    ensures r.Ok? ==> i <= r.next
  {
    var i1 := SkipWs(s, i);
    var number := if !IsDigit(At(s, i1)) then Ok(i1, default) else LengthNumber(s, i1);
    if !number.Ok? then number
    else
      var i2 := SkipWs(s, number.next);
      if !IsModifier(At(s, i2)) then Ok(i2, number.value)
      else
        var m := Modifiers(s, i2, One);
        if !m.Ok? then m
        else Then(MulR(number.value, m.value), m.next)
  }

  /** The length a term starts with: the default length when no digit
      follows, and otherwise 1/n for a length code n ending where its
      digit run ends. */
  lemma TermNumberValue(s: string, i1: nat, default: Rational)
    requires default.den != 0
    requires (if IsDigit(At(s, i1)) then LengthNumber(s, i1) else Ok(i1, default)).Ok?
    ensures var digits := IsDigit(At(s, i1));
      var e := if digits then DigitsEnd(s, i1) else i1;
      var number := if digits then LengthNumber(s, i1) else Ok(i1, default);
      number.next == e && number.value.den != 0
      && (!digits ==> number.value == default)
      && (digits ==> e <= |s| && IsLengthCode(e - i1, Decimal(s, i1, e))
                     && Value(number.value) == 1.0 / Decimal(s, i1, e) as real)
  {
    if IsDigit(At(s, i1)) {
      LengthNumberCodes(s, i1);
    }
  }

  /** What a term that is read denotes: it starts with a length (see
      `TermNumberValue`); without a modifier run that length is the term,
      and with one the term ends where the run ends and is that length
      times the factor the run computes from 1/1 (exactly, when no int16
      overflows: `ThenProductValue`). */
  ghost predicate TermMeaning(s: string, i: nat, default: Rational)
  {
    var r := LengthTerm(s, i, default);
    var i1 := SkipWs(s, i);
    var number := if IsDigit(At(s, i1)) then LengthNumber(s, i1) else Ok(i1, default);
    r.Ok? ==>
      number.Ok? && number.value.den != 0
      && var i2 := SkipWs(s, number.next);
      (!IsModifier(At(s, i2)) ==> r == Ok(i2, number.value))
      && (IsModifier(At(s, i2)) ==>
            var m := Modifiers(s, i2, One);
            m.Ok? && r == Then(MulR(number.value, m.value), m.next))
  }

  lemma LengthTermShape(s: string, i: nat, default: Rational)
    requires default.den != 0
    ensures TermMeaning(s, i, default)
  {
    var i1 := SkipWs(s, i);
    var number := if IsDigit(At(s, i1)) then LengthNumber(s, i1) else Ok(i1, default);
    if number.Ok? {
      TermNumberValue(s, i1, default);
    }
  }

  /** The length a term that is read denotes. It starts with the default
      length when no digit follows, and otherwise with 1/n for the length
      code n spelt by the digit run. With no '.', '/' or '_' after it,
      that start is the term; with one, the term ends where the modifier
      run ends and, when the product fits in int16, its value is the
      start's times the run's factor from 1/1. */
  lemma LengthTermValue(s: string, i: nat, default: Rational)
    requires default.den != 0
    ensures var r := LengthTerm(s, i, default);
      var i1 := SkipWs(s, i);
      var digits := IsDigit(At(s, i1));
      var e := if digits then DigitsEnd(s, i1) else i1;
      var number := if digits then LengthNumber(s, i1) else Ok(i1, default);
      var i2 := SkipWs(s, e);
      var m := RunFactor(s, i2);
      r.Ok? ==>
        number.Ok? && number.next == e
        && (!digits ==> number.value == default)
        && (digits ==> e <= |s| && IsLengthCode(e - i1, Decimal(s, i1, e))
                       && number.value == Rational(1, Decimal(s, i1, e)))
        && var start := number.value;
        start.den != 0
        && (!IsModifier(At(s, i2)) ==> r == Ok(i2, start))
        && (IsModifier(At(s, i2)) ==>
              m.Ok? && r.next == m.next
              && (m.value.den != 0 && MulFits(start, m.value) ==>
                    r.value.den != 0 && Value(r.value) == ExactProduct(start, m.value)))
  {
    var i1 := SkipWs(s, i);
    var digits := IsDigit(At(s, i1));
    var e := if digits then DigitsEnd(s, i1) else i1;
    LengthTermShape(s, i, default);
    LengthNumberCodes(s, i1);
    var r := LengthTerm(s, i, default);
    var number := if digits then LengthNumber(s, i1) else Ok(i1, default);
    var m := RunFactor(s, SkipWs(s, e));
    if r.Ok? && IsModifier(At(s, SkipWs(s, e))) && m.value.den != 0 && MulFits(number.value, m.value) {
      ThenProductValue(number.value, m.value, m.next);
    }
  }

  /** The exact value of p times q. */
  ghost function ExactProduct(p: Rational, q: Rational): real
    requires p.den != 0 && q.den != 0
  {
    Value(p) * Value(q)
  }

  /** A product that fits is a length with the exact product value. */
  lemma ThenProductValue(p: Rational, q: Rational, next: nat)
    requires p.den != 0 && q.den != 0 && MulFits(p, q)
    ensures var r := Then(MulR(p, q), next);
      r.Ok? && r.next == next && r.value.den != 0 && Value(r.value) == ExactProduct(p, q)
  {
    MulValue(p, q);
  }

  /** Characters that start a length expression. */
  function StartsLength(c: char): bool
  {
    c == '.' || c == '_' || c == '/' || c == '*' || IsDigit(c)
  }

  /** `checkNoteLength`: without a length expression the default length,
      unchanged; otherwise 0/1 plus the first term, then more terms added
      after '+' or subtracted after '-'. */
  function NoteLength(s: string, i: nat, default: Rational): (r: Parsed<Rational>)
    ensures r.Ok? ==> i <= r.next
  {
    var i1 := SkipWs(s, i);
    if !StartsLength(At(s, i1)) then Ok(i1, default)
    else
      var t := LengthTerm(s, i1, default);
      if !t.Ok? then t
      else
        var acc := Add(Rational(0, 1), t.value);
        if acc.None? then Trap else LengthSum(s, t.next, acc.value, default)
  }

  /** One turn of the `for(;;)` loop of `checkNoteLength`: the sum ends,
      or it goes on from a later index with a new accumulator. */
  datatype Turn = Ends(result: Parsed<Rational>) | GoesOn(next: nat, acc: Rational)

  /** The turn from index i: without a '+' or '-' the sum is `acc`; a
      failing term ends the sum with its failure; a sum that cannot be
      represented traps; otherwise the term is added or subtracted. */
  function SumTurn(s: string, i: nat, acc: Rational, default: Rational): (t: Turn)
    ensures t.Ends? && t.result.Ok? ==> i <= t.result.next
    ensures t.GoesOn? ==> i < t.next
  {
    var i1 := SkipWs(s, i);
    var c := At(s, i1);
    if c != '+' && c != '-' then Ends(Ok(i1, acc)) else SignedTurn(s, i1, c == '+', acc, default)
  }

  /** The rest of a turn after a '+' (plus) or '-' at index j: the term
      after it, added or subtracted. */
  function SignedTurn(s: string, j: nat, plus: bool, acc: Rational, default: Rational): (t: Turn)
    ensures t.Ends? && t.result.Ok? ==> j < t.result.next
    ensures t.GoesOn? ==> j < t.next
  {
    var t := LengthTerm(s, j + 1, default);
    if !t.Ok? then Ends(t)
    else
      var acc' := if plus then Add(acc, t.value) else Sub(acc, t.value);
      if acc'.None? then Ends(Trap) else GoesOn(t.next, acc'.value)
  }

  /** The `for(;;)` loop of `checkNoteLength` from accumulator `acc`. */
  function LengthSum(s: string, i: nat, acc: Rational, default: Rational): (r: Parsed<Rational>)
    ensures r.Ok? ==> i <= r.next
    decreases |s| - i
  {
    match SumTurn(s, i, acc, default)
    case Ends(r) => r
    case GoesOn(j, acc') => LengthSum(s, j, acc', default)
  }

  /** The sum is decided by its first turn. */
  lemma SumUnfolds(s: string, i: nat, acc: Rational, default: Rational)
    ensures var t := SumTurn(s, i, acc, default);
      LengthSum(s, i, acc, default) == if t.Ends? then t.result else LengthSum(s, t.next, t.acc, default)
  {
  }

  /** The exact value of the sum loop from `acc`: each term after a '+'
      added and each term after a '-' subtracted, up to the first index
      without a sign. This and `ExactSumOn` only pass the sum on to
      `ExactSumAt`; they keep a proof about one turn from unfolding the
      terms after it. */
  function ExactSum(s: string, i: nat, acc: real, default: Rational): real
    decreases |s| - i, 2
  {
    ExactSumOn(s, i, acc, default)
  }

  function ExactSumOn(s: string, i: nat, acc: real, default: Rational): real
    decreases |s| - i, 1
  {
    ExactSumAt(s, i, acc, default)
  }

  /** The exact sum from index i: `acc` without a sign or a term read,
      otherwise the exact sum after the term with its value moved. */
  function ExactSumAt(s: string, i: nat, acc: real, default: Rational): real
    decreases |s| - i, 0
  {
    var i1 := SkipWs(s, i);
    var c := At(s, i1);
    if c != '+' && c != '-' then acc
    else
      var t := LengthTerm(s, i1 + 1, default);
      if !t.Ok? || t.value.den == 0 then acc
      else ExactSum(s, t.next, if c == '+' then acc + Value(t.value) else acc - Value(t.value), default)
  }

  /** No addition or subtraction of the sum loop from `acc` overflows
      int16, and every term has a nonzero denominator. Like `ExactSum`,
      this passes on to `SumFitsAt` through `SumFitsOn`. */
  predicate SumFits(s: string, i: nat, acc: Rational, default: Rational)
    decreases |s| - i, 2
  {
    SumFitsOn(s, i, acc, default)
  }

  predicate SumFitsOn(s: string, i: nat, acc: Rational, default: Rational)
    decreases |s| - i, 1
  {
    SumFitsAt(s, i, acc, default)
  }

  /** The sum fits from index i: no sign or no term read, or the term's
      move of `acc` is representable and the sum fits after it. */
  predicate SumFitsAt(s: string, i: nat, acc: Rational, default: Rational)
    decreases |s| - i, 0
  {
    var i1 := SkipWs(s, i);
    var c := At(s, i1);
    (c != '+' && c != '-')
    || var t := LengthTerm(s, i1 + 1, default);
       !t.Ok?
       || (t.value.den != 0
           && (if c == '+' then AddFits(acc, t.value) else SubFits(acc, t.value))
           && var acc' := if c == '+' then Add(acc, t.value) else Sub(acc, t.value);
              acc'.Some? && SumFits(s, t.next, acc'.value, default))
  }

  /** Without overflow the sum loop computes the signed sum of its terms. */
  lemma {:induction false} LengthSumValue(s: string, i: nat, acc: Rational, default: Rational)
    requires acc.den != 0 && SumFits(s, i, acc, default) && LengthSum(s, i, acc, default).Ok?
    ensures LengthSum(s, i, acc, default).value.den != 0
    ensures Value(LengthSum(s, i, acc, default).value) == ExactSum(s, i, Value(acc), default)
    decreases |s| - i
  {
    var turn := SumTurn(s, i, acc, default);
    SumUnfolds(s, i, acc, default);
    if turn.GoesOn? {
      TurnGoesOnValue(s, i, acc, default);
      LengthSumValue(s, turn.next, turn.acc, default);
    } else {
      TurnEndsValue(s, i, acc, default);
    }
  }

  /** A turn that ends the sum with a length ends it with the accumulator,
      which is also the exact sum from there. */
  lemma TurnEndsValue(s: string, i: nat, acc: Rational, default: Rational)
    requires SumTurn(s, i, acc, default).Ends? && SumTurn(s, i, acc, default).result.Ok?
    ensures SumTurn(s, i, acc, default).result.value == acc
    ensures acc.den != 0 ==> ExactSum(s, i, Value(acc), default) == Value(acc)
  {
    var i1 := SkipWs(s, i);
    var c := At(s, i1);
    if c == '+' || c == '-' {
      SignedTurnMeaning(s, i1, c == '+', acc, default);
    }
    if acc.den != 0 {
      assert ExactSum(s, i, Value(acc), default) == ExactSumOn(s, i, Value(acc), default)
        == ExactSumAt(s, i, Value(acc), default);
    }
  }

  /** A turn of a sum that fits which goes on moves the accumulator's value
      by exactly the term it read, as the exact sum does, and the rest of
      the sum still fits. */
  lemma TurnGoesOnValue(s: string, i: nat, acc: Rational, default: Rational)
    requires acc.den != 0 && SumFits(s, i, acc, default) && SumTurn(s, i, acc, default).GoesOn?
    ensures var turn := SumTurn(s, i, acc, default);
      turn.acc.den != 0 && SumFits(s, turn.next, turn.acc, default)
      && ExactSum(s, i, Value(acc), default) == ExactSum(s, turn.next, Value(turn.acc), default)
  {
    var turn := SumTurn(s, i, acc, default);
    var i1 := SkipWs(s, i);
    var plus := At(s, i1) == '+';
    var t := LengthTerm(s, i1 + 1, default);
    assert SumFits(s, i, acc, default) == SumFitsOn(s, i, acc, default) == SumFitsAt(s, i, acc, default);
    SignedTurnMeaning(s, i1, plus, acc, default);
    assert t.Ok? && t.value.den != 0 && turn.next == t.next;
    var v := Value(acc);
    var v' := if plus then v + Value(t.value) else v - Value(t.value);
    assert turn.acc.den != 0 && Value(turn.acc) == v' && SumFits(s, turn.next, turn.acc, default) by {
      if plus {
        AddValue(acc, t.value);
      } else {
        SubValue(acc, t.value);
      }
    }
    ExactSumStep(s, i, v, default);
  }

  /** After a sign, the exact sum moves its value by the term it reads. */
  lemma ExactSumStep(s: string, i: nat, v: real, default: Rational)
    requires At(s, SkipWs(s, i)) in {'+', '-'}
    requires LengthTerm(s, SkipWs(s, i) + 1, default).Ok? && LengthTerm(s, SkipWs(s, i) + 1, default).value.den != 0
    ensures var t := LengthTerm(s, SkipWs(s, i) + 1, default);
      ExactSum(s, i, v, default)
      == ExactSum(s, t.next, if At(s, SkipWs(s, i)) == '+' then v + Value(t.value) else v - Value(t.value), default)
  {
    assert ExactSum(s, i, v, default) == ExactSumOn(s, i, v, default) == ExactSumAt(s, i, v, default);
  }

  /** A turn after a sign goes on exactly when its term is read and the
      moved accumulator is representable, and then from the end of the
      term with that accumulator; otherwise it ends the sum without a
      length. */
  lemma SignedTurnMeaning(s: string, j: nat, plus: bool, acc: Rational, default: Rational)
    ensures var turn := SignedTurn(s, j, plus, acc, default);
      var t := LengthTerm(s, j + 1, default);
      (turn.GoesOn? <==> t.Ok? && (if plus then Add(acc, t.value) else Sub(acc, t.value)).Some?)
      && (turn.GoesOn? ==> turn.next == t.next && Some(turn.acc) == (if plus then Add(acc, t.value) else Sub(acc, t.value)))
      && (turn.Ends? ==> !turn.result.Ok?)
  {
  }

  /** Without overflow a note length is the default when no length
      expression follows, and otherwise its first term plus the signed sum
      of the terms after it. */
  lemma NoteLengthValue(s: string, i: nat, default: Rational)
    requires default.den != 0 && NoteLength(s, i, default).Ok?
    ensures var r := NoteLength(s, i, default);
      var i1 := SkipWs(s, i);
      (!StartsLength(At(s, i1)) ==> r == Ok(i1, default))
      && (StartsLength(At(s, i1)) ==>
            var t := LengthTerm(s, i1, default);
            t.Ok? && Add(Rational(0, 1), t.value).Some?
            && (t.value.den != 0 && Narrow(t.value.num) && Narrow(t.value.den)
                && SumFits(s, t.next, Add(Rational(0, 1), t.value).value, default) ==>
                  r.value.den != 0 && Value(r.value) == ExactSum(s, t.next, Value(t.value), default)))
  {
    var i1 := SkipWs(s, i);
    if StartsLength(At(s, i1)) {
      var t := LengthTerm(s, i1, default);
      var zero := Rational(0, 1);
      if t.value.den != 0 && Narrow(t.value.num) && Narrow(t.value.den)
         && SumFits(s, t.next, Add(zero, t.value).value, default) {
        assert AddFits(zero, t.value);
        AddValue(zero, t.value);
        assert Value(zero) == 0.0;
        LengthSumValue(s, t.next, Add(zero, t.value).value, default);
      }
    }
  }

  /** The source's loop for `checkNoteLength`. */
  method CheckNoteLength(s: string, start: nat, default: Rational) returns (r: Parsed<Rational>)
    ensures r == NoteLength(s, start, default)
  {
    var i := SkipWhiteSpace(s, start);
    if !StartsLength(At(s, i)) {
      return Ok(i, default);
    }
    var t := LengthTerm(s, i, default);
    if !t.Ok? {
      return t;
    }
    var acc := Add(Rational(0, 1), t.value);
    if acc.None? {
      return Trap;
    }
    var length := acc.value;
    i := t.next;
    while true
      invariant LengthSum(s, i, length, default) == NoteLength(s, start, default)
      decreases |s| - i
    {
      var turn := SumStep(s, i, length, default);
      SumUnfolds(s, i, length, default);
      if turn.Ends? {
        return turn.result;
      }
      i, length := turn.next, turn.acc;
    }
  }

  /** One turn of the `checkNoteLength` loop, as `SumTurn` describes it. */
  method SumStep(s: string, i: nat, acc: Rational, default: Rational) returns (t: Turn)
    ensures t == SumTurn(s, i, acc, default)
  {
    var j := SkipWhiteSpace(s, i);
    var c := At(s, j);
    if c != '+' && c != '-' {
      return Ends(Ok(j, acc));
    }
    t := SignedStep(s, j, c == '+', acc, default);
  }

  /** The term after a '+' or '-' and the sum it gives, as `SignedTurn`
      describes it. */
  method SignedStep(s: string, j: nat, plus: bool, acc: Rational, default: Rational) returns (t: Turn)
    ensures t == SignedTurn(s, j, plus, acc, default)
  {
    var term := LengthTerm(s, j + 1, default);
    if !term.Ok? {
      return Ends(term);
    }
    var sum := if plus then Add(acc, term.value) else Sub(acc, term.value);
    if sum.None? {
      return Ends(Trap);
    }
    return GoesOn(term.next, sum.value);
  }

  /** An empty length expression yields the default length exactly as
      given, without reduction. */
  lemma EmptyLengthIsDefault(s: string, i: nat, default: Rational)
    requires !StartsLength(At(s, SkipWs(s, i)))
    ensures NoteLength(s, i, default) == Ok(SkipWs(s, i), default)
  {
  }
}
