/** Character-level helpers of the MML parser: reading a C string past its
    end, white space, digit runs, integers and decimal numbers. Each helper
    takes an index into the text and returns the index after what it read;
    none of them can fail. */
module MmlText {

  /** What a parser returns: the index after what it read and the value it
      read; a failure (the source returns -1); or a trap, a division by zero
      inside a rational reduction, which stops the program on the target. */
  datatype Parsed<T> = Ok(next: nat, value: T) | Fail | Trap

  /** `s[i]` of a NUL-terminated C string: the terminator and whatever a
      reader sees past it is modelled as '\0'. */
  function At(s: string, i: int): (c: char)
    ensures c != '\0' ==> 0 <= i < |s| && s[i] == c
  {
    if 0 <= i < |s| then s[i] else '\0'
  }

  /** The length `strlen` reports: the index of the first NUL, or |s|. */
  function StrLen(s: string): (n: nat)
    ensures n <= |s|
    ensures forall k :: 0 <= k < n ==> s[k] != '\0'
    ensures n < |s| ==> s[n] == '\0'
  {
    if |s| == 0 || s[0] == '\0' then 0 else 1 + StrLen(s[1..])
  }

  /** Space, tab, line feed or carriage return: C's blanks, none of them
      the terminator. */
  predicate IsWhiteSpace(c: char)
    ensures IsWhiteSpace(c) ==> c != '\0' && c as int <= 0x20
  {
    c == ' ' || c == '\t' || c == '\n' || c == '\r'
  }

  predicate IsDigit(c: char)
  {
    '0' <= c <= '9'
  }

  function DigitOf(c: char): nat
    requires IsDigit(c)
  {
    (c as int - '0' as int) as nat
  }

  /** The seven note letters in either case; a lower-case letter lies 0x20
      above its upper-case one. */
  predicate IsNoteCommand(c: char)
    ensures IsNoteCommand(c) ==> 0 <= (c as int - 'A' as int) % 0x20 < 7
  {
    ('A' <= c <= 'G') || ('a' <= c <= 'g')
  }

  /** The characters that may start a command. */
  predicate IsMmlCommand(c: char)
    ensures IsMmlCommand(c) ==> 0x21 <= c as int < 0x7F
  {
    IsNoteCommand(c)
    || c in {'%', 'R', 'r', 'O', 'o', '<', '>', 'L', 'l', 'V', 'v', 'N', 'n', 'T', 't', '@', '|', '!', '&', '$'}
  }

  /** No command starts with the terminator, white space or a digit, and
      every note letter starts one. */
  lemma CommandNotBlank(c: char)
    ensures IsMmlCommand(c) ==> c != '\0' && !IsWhiteSpace(c) && !IsDigit(c)
    ensures IsNoteCommand(c) ==> IsMmlCommand(c)
  {
  }

  /** Reading a C string: every index before `strlen` is a character, the
      index `strlen` is the terminator, and so is every index outside. */
  lemma AtTerminator(s: string)
    ensures At(s, StrLen(s)) == '\0'
    ensures forall k :: 0 <= k < StrLen(s) ==> At(s, k) != '\0'
    ensures forall k :: (k < 0 || |s| <= k) ==> At(s, k) == '\0'
  {
  }

  // ---------------------------------------------------------------- white space

  /** The first index at or after i, below |s|, that is not white space;
      |s| when the rest is all white space; i itself when i >= |s|. */
  function SkipWs(s: string, i: nat): (j: nat)
    ensures i <= j
    ensures i <= |s| ==> j <= |s|
    ensures i >= |s| ==> j == i
    ensures j < |s| ==> !IsWhiteSpace(s[j])
    decreases |s| - i
  {
    if i < |s| && IsWhiteSpace(s[i]) then SkipWs(s, i + 1) else i
  }

  /** Everything skipped is white space. */
  lemma {:induction false} SkipWsSkipsSpaces(s: string, i: nat)
    ensures forall k :: i <= k < SkipWs(s, i) ==> IsWhiteSpace(s[k])
    decreases |s| - i
  {
    if i < |s| && IsWhiteSpace(s[i]) {
      SkipWsSkipsSpaces(s, i + 1);
    }
  }

  /** `skipWhiteSpace`: the source's loop. */
  method SkipWhiteSpace(s: string, start: nat) returns (i: nat)
    ensures i == SkipWs(s, start)
  {
    i := start;
    while i < |s|
      invariant start <= i
      invariant SkipWs(s, i) == SkipWs(s, start)
      decreases |s| - i
    {
      if !IsWhiteSpace(s[i]) {
        break;
      }
      i := i + 1;
    }
  }

  /** Skipping twice skips nothing more. */
  lemma SkipWsIdempotent(s: string, i: nat)
    ensures SkipWs(s, SkipWs(s, i)) == SkipWs(s, i)
  {
  }

  // ---------------------------------------------------------------- digits

  /** The end of the maximal run of digits starting at i. The terminator
      ends every run, so runs never pass |s|. */
  function DigitsEnd(s: string, i: nat): (j: nat)
    ensures i <= j
    ensures i <= |s| ==> j <= |s|
    ensures i >= |s| ==> j == i
    ensures forall k :: i <= k < j ==> IsDigit(s[k])
    ensures !IsDigit(At(s, j))
    decreases |s| - i
  {
    if IsDigit(At(s, i)) then DigitsEnd(s, i + 1) else i
  }

  /** The decimal value of the digits s[i..j], accumulated left to right. */
  function Decimal(s: string, i: nat, j: nat): nat
    requires i <= j <= |s|
    requires forall k :: i <= k < j ==> IsDigit(s[k])
    decreases j
  {
    if j == i then 0 else Decimal(s, i, j - 1) * 10 + DigitOf(s[j - 1])
  }

  /** `checkInteger`: the digit run at i and its value; an empty run reads
      as 0 and the index does not move. */
  function ReadInteger(s: string, i: nat): (r: (nat, nat))
    ensures r.0 == DigitsEnd(s, i)
  {
    var j := DigitsEnd(s, i);
    if j == i then (i, 0) else (j, Decimal(s, i, j))
  }

  /** The source's loop for `checkInteger`. */
  method CheckInteger(s: string, start: nat) returns (i: nat, number: nat)
    ensures (i, number) == ReadInteger(s, start)
  {
    i := start;
    number := 0;
    while IsDigit(At(s, i))
      invariant start <= i <= |s| || i == start
      invariant i == start || forall k :: start <= k < i ==> IsDigit(s[k])
      invariant DigitsEnd(s, i) == DigitsEnd(s, start)
      invariant i > start ==> number == Decimal(s, start, i)
      invariant i == start ==> number == 0
      decreases |s| - i
    {
      number := number * 10 + DigitOf(s[i]);
      i := i + 1;
    }
    assert DigitsEnd(s, i) == i;
  }

  /** A digit run of length one reads as that digit. */
  lemma ReadSingleDigit(s: string, i: nat)
    requires IsDigit(At(s, i)) && !IsDigit(At(s, i + 1))
    ensures ReadInteger(s, i) == (i + 1, DigitOf(s[i]))
  {
    assert DigitsEnd(s, i + 1) == i + 1;
    assert Decimal(s, i, i + 1) == Decimal(s, i, i) * 10 + DigitOf(s[i]);
  }

  // ---------------------------------------------------------------- numbers

  function Tenth(k: nat): real
  {
    if k == 0 then 1.0 else Tenth(k - 1) / 10.0
  }

  /** The digits s[i..j] read as a fraction 0.d1d2..., accumulated left to
      right as the source's loop does. */
  function Fraction(s: string, i: nat, j: nat): real
    requires i <= j <= |s|
    requires forall k :: i <= k < j ==> IsDigit(s[k])
    decreases j
  {
    if j == i then 0.0 else Fraction(s, i, j - 1) + DigitOf(s[j - 1]) as real * Tenth(j - i)
  }

  /** `checkNumber`: an integer part, optionally followed by '.' and a
      fraction, read exactly. */
  function ReadNumber(s: string, i: nat): (r: (nat, real))
    ensures r.0 >= i
  {
    var e := DigitsEnd(s, i);
    var whole := if e == i then 0 else Decimal(s, i, e);
    if At(s, e) != '.' then (e, whole as real)
    else
      var f := DigitsEnd(s, e + 1);
      (f, whole as real + (if f == e + 1 then 0.0 else Fraction(s, e + 1, f)))
  }

  /** The source's two loops for `checkNumber`: `checkInteger`, then the
      fraction loop of `FractionDigits` after a '.'. */
  method CheckNumber(s: string, start: nat) returns (i: nat, number: real)
    ensures (i, number) == ReadNumber(s, start)
  {
    var whole: nat;
    i, whole := CheckInteger(s, start);
    number := whole as real;
    if At(s, i) == '.' {
      var frac;
      i, frac := FractionDigits(s, i + 1);
      number := number + frac;
    }
  }

  /** The fraction loop of `checkNumber`: each digit is weighted by a scale
      that is divided by ten before it is used. */
  method FractionDigits(s: string, first: nat) returns (i: nat, frac: real)
    ensures i == DigitsEnd(s, first)
    ensures frac == if i == first then 0.0 else Fraction(s, first, i)
  {
    i := first;
    frac := 0.0;
    var scale := 1.0;
    while IsDigit(At(s, i))
      invariant first <= i && (i == first || i <= |s|)
      invariant forall k :: first <= k < i ==> IsDigit(s[k])
      invariant DigitsEnd(s, i) == DigitsEnd(s, first)
      invariant scale == Tenth(i - first)
      invariant frac == if i == first then 0.0 else Fraction(s, first, i)
      decreases |s| - i
    {
      FractionStep(s, first, i);
      scale := scale / 10.0;
      frac := frac + DigitOf(s[i]) as real * scale;
      i := i + 1;
    }
  }

  /** One more digit adds its weight at the next decimal place. */
  lemma FractionStep(s: string, i: nat, j: nat)
    requires i <= j < |s|
    requires forall k :: i <= k <= j ==> IsDigit(s[k])
    ensures Tenth(j + 1 - i) == Tenth(j - i) / 10.0
    ensures Fraction(s, i, j + 1)
            == (if j == i then 0.0 else Fraction(s, i, j)) + DigitOf(s[j]) as real * Tenth(j + 1 - i)
  {
  }

  lemma {:induction false} TenthPositive(k: nat)
    ensures 0.0 < Tenth(k) <= 1.0
  {
    if k > 0 {
      TenthPositive(k - 1);
    }
  }

  /** The fractional part of a number lies in [0, 1): the digits after k
      places add up to less than 10^-k. */
  lemma {:induction false} FractionBounds(s: string, i: nat, j: nat)
    requires i <= j <= |s|
    requires forall k :: i <= k < j ==> IsDigit(s[k])
    ensures 0.0 <= Fraction(s, i, j) <= 1.0 - Tenth(j - i)
    decreases j
  {
    if j > i {
      FractionBounds(s, i, j - 1);
      TenthPositive(j - 1 - i);
      assert Tenth(j - i) == Tenth(j - 1 - i) / 10.0;
      var d := DigitOf(s[j - 1]) as real;
      var t := Tenth(j - i);
      assert 0.0 <= d <= 9.0 && t > 0.0;
      assert d * t <= 9.0 * t;
      assert 0.0 <= d * t;
      assert Fraction(s, i, j) == Fraction(s, i, j - 1) + d * t;
      assert 1.0 - Tenth(j - 1 - i) + 9.0 * t == 1.0 - t;
    }
  }

  /** A number without a point reads as its integer. */
  lemma ReadNumberInteger(s: string, i: nat)
    requires At(s, DigitsEnd(s, i)) != '.'
    ensures ReadNumber(s, i) == (ReadInteger(s, i).0, ReadInteger(s, i).1 as real)
  {
  }
}
