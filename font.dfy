/** The 8x8 bitmap font: characters and strings drawn dot by dot into the
    framebuffer, in the font registered with `t2kFontInit` or, without
    one, as a hollow square. */
module Font {
  import opened Ints
  import opened Wrappers
  import opened MmlText
  import opened GCore

  /** One glyph of a font: eight rows, the leftmost dot in the top bit. */
  datatype Glyph = Glyph(pattern: seq<bv8>)

  /** The number of glyphs a font holds: ' ' to 0x7F. */
  const NumOfGlyphs := 96

  /** The rows of a glyph and the columns of each row. */
  const GlyphSize := 8

  /** The pattern drawn when no font is registered. */
  const SquarePattern: seq<bv8> := [0xFF, 0x81, 0x81, 0x81, 0x81, 0x81, 0x81, 0xFF]

  /** A font `t2kPutChar` can index: a glyph for every index it computes,
      each of eight rows. */
  predicate FontOk(font: Option<seq<Glyph>>)
  {
    font.Some? ==> |font.value| >= NumOfGlyphs && forall k :: 0 <= k < |font.value| ==> |font.value[k].pattern| == 8
  }

  /** The glyph index of a character: its offset from ' ', and the glyph
      of 0x7F for anything below ' ' or above 0x7F. */
  function GlyphIndex(ch: char): (k: nat)
    ensures k < NumOfGlyphs
    ensures ' ' as int <= ch as int <= 0x7F ==> k == ch as int - ' ' as int
    ensures !(' ' as int <= ch as int <= 0x7F) ==> k == NumOfGlyphs - 1
  {
    if ch < ' ' || 0x7F < ch as int then 0x7F - ' ' as int else ch as int - ' ' as int
  }

  /** The pattern `t2kPutChar` draws for ch. */
  function CharPattern(font: Option<seq<Glyph>>, ch: char): (p: seq<bv8>)
    requires FontOk(font)
    ensures |p| == 8
  {
    if font.None? then SquarePattern else font.value[GlyphIndex(ch)].pattern
  }

  /** The mask of each column: it starts at 0x80 and moves right one bit
      per column, to 0 after the last one. */
  const ColumnMasks: seq<bv8> := [0x80, 0x40, 0x20, 0x10, 0x08, 0x04, 0x02, 0x01, 0x00]

  lemma ColumnMaskShift(j: int)
    requires 0 <= j < 8
    ensures ColumnMasks[j] == 0x80 >> j && ColumnMasks[j + 1] == ColumnMasks[j] >> 1
  {
    if j == 0 {} else if j == 1 {} else if j == 2 {} else if j == 3 {}
    else if j == 4 {} else if j == 5 {} else if j == 6 {} else {}
  }

  /** The columns of a pattern row, left to right: whether the row has
      the bit of each column's mask set. */
  function RowBits(row: bv8): (bits: seq<bool>)
    ensures |bits| == GlyphSize
  {
    seq(GlyphSize, j requires 0 <= j < GlyphSize => row & ColumnMasks[j] != 0)
  }

  /** The set dots of columns [0, n) of a row drawn at (x, y). */
  function RowDots(x: int, y: int, c: Rgb332, bits: seq<bool>, n: nat): seq<Dot>
    requires n <= |bits|
  {
    if n == 0 then []
    else RowDots(x, y, c, bits, n - 1) + (if bits[n - 1] then [Dot(x + n - 1, y, c)] else [])
  }

  /** The rows of an eight-row pattern as columns. */
  function PatternBits(pattern: seq<bv8>): (rows: seq<seq<bool>>)
    requires |pattern| >= GlyphSize
    ensures |rows| == GlyphSize
  {
    seq(GlyphSize, i requires 0 <= i < GlyphSize => RowBits(pattern[i]))
  }

  /** The set dots of rows [0, n) of a pattern drawn with its top left
      corner at (x, y). */
  function PatternRows(x: int, y: int, c: Rgb332, rows: seq<seq<bool>>, n: nat): seq<Dot>
    requires n <= |rows|
  {
    if n == 0 then [] else PatternRows(x, y, c, rows, n - 1) + RowDots(x, y + n - 1, c, rows[n - 1], |rows[n - 1]|)
  }

  /** One more row appends its dots, one line down. */
  lemma PatternRowsStep(x: int, y: int, c: Rgb332, rows: seq<seq<bool>>, n: nat)
    requires n < |rows|
    ensures PatternRows(x, y, c, rows, n + 1) == PatternRows(x, y, c, rows, n) + RowDots(x, y + n, c, rows[n], |rows[n]|)
  {
  }

  /** Drawing one more row is drawing that row over the rows before it. */
  lemma DrawRowsStep(g0: seq<Rgb332>, g: seq<Rgb332>, g': seq<Rgb332>, x: int, y: int, c: Rgb332, pattern: seq<bv8>, n: nat)
    requires |g0| == GRamSize && |g| == GRamSize && n < GlyphSize <= |pattern|
    requires g == Draw(g0, PatternRows(x, y, c, PatternBits(pattern), n))
    requires g' == Draw(g, RowDots(x, y + n, c, RowBits(pattern[n]), GlyphSize))
    ensures g' == Draw(g0, PatternRows(x, y, c, PatternBits(pattern), n + 1))
  {
    var rows := PatternBits(pattern);
    assert rows[n] == RowBits(pattern[n]);
    PatternRowsStep(x, y, c, rows, n);
    DrawAppend(g0, PatternRows(x, y, c, rows, n), RowDots(x, y + n, c, rows[n], |rows[n]|));
  }

  /** The dots `t2kDrawFontPattern` writes for an eight-row pattern. */
  function PatternDots(x: int, y: int, c: Rgb332, pattern: seq<bv8>): seq<Dot>
    requires |pattern| >= GlyphSize
  {
    PatternRows(x, y, c, PatternBits(pattern), GlyphSize)
  }

  /** Whether column j is among the first n columns of a row and set. */
  predicate SetIn(bits: seq<bool>, n: int, j: int)
  {
    0 <= j < n && j < |bits| && bits[j]
  }

  lemma {:induction false} RowDotsColour(x: int, y: int, c: Rgb332, bits: seq<bool>, n: nat, px: int, py: int)
    requires n <= |bits|
    ensures ColourAt(RowDots(x, y, c, bits, n), px, py) == if py == y && SetIn(bits, n, px - x) then Some(c) else None
  {
    if n > 0 {
      var prefix := RowDots(x, y, c, bits, n - 1);
      var d := if bits[n - 1] then [Dot(x + n - 1, y, c)] else [];
      assert RowDots(x, y, c, bits, n) == prefix + d;
      RowDotsColour(x, y, c, bits, n - 1, px, py);
      ColourAtAppend(prefix, d, px, py);
      if bits[n - 1] {
        ColourAtSingle(Dot(x + n - 1, y, c), px, py);
      }
      if bits[n - 1] && px == x + n - 1 && py == y {
        assert SetIn(bits, n, px - x);
      } else {
        assert ColourAt(d, px, py) == None;
        assert py == y ==> SetIn(bits, n, px - x) == SetIn(bits, n - 1, px - x);
      }
    }
  }

  /** Whether row i is among the first n rows and has column j set. */
  predicate DotIn(rows: seq<seq<bool>>, n: int, i: int, j: int)
  {
    0 <= i < n && i < |rows| && SetIn(rows[i], |rows[i]|, j)
  }

  lemma {:induction false} PatternRowsColour(x: int, y: int, c: Rgb332, rows: seq<seq<bool>>, n: nat, px: int, py: int)
    requires n <= |rows|
    ensures ColourAt(PatternRows(x, y, c, rows, n), px, py) == if DotIn(rows, n, py - y, px - x) then Some(c) else None
  {
    if n > 0 {
      var last := RowDots(x, y + n - 1, c, rows[n - 1], |rows[n - 1]|);
      PatternRowsColour(x, y, c, rows, n - 1, px, py);
      RowDotsColour(x, y + n - 1, c, rows[n - 1], |rows[n - 1]|, px, py);
      ColourAtAppend(PatternRows(x, y, c, rows, n - 1), last, px, py);
    }
  }

  /** The dots of a pattern drawn at (x, y): one exactly where the pixel
      is in the 8x8 cell and the bit of its column is set in its row. */
  lemma PatternColour(x: int, y: int, c: Rgb332, pattern: seq<bv8>, px: int, py: int)
    requires |pattern| >= GlyphSize
    ensures ColourAt(PatternDots(x, y, c, pattern), px, py) ==
      if x <= px < x + 8 && y <= py < y + 8 && pattern[py - y] & (0x80 >> (px - x)) != 0 then Some(c) else None
  {
    PatternRowsColour(x, y, c, PatternBits(pattern), GlyphSize, px, py);
    if x <= px < x + 8 && y <= py < y + 8 {
      PatternBitsAt(pattern, py - y, px - x);
    }
  }

  lemma PatternBitsAt(pattern: seq<bv8>, i: int, j: int)
    requires |pattern| >= GlyphSize && 0 <= i < GlyphSize && 0 <= j < GlyphSize
    ensures DotIn(PatternBits(pattern), GlyphSize, i, j) == (pattern[i] & (0x80 >> j) != 0)
  {
    assert PatternBits(pattern)[i] == RowBits(pattern[i]);
    RowBitsMasks(pattern[i], j);
  }

  /** A pixel after a pattern is drawn at (x, y): the colour where the
      pattern has a dot, unchanged elsewhere. */
  lemma PatternPixels(g: seq<Rgb332>, x: int, y: int, c: Rgb332, pattern: seq<bv8>, px: int, py: int)
    requires |g| == GRamSize && |pattern| >= GlyphSize && IsValidXY(px, py)
    ensures Draw(g, PatternDots(x, y, c, pattern))[FBA(px, py)] ==
      if x <= px < x + 8 && y <= py < y + 8 && pattern[py - y] & (0x80 >> (px - x)) != 0 then c else g[FBA(px, py)]
  {
    DrawPixel(g, PatternDots(x, y, c, pattern), px, py);
    PatternColour(x, y, c, pattern, px, py);
  }

  lemma RowBitsMasks(row: bv8, j: int)
    requires 0 <= j < GlyphSize
    ensures RowBits(row)[j] == (row & (0x80 >> j) != 0)
  {
    ColumnMaskShift(j);
  }

  /** Without a font every character is the hollow square: the border of
      the 8x8 cell, its inside untouched. */
  lemma SquareOutline(x: int, y: int, c: Rgb332, px: int, py: int)
    requires x <= px < x + 8 && y <= py < y + 8
    ensures ColourAt(PatternDots(x, y, c, SquarePattern), px, py).Some? <==>
      px == x || px == x + 7 || py == y || py == y + 7
  {
    PatternRowsColour(x, y, c, PatternBits(SquarePattern), GlyphSize, px, py);
    var i, j := py - y, px - x;
    SquareBits();
    assert SquarePattern[i] == if i == 0 || i == 7 then 0xFF else 0x81;
  }

  lemma SquareBits()
    ensures RowBits(0xFF) == [true, true, true, true, true, true, true, true]
    ensures RowBits(0x81) == [true, false, false, false, false, false, false, true]
  {
  }

  /** The dots `t2kPutChar` writes for ch at (x, y). */
  function CharDots(font: Option<seq<Glyph>>, x: int, y: int, c: Rgb332, ch: char): seq<Dot>
    requires FontOk(font)
  {
    PatternDots(x, y, c, CharPattern(font, ch))
  }

  /** The dots `t2kPutStr` writes for the first n characters of s: one
      character cell every eight columns from x. */
  function StrDots(font: Option<seq<Glyph>>, x: int, y: int, c: Rgb332, s: string, n: nat): seq<Dot>
    requires FontOk(font) && n <= |s|
  {
    if n == 0 then [] else StrDots(font, x, y, c, s, n - 1) + CharDots(font, x + 8 * (n - 1), y, c, s[n - 1])
  }

  /** One more character appends its dots, eight columns on. */
  lemma StrDotsStep(font: Option<seq<Glyph>>, x: int, y: int, c: Rgb332, s: string, n: nat)
    requires FontOk(font) && n < |s|
    ensures StrDots(font, x, y, c, s, n + 1) == StrDots(font, x, y, c, s, n) + CharDots(font, x + 8 * n, y, c, s[n])
  {
  }

  /** The column `t2kPrintf` without an x starts at for a text of len
      characters: for a text that fits, the margins left and right of it
      are equal. */
  function CentredX(len: int): (x: int)
    ensures 0 <= len <= 20 ==> 0 <= x && x == GRamWidth - (x + 8 * len)
  {
    if 0 <= len <= 20 then HalfOfEven(80 - 4 * len); TruncDiv(GRamWidth - len * 8, 2)
    else TruncDiv(GRamWidth - len * 8, 2)
  }

  /** A text of at most twenty characters is centred exactly, with equal
      margins on both sides; a longer one starts left of the screen. */
  lemma CentredXMargins(len: nat)
    ensures CentredX(len) == 80 - 4 * len
    ensures len <= 20 ==> 0 <= CentredX(len) && CentredX(len) == GRamWidth - (CentredX(len) + 8 * len)
    ensures len > 20 ==> CentredX(len) < 0
  {
    if len <= 20 {
      HalfOfEven(80 - 4 * len);
    } else {
      HalfOfEven(4 * len - 80);
    }
  }

  lemma {:induction false} HalfOfEven(q: nat)
    ensures NatDiv(2 * q, 2) == q
  {
    if q > 0 {
      HalfOfEven(q - 1);
    }
  }

  // ----------------------------------------------------------- the state

  /** The font of `t2kFont.cpp`: the one registered last, or none. */
  class FontState {
    var font: Option<seq<Glyph>>

    /** No font: `gFont` starts as NULL. */
    constructor ()
      ensures font == None
    {
      font := None;
    }

    /** `t2kFontInit`: registers the font and always succeeds. */
    method FontInit(f: Option<seq<Glyph>>) returns (ok: bool)
      modifies this
      ensures font == f && ok
    {
      font := f;
      ok := true;
    }

    /** `t2kPutChar`: the glyph of ch, or the hollow square without a font,
        at (x, y). Its loops are those of `t2kDrawFontPattern`. */
    method PutChar(gram: array<Rgb332>, x: int, y: int, c: Rgb332, ch: char)
      requires gram.Length == GRamSize && FontOk(font)
      modifies gram
      ensures gram[..] == Draw(old(gram[..]), CharDots(font, x, y, c, ch))
    {
      var pattern := if font.None? then SquarePattern else font.value[GlyphIndex(ch)].pattern;
      DrawFontPattern(gram, x, y, c, pattern);
    }

    /** `t2kPutStr`: the characters of s before its terminator, eight
        columns apart. */
    method PutStr(gram: array<Rgb332>, x: int, y: int, c: Rgb332, s: string)
      requires gram.Length == GRamSize && FontOk(font)
      modifies gram
      ensures gram[..] == Draw(old(gram[..]), StrDots(font, x, y, c, s, StrLen(s)))
    {
      ghost var g0 := gram[..];
      var cx := x;
      var i := 0;
      while At(s, i) != '\0'
        invariant 0 <= i <= StrLen(s) && cx == x + 8 * i
        invariant gram[..] == Draw(g0, StrDots(font, x, y, c, s, i))
        decreases |s| - i
      {
        assert i < StrLen(s) by {
          AtTerminator(s);
        }
        ghost var before := StrDots(font, x, y, c, s, i);
        ghost var dots := CharDots(font, cx, y, c, s[i]);
        PutChar(gram, cx, y, c, s[i]);
        DrawAppend(g0, before, dots);
        StrDotsStep(font, x, y, c, s, i);
        i := i + 1;
        cx := cx + 8;
      }
    }

    /** `t2kPrintf` at (x, y), for the text vsprintf formatted, which must
        fit the 256-byte buffer with its terminator. */
    method Printf(gram: array<Rgb332>, x: int, y: int, c: Rgb332, text: string)
      requires gram.Length == GRamSize && FontOk(font) && StrLen(text) < 256
      modifies gram
      ensures gram[..] == Draw(old(gram[..]), StrDots(font, x, y, c, text, StrLen(text)))
    {
      PutStr(gram, x, y, c, text);
    }

    /** `t2kPrintf` without an x: the text centred on the screen. */
    method PrintfCentred(gram: array<Rgb332>, y: int, c: Rgb332, text: string)
      requires gram.Length == GRamSize && FontOk(font) && StrLen(text) < 256
      modifies gram
      ensures gram[..] == Draw(old(gram[..]), StrDots(font, CentredX(StrLen(text)), y, c, text, StrLen(text)))
    {
      var len := StrLen(text);
      var x := TruncDiv(GRamWidth - len * 8, 2);
      PutStr(gram, x, y, c, text);
    }
  }

  /** `t2kDrawFontPattern`: the set bits of an eight-row pattern, rows off
      screen skipped whole and columns off screen one by one. */
  method DrawFontPattern(gram: array<Rgb332>, x: int, y: int, c: Rgb332, pattern: seq<bv8>)
    requires gram.Length == GRamSize && |pattern| >= GlyphSize
    modifies gram
    ensures gram[..] == Draw(old(gram[..]), PatternDots(x, y, c, pattern))
  {
    ghost var g0 := gram[..];
    var ye := y + 8;
    var cy := y;
    var i := 0;
    while cy < ye
      invariant 0 <= i <= 8 && cy == y + i
      invariant gram[..] == Draw(g0, PatternRows(x, y, c, PatternBits(pattern), i))
    {
      ghost var mid := gram[..];
      PatternRow(gram, x, cy, c, pattern[i]);
      DrawRowsStep(g0, mid, gram[..], x, y, c, pattern, i);
      cy := cy + 1;
      i := i + 1;
    }
    assert i == GlyphSize;
  }

  lemma {:induction false} RowDotsRow(x: int, y: int, c: Rgb332, bits: seq<bool>, n: nat, d: Dot)
    requires n <= |bits| && d in RowDots(x, y, c, bits, n)
    ensures d.y == y
  {
    if n > 0 && d in RowDots(x, y, c, bits, n - 1) {
      RowDotsRow(x, y, c, bits, n - 1, d);
    }
  }

  /** One pattern row of `t2kDrawFontPattern`: nothing for a row off
      screen; otherwise the mask walks the row from the top bit, and only
      set bits on screen are written. */
  method PatternRow(gram: array<Rgb332>, x: int, y: int, c: Rgb332, dots: bv8)
    requires gram.Length == GRamSize
    modifies gram
    ensures gram[..] == Draw(old(gram[..]), RowDots(x, y, c, RowBits(dots), GlyphSize))
  {
    ghost var g0 := gram[..];
    ghost var bits := RowBits(dots);
    if y < 0 || 120 <= y {
      forall d | d in RowDots(x, y, c, bits, GlyphSize)
        ensures !IsValidXY(d.x, d.y)
      {
        RowDotsRow(x, y, c, bits, GlyphSize, d);
      }
      DrawOffScreen(g0, [], RowDots(x, y, c, bits, GlyphSize));
      assert [] + RowDots(x, y, c, bits, GlyphSize) == RowDots(x, y, c, bits, GlyphSize);
      return;
    }
    var mask: bv8 := 0x80;
    var xe := x + 8;
    var cx := x;
    ghost var j := 0;
    while cx < xe
      invariant 0 <= j <= 8 && cx == x + j
      invariant mask == ColumnMasks[j]
      invariant gram[..] == Draw(g0, RowDots(x, y, c, bits, j))
    {
      ghost var before := RowDots(x, y, c, bits, j);
      ghost var isSet := bits[j];
      assert isSet == (dots & mask != 0);
      if cx < 0 || 160 <= cx {
        if isSet {
          DrawSnoc(g0, before, Dot(cx, y, c));
        } else {
          assert before + [] == before;
        }
      } else if dots & mask == 0 {
        assert before + [] == before;
      } else {
        PutDot(gram, g0, before, Dot(cx, y, c));
      }
      ColumnMaskShift(j);
      cx := cx + 1;
      mask := mask >> 1;
      j := j + 1;
    }
  }
}
