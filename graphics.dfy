/** Shapes drawn into the framebuffer: clipped filled and outlined
    rectangles and integer Bresenham lines. Each drawing method is given
    the draw buffer `t2kGetFramebuffer` returns and is specified by the
    run of dots it plots, in the order the source writes them. */
module Graphics {
  import opened Ints
  import opened Wrappers
  import opened GCore

  function Min(a: int, b: int): int { if a < b then a else b }
  function Max(a: int, b: int): int { if a < b then b else a }

  // ------------------------------------------------------------ rectangles

  /** The visible columns [left, right) and rows [top, bottom) of a
      rectangle call. */
  datatype Box = Box(left: int, top: int, right: int, bottom: int)

  /** The clipping `t2kFillRect` and `t2kDrawRect` share: nothing when the
      rectangle starts right of or below the screen, or ends left of or
      above it; otherwise the rectangle cut to the screen. */
  function ClipRect(x: int, y: int, w: int, h: int): (b: Option<Box>)
    ensures b.Some? ==> 0 <= b.value.left && b.value.right <= GRamWidth && 0 <= b.value.top && b.value.bottom <= GRamHeight
  {
    if GRamWidth <= x || GRamHeight <= y then None
    else
      var right, bottom := Min(x + w, GRamWidth), Min(y + h, GRamHeight);
      if right < 0 || bottom < 0 then None
      else Some(Box(Max(x, 0), Max(y, 0), right, bottom))
  }

  /** Pixels [l, r) of row y, left to right. */
  function RowDots(y: int, l: int, r: int, c: Rgb332): (ds: seq<Dot>)
    decreases r - l
  {
    if r <= l then [] else RowDots(y, l, r - 1, c) + [Dot(r - 1, y, c)]
  }

  /** Rows [t, n) of columns [l, r), top to bottom. */
  function RowsDots(t: int, n: int, l: int, r: int, c: Rgb332): (ds: seq<Dot>)
    decreases n - t
  {
    if n <= t then [] else RowsDots(t, n - 1, l, r, c) + RowDots(n - 1, l, r, c)
  }

  /** The dots `t2kFillRect` writes. */
  function FillRectDots(x: int, y: int, w: int, h: int, c: Rgb332): seq<Dot>
  {
    match ClipRect(x, y, w, h)
    case None => []
    case Some(b) => RowsDots(b.top, b.bottom, b.left, b.right, c)
  }

  lemma {:induction false} RowColour(y: int, l: int, r: int, c: Rgb332, px: int, py: int)
    ensures ColourAt(RowDots(y, l, r, c), px, py) == if py == y && l <= px < r then Some(c) else None
    decreases r - l
  {
    if l < r {
      ColourAtAppend(RowDots(y, l, r - 1, c), [Dot(r - 1, y, c)], px, py);
      RowColour(y, l, r - 1, c, px, py);
    }
  }

  lemma {:induction false} RowsColour(t: int, n: int, l: int, r: int, c: Rgb332, px: int, py: int)
    ensures ColourAt(RowsDots(t, n, l, r, c), px, py) == if t <= py < n && l <= px < r then Some(c) else None
    decreases n - t
  {
    if t < n {
      ColourAtAppend(RowsDots(t, n - 1, l, r, c), RowDots(n - 1, l, r, c), px, py);
      RowsColour(t, n - 1, l, r, c, px, py);
      RowColour(n - 1, l, r, c, px, py);
    }
  }

  /** `t2kFillRect` colours exactly the on-screen pixels of the rectangle
      [x, x + w) × [y, y + h): the early exits skip only rectangles with
      no pixel on screen. */
  lemma FillRectExact(x: int, y: int, w: int, h: int, c: Rgb332, px: int, py: int)
    requires IsValidXY(px, py)
    ensures ColourAt(FillRectDots(x, y, w, h, c), px, py) == if x <= px < x + w && y <= py < y + h then Some(c) else None
  {
    var b := ClipRect(x, y, w, h);
    if b.Some? {
      RowsColour(b.value.top, b.value.bottom, b.value.left, b.value.right, c, px, py);
    }
  }

  /** The pixels of the buffer after `t2kFillRect`: the colour inside the
      rectangle and on screen, the old value everywhere else. */
  lemma FillRectPixels(g: seq<Rgb332>, x: int, y: int, w: int, h: int, c: Rgb332, px: int, py: int)
    requires |g| == GRamSize && IsValidXY(px, py)
    ensures Draw(g, FillRectDots(x, y, w, h, c))[FBA(px, py)] == if x <= px < x + w && y <= py < y + h then c else g[FBA(px, py)]
  {
    DrawPixel(g, FillRectDots(x, y, w, h, c), px, py);
    FillRectExact(x, y, w, h, c, px, py);
  }

  /** `t2kFillRect`. */
  method FillRect(gram: array<Rgb332>, x: int, y: int, w: int, h: int, c: Rgb332)
    requires gram.Length == GRamSize
    modifies gram
    ensures gram[..] == Draw(old(gram[..]), FillRectDots(x, y, w, h, c))
  {
    var clip := ClipRect(x, y, w, h);
    if clip.None? {
      return;
    }
    var left, top, right, bottom := clip.value.left, clip.value.top, clip.value.right, clip.value.bottom;
    ghost var g0 := gram[..];
    var row := top;
    while row < bottom
      invariant top <= row <= Max(top, bottom)
      invariant gram[..] == Draw(g0, RowsDots(top, row, left, right, c))
    {
      FillSpan(gram, row, left, right, c);
      DrawAppend(g0, RowsDots(top, row, left, right, c), RowDots(row, left, right, c));
      row := row + 1;
    }
  }

  /** The inner loop of `t2kFillRect`: columns [left, right) of one row. */
  method FillSpan(gram: array<Rgb332>, row: int, left: int, right: int, c: Rgb332)
    requires gram.Length == GRamSize
    requires 0 <= row < GRamHeight && 0 <= left && right <= GRamWidth
    modifies gram
    ensures gram[..] == Draw(old(gram[..]), RowDots(row, left, right, c))
  {
    ghost var g0 := gram[..];
    var col := left;
    while col < right
      invariant left <= col <= Max(left, right)
      invariant gram[..] == Draw(g0, RowDots(row, left, col, c))
    {
      PutDot(gram, g0, RowDots(row, left, col, c), Dot(col, row, c));
      col := col + 1;
    }
  }

  /** The dots of the outline of box b, in the order `t2kDrawRect` writes
      them: the top and bottom rows together, left to right, then the two
      sides of each row in between. */
  function EdgesDots(b: Box, n: int, c: Rgb332): (ds: seq<Dot>)
    decreases n - b.left
  {
    if n <= b.left then [] else EdgesDots(b, n - 1, c) + [Dot(n - 1, b.top, c), Dot(n - 1, b.bottom - 1, c)]
  }

  function SidesDots(b: Box, n: int, c: Rgb332): (ds: seq<Dot>)
    decreases n - (b.top + 1)
  {
    if n <= b.top + 1 then [] else SidesDots(b, n - 1, c) + [Dot(b.left, n - 1, c), Dot(b.right - 1, n - 1, c)]
  }

  /** The dots of the corrected `t2kDrawRect`: the outline of the visible
      part of the rectangle, and nothing when that part is empty. */
  function DrawRectDots(x: int, y: int, w: int, h: int, c: Rgb332): seq<Dot>
  {
    match ClipRect(x, y, w, h)
    case None => []
    case Some(b) =>
      if b.right <= b.left || b.bottom <= b.top then []
      else EdgesDots(b, b.right, c) + SidesDots(b, b.bottom - 1, c)
  }

  /** A pixel lies on the border of box b. */
  predicate OnOutline(b: Box, px: int, py: int)
  {
    b.left <= px < b.right && b.top <= py < b.bottom
    && (px == b.left || px == b.right - 1 || py == b.top || py == b.bottom - 1)
  }

  lemma {:induction false} EdgesColour(b: Box, n: int, c: Rgb332, px: int, py: int)
    ensures ColourAt(EdgesDots(b, n, c), px, py) == if b.left <= px < n && (py == b.top || py == b.bottom - 1) then Some(c) else None
    decreases n - b.left
  {
    if b.left < n {
      var last := [Dot(n - 1, b.top, c), Dot(n - 1, b.bottom - 1, c)];
      ColourAtAppend(EdgesDots(b, n - 1, c), last, px, py);
      assert last == [Dot(n - 1, b.top, c)] + [Dot(n - 1, b.bottom - 1, c)];
      ColourAtAppend([Dot(n - 1, b.top, c)], [Dot(n - 1, b.bottom - 1, c)], px, py);
      EdgesColour(b, n - 1, c, px, py);
    }
  }

  lemma {:induction false} SidesColour(b: Box, n: int, c: Rgb332, px: int, py: int)
    ensures ColourAt(SidesDots(b, n, c), px, py) == if b.top < py < n && (px == b.left || px == b.right - 1) then Some(c) else None
    decreases n - (b.top + 1)
  {
    if b.top + 1 < n {
      var last := [Dot(b.left, n - 1, c), Dot(b.right - 1, n - 1, c)];
      ColourAtAppend(SidesDots(b, n - 1, c), last, px, py);
      assert last == [Dot(b.left, n - 1, c)] + [Dot(b.right - 1, n - 1, c)];
      ColourAtAppend([Dot(b.left, n - 1, c)], [Dot(b.right - 1, n - 1, c)], px, py);
      SidesColour(b, n - 1, c, px, py);
    }
  }

  /** The outline dots of a non-empty box colour exactly its border. */
  lemma OutlineColour(b: Box, c: Rgb332, px: int, py: int)
    requires b.left < b.right && b.top < b.bottom
    ensures ColourAt(EdgesDots(b, b.right, c) + SidesDots(b, b.bottom - 1, c), px, py)
      == if OnOutline(b, px, py) then Some(c) else None
  {
    ColourAtAppend(EdgesDots(b, b.right, c), SidesDots(b, b.bottom - 1, c), px, py);
    EdgesColour(b, b.right, c, px, py);
    SidesColour(b, b.bottom - 1, c, px, py);
  }

  /** The corrected `t2kDrawRect` colours exactly the outline of the
      visible part of the rectangle. */
  lemma DrawRectExact(x: int, y: int, w: int, h: int, c: Rgb332, px: int, py: int)
    requires IsValidXY(px, py)
    ensures var b := ClipRect(x, y, w, h);
      ColourAt(DrawRectDots(x, y, w, h, c), px, py) == if b.Some? && OnOutline(b.value, px, py) then Some(c) else None
  {
    var b := ClipRect(x, y, w, h);
    if b.None? {
      assert DrawRectDots(x, y, w, h, c) == [];
    } else {
      var bx := b.value;
      if bx.right <= bx.left || bx.bottom <= bx.top {
        assert DrawRectDots(x, y, w, h, c) == [];
        assert !OnOutline(bx, px, py);
      } else {
        assert DrawRectDots(x, y, w, h, c) == EdgesDots(bx, bx.right, c) + SidesDots(bx, bx.bottom - 1, c);
        OutlineColour(bx, c, px, py);
      }
    }
  }

  /** The buffer addresses the source's `t2kDrawRect` writes, in order: the
      top row at `gram + FBA(left, top)` and the row `bottom - 1` together,
      then for each row between, column `left` and the address `inWidth - 1`
      past it. */
  function DrawRectAddressesAsWritten(x: int, y: int, w: int, h: int): (r: seq<int>)
    ensures ClipRect(x, y, w, h).None? ==> r == []
    ensures ClipRect(x, y, w, h).Some? ==> var b := ClipRect(x, y, w, h).value;
      |r| == 2 * Max(0, b.right - b.left) + 2 * Max(0, b.bottom - 1 - (b.top + 1))
  {
    match ClipRect(x, y, w, h)
    case None => []
    case Some(b) => EdgeAddresses(b, b.right) + SideAddresses(b, w, b.bottom - 1)
  }

  function EdgeAddresses(b: Box, n: int): (r: seq<int>)
    ensures |r| == 2 * Max(0, n - b.left)
    decreases n - b.left
  {
    if n <= b.left then [] else EdgeAddresses(b, n - 1) + [FBA(n - 1, b.top), FBA(n - 1, b.bottom - 1)]
  }

  function SideAddresses(b: Box, w: int, n: int): (r: seq<int>)
    ensures |r| == 2 * Max(0, n - (b.top + 1))
    decreases n - (b.top + 1)
  {
    if n <= b.top + 1 then [] else SideAddresses(b, w, n - 1) + [FBA(b.left, n - 1), FBA(b.left, n - 1) + w - 1]
  }

  /** As written, `t2kDrawRect` writes outside the rectangle and outside
      the buffer. A rectangle of height 0 at the top edge writes the
      nonexistent row -1, 160 bytes before the buffer. A rectangle that
      sticks out on the left has its right side drawn at column inWidth - 1
      instead of x + inWidth - 1: for x = -5 and width 20, pixel (19, 1) is
      written, though the rectangle ends at column 14, where the corrected
      outline draws. */
  lemma DrawRectAsWrittenEscapes()
    ensures -160 in DrawRectAddressesAsWritten(0, 0, 10, 0)
    ensures FBA(19, 1) in DrawRectAddressesAsWritten(-5, 0, 20, 10)
  {
    FlatRectEscapes(10);
    LeftClippedRectEscapes(-5, 20, 10);
  }

  /** A rectangle of height 0 on the top row: its "bottom row" is row -1,
      so the second address written is -160. */
  lemma FlatRectEscapes(w: int)
    requires 0 < w <= GRamWidth
    ensures -160 in DrawRectAddressesAsWritten(0, 0, w, 0)
  {
    var b := Box(0, 0, w, 0);
    assert ClipRect(0, 0, w, 0) == Some(b);
    var edges := EdgeAddresses(b, w);
    assert DrawRectAddressesAsWritten(0, 0, w, 0) == edges + SideAddresses(b, w, -1);
    assert EdgeAddresses(b, 1) == [0, -160];
    EdgesPrefix(b, 1, w);
    assert edges[1] == -160;
  }

  /** A rectangle cut on the left, three rows high or more: its right side
      is drawn inWidth - 1 columns right of the screen's left edge, past
      its last column x + inWidth - 1. */
  lemma LeftClippedRectEscapes(x: int, w: int, h: int)
    requires x < 0 < x + w <= GRamWidth && 3 <= h <= GRamHeight
    ensures FBA(w - 1, 1) in DrawRectAddressesAsWritten(x, 0, w, h)
  {
    var b := Box(0, 0, x + w, h);
    assert ClipRect(x, 0, w, h) == Some(b);
    var sides := SideAddresses(b, w, h - 1);
    assert DrawRectAddressesAsWritten(x, 0, w, h) == EdgeAddresses(b, x + w) + sides;
    assert SideAddresses(b, w, 2) == [FBA(0, 1), FBA(0, 1) + w - 1];
    SidesPrefix(b, w, 2, h - 1);
    assert sides[1] == FBA(w - 1, 1);
  }

  /** The corrected outline of the same two rectangles: nothing for the
      empty one, and the right side of the other at column 14, not 19. */
  lemma DrawRectCorrected()
    ensures DrawRectDots(0, 0, 10, 0, White) == []
    ensures ColourAt(DrawRectDots(-5, 0, 20, 10, White), 19, 1) == None
    ensures ColourAt(DrawRectDots(-5, 0, 20, 10, White), 14, 1) == Some(White)
  {
    assert ClipRect(-5, 0, 20, 10) == Some(Box(0, 0, 15, 10));
    DrawRectExact(-5, 0, 20, 10, White, 19, 1);
    DrawRectExact(-5, 0, 20, 10, White, 14, 1);
  }

  lemma {:induction false} EdgesPrefix(b: Box, m: int, n: int)
    requires m <= n
    ensures EdgeAddresses(b, m) <= EdgeAddresses(b, n)
    decreases n - m
  {
    if m < n {
      EdgesPrefix(b, m, n - 1);
      if n - 1 > b.left {
        assert EdgeAddresses(b, n - 1) <= EdgeAddresses(b, n);
      }
    }
  }

  lemma {:induction false} SidesPrefix(b: Box, w: int, m: int, n: int)
    requires m <= n
    ensures SideAddresses(b, w, m) <= SideAddresses(b, w, n)
    decreases n - m
  {
    if m < n {
      SidesPrefix(b, w, m, n - 1);
      if n - 1 > b.top + 1 {
        assert SideAddresses(b, w, n - 1) <= SideAddresses(b, w, n);
      }
    }
  }

  /** `t2kDrawRect`, corrected: the right side at the last visible column
      and nothing for an empty visible part. */
  method DrawRect(gram: array<Rgb332>, x: int, y: int, w: int, h: int, c: Rgb332)
    requires gram.Length == GRamSize
    modifies gram
    ensures gram[..] == Draw(old(gram[..]), DrawRectDots(x, y, w, h, c))
  {
    var clip := ClipRect(x, y, w, h);
    if clip.None? {
      assert DrawRectDots(x, y, w, h, c) == [];
      return;
    }
    var b := clip.value;
    if b.right <= b.left || b.bottom <= b.top {
      assert DrawRectDots(x, y, w, h, c) == [];
      return;
    }
    ghost var edges, sides := EdgesDots(b, b.right, c), SidesDots(b, b.bottom - 1, c);
    assert DrawRectDots(x, y, w, h, c) == edges + sides;
    ghost var g0 := gram[..];
    DrawEdges(gram, b, c);
    DrawSides(gram, b, c);
    DrawAppend(g0, edges, sides);
  }

  /** Two writes of the outline's loops at valid pixels: the buffer that
      held the dots ds then holds ds and the two dots. */
  method PutPair(gram: array<Rgb332>, ghost g0: seq<Rgb332>, ghost ds: seq<Dot>, d1: Dot, d2: Dot)
    requires gram.Length == GRamSize && |g0| == GRamSize
    requires IsValidXY(d1.x, d1.y) && IsValidXY(d2.x, d2.y) && gram[..] == Draw(g0, ds)
    modifies gram
    ensures gram[..] == Draw(g0, ds + [d1, d2])
  {
    PutDot(gram, g0, ds, d1);
    PutDot(gram, g0, ds + [d1], d2);
    assert ds + [d1] + [d2] == ds + [d1, d2];
  }

  /** The first loop of `t2kDrawRect`: the top and bottom rows. */
  method DrawEdges(gram: array<Rgb332>, b: Box, c: Rgb332)
    requires gram.Length == GRamSize
    requires 0 <= b.left < b.right <= GRamWidth && 0 <= b.top < b.bottom <= GRamHeight
    modifies gram
    ensures gram[..] == Draw(old(gram[..]), EdgesDots(b, b.right, c))
  {
    ghost var g0 := gram[..];
    for col := b.left to b.right
      invariant gram[..] == Draw(g0, EdgesDots(b, col, c))
    {
      PutPair(gram, g0, EdgesDots(b, col, c), Dot(col, b.top, c), Dot(col, b.bottom - 1, c));
    }
  }

  /** The second loop of the corrected `t2kDrawRect`: both sides of each
      row strictly between the top and the bottom one. */
  method DrawSides(gram: array<Rgb332>, b: Box, c: Rgb332)
    requires gram.Length == GRamSize
    requires 0 <= b.left < b.right <= GRamWidth && 0 <= b.top < b.bottom <= GRamHeight
    modifies gram
    ensures gram[..] == Draw(old(gram[..]), SidesDots(b, b.bottom - 1, c))
  {
    ghost var g0 := gram[..];
    var row := b.top + 1;
    while row < b.bottom - 1
      invariant b.top + 1 <= row <= Max(b.top + 1, b.bottom - 1)
      invariant gram[..] == Draw(g0, SidesDots(b, row, c))
    {
      PutPair(gram, g0, SidesDots(b, row, c), Dot(b.left, row, c), Dot(b.right - 1, row, c));
      row := row + 1;
    }
  }

  // ----------------------------------------------------------------- lines

  /** The source's `sign` macro. */
  function Sign(d: int): int { if d < 0 then -1 else if d > 0 then 1 else 0 }

  /** `sign(d) * n`. */
  function Signed(d: int, n: int): int { if d < 0 then -n else if d > 0 then n else 0 }

  /** The minor-axis offset at step i of a line whose minor extent is a and
      major extent b: i * a / b rounded to the nearest integer, halves
      rounded up; 0 for a line of one dot. */
  function Minor(i: int, a: int, b: int): (m: int)
    ensures b == 0 ==> m == 0
  {
    if b == 0 then 0 else (2 * i * a + b) / (2 * b)
  }

  /** The number of steps of the line: its longer extent. */
  function LineSteps(x1: int, y1: int, x2: int, y2: int): nat
  {
    if Abs(x2 - x1) > Abs(y2 - y1) then Abs(x2 - x1) else Abs(y2 - y1)
  }

  /** Dot i of the line from (x1, y1) to (x2, y2): one step along the
      longer axis per dot, and the nearest point on the shorter one. */
  function LineDot(x1: int, y1: int, x2: int, y2: int, c: Rgb332, i: int): Dot
  {
    var dx, dy := x2 - x1, y2 - y1;
    if Abs(dx) > Abs(dy) then Dot(x1 + Signed(dx, i), y1 + Signed(dy, Minor(i, Abs(dy), Abs(dx))), c)
    else Dot(x1 + Signed(dx, Minor(i, Abs(dx), Abs(dy))), y1 + Signed(dy, i), c)
  }

  /** Dots [0, n) of the line. */
  function LineDots(x1: int, y1: int, x2: int, y2: int, c: Rgb332, n: nat): (r: seq<Dot>)
    ensures |r| == n
  {
    if n == 0 then [] else LineDots(x1, y1, x2, y2, c, n - 1) + [LineDot(x1, y1, x2, y2, c, n - 1)]
  }

  /** The dots `t2kDrawLine` writes: steps 0 to LineSteps inclusive, those
      off screen skipped when drawn. */
  function DrawLineDots(x1: int, y1: int, x2: int, y2: int, c: Rgb332): seq<Dot>
  {
    LineDots(x1, y1, x2, y2, c, LineSteps(x1, y1, x2, y2) + 1)
  }

  lemma DivModUnique(n: int, d: int, q: int, r: int)
    requires 0 < d && n == d * q + r && 0 <= r < d
    ensures n / d == q && n % d == r
  {
    var k := q - n / d;
    assert d * k == n % d - r by {
      assert n == d * (n / d) + n % d;
      assert d * q - d * (n / d) == d * k;
    }
  }

  /** The error term e of the source's loop at step i: the remainder left
      by Minor, shifted down by 2b, so that it is negative. */
  function ErrorTerm(i: int, a: int, b: int): (e: int)
    ensures 0 < b ==> -2 * b <= e < 0
  {
    if b == 0 then 0 else (2 * i * a + b) % (2 * b) - 2 * b
  }

  /** One step of the error term: after adding 2a it reaches 0 exactly
      when the offset grows by one, and then loses 2b. */
  lemma MinorStep(i: int, a: int, b: int)
    requires 0 <= a <= b && 0 < b
    ensures -2 * b <= ErrorTerm(i, a, b) < 0
    ensures var e := ErrorTerm(i, a, b) + 2 * a;
      if e >= 0 then Minor(i + 1, a, b) == Minor(i, a, b) + 1 && ErrorTerm(i + 1, a, b) == e - 2 * b
      else Minor(i + 1, a, b) == Minor(i, a, b) && ErrorTerm(i + 1, a, b) == e
  {
    var n := 2 * i * a + b;
    var q, r := n / (2 * b), n % (2 * b);
    assert 2 * (i + 1) * a + b == n + 2 * a;
    assert n == 2 * b * q + r;
    if r + 2 * a >= 2 * b {
      DivModUnique(n + 2 * a, 2 * b, q + 1, r + 2 * a - 2 * b);
    } else {
      DivModUnique(n + 2 * a, 2 * b, q, r + 2 * a);
    }
  }

  /** The offset starts at 0, ends at a and grows by at most one a step. */
  lemma MinorEnds(a: int, b: int)
    requires 0 <= a <= b
    ensures Minor(0, a, b) == 0 && Minor(b, a, b) == a && ErrorTerm(0, a, b) == -b
  {
    if 0 < b {
      DivModUnique(b, 2 * b, 0, b);
      DivModUnique(2 * b * a + b, 2 * b, a, b);
    }
  }

  lemma {:induction false} MinorMono(i: int, j: int, a: int, b: int)
    requires 0 <= a <= b && i <= j
    ensures Minor(i, a, b) <= Minor(j, a, b) <= Minor(i, a, b) + (j - i)
    decreases j - i
  {
    if i < j && 0 < b {
      MinorMono(i, j - 1, a, b);
      MinorStep(j - 1, a, b);
    }
  }

  /** Both ends of the line are dots of it: step 0 is (x1, y1) and the
      last step is (x2, y2). */
  lemma LineEnds(x1: int, y1: int, x2: int, y2: int, c: Rgb332)
    ensures LineDot(x1, y1, x2, y2, c, 0) == Dot(x1, y1, c)
    ensures LineDot(x1, y1, x2, y2, c, LineSteps(x1, y1, x2, y2)) == Dot(x2, y2, c)
  {
    var adx, ady := Abs(x2 - x1), Abs(y2 - y1);
    if adx > ady {
      MinorEnds(ady, adx);
    } else {
      MinorEnds(adx, ady);
    }
  }

  /** One round of the source's loop on the line: the longer axis moves
      one step in the line's direction, and the other one moves too exactly
      when the error term, raised by twice the shorter extent, is no longer
      negative. */
  lemma LineAdvance(x1: int, y1: int, x2: int, y2: int, c: Rgb332, i: int)
    ensures var p, q := LineDot(x1, y1, x2, y2, c, i), LineDot(x1, y1, x2, y2, c, i + 1);
      var adx, ady := Abs(x2 - x1), Abs(y2 - y1);
      if adx > ady then
        q.x == p.x + Sign(x2 - x1)
        && q.y == p.y + (if ErrorTerm(i, ady, adx) + 2 * ady >= 0 then Sign(y2 - y1) else 0)
      else
        q.y == p.y + Sign(y2 - y1)
        && q.x == p.x + (if ErrorTerm(i, adx, ady) + 2 * adx >= 0 then Sign(x2 - x1) else 0)
  {
    var adx, ady := Abs(x2 - x1), Abs(y2 - y1);
    if adx > ady {
      MinorStep(i, ady, adx);
    } else if 0 < ady {
      MinorStep(i, adx, ady);
    }
  }

  /** Consecutive dots are neighbours: one step along the longer axis, in
      the direction of the line, and no step or one step along the other. */
  lemma LineNeighbours(x1: int, y1: int, x2: int, y2: int, c: Rgb332, i: int)
    ensures var p, q := LineDot(x1, y1, x2, y2, c, i), LineDot(x1, y1, x2, y2, c, i + 1);
      if Abs(x2 - x1) > Abs(y2 - y1) then
        q.x - p.x == Sign(x2 - x1) && (q.y - p.y == 0 || q.y - p.y == Sign(y2 - y1))
      else
        q.y - p.y == Sign(y2 - y1) && (q.x - p.x == 0 || q.x - p.x == Sign(x2 - x1))
  {
    LineAdvance(x1, y1, x2, y2, c, i);
  }

  /** Every step of the line lies in the box its two ends span. */
  lemma LineInBox(x1: int, y1: int, x2: int, y2: int, c: Rgb332, i: int)
    requires 0 <= i <= LineSteps(x1, y1, x2, y2)
    ensures var d := LineDot(x1, y1, x2, y2, c, i);
      Min(x1, x2) <= d.x <= Max(x1, x2) && Min(y1, y2) <= d.y <= Max(y1, y2)
  {
    var adx, ady := Abs(x2 - x1), Abs(y2 - y1);
    if adx > ady {
      MinorEnds(ady, adx);
      MinorMono(0, i, ady, adx);
      MinorMono(i, adx, ady, adx);
    } else {
      MinorEnds(adx, ady);
      MinorMono(0, i, adx, ady);
      MinorMono(i, ady, adx, ady);
    }
  }

  lemma {:induction false} LineDotsMembers(x1: int, y1: int, x2: int, y2: int, c: Rgb332, n: nat, d: Dot)
    requires d in LineDots(x1, y1, x2, y2, c, n)
    ensures exists i :: 0 <= i < n && d == LineDot(x1, y1, x2, y2, c, i)
  {
    if d != LineDot(x1, y1, x2, y2, c, n - 1) {
      LineDotsMembers(x1, y1, x2, y2, c, n - 1, d);
    }
  }

  lemma {:induction false} LineDotsHas(x1: int, y1: int, x2: int, y2: int, c: Rgb332, n: nat, i: int)
    requires 0 <= i < n
    ensures LineDot(x1, y1, x2, y2, c, i) in LineDots(x1, y1, x2, y2, c, n)
  {
    if i < n - 1 {
      LineDotsHas(x1, y1, x2, y2, c, n - 1, i);
    }
  }

  /** A pixel after `t2kDrawLine`: the line's colour where some step of
      the line falls on it, its old colour everywhere else. */
  lemma DrawLinePixel(g: seq<Rgb332>, x1: int, y1: int, x2: int, y2: int, c: Rgb332, px: int, py: int)
    requires |g| == GRamSize && IsValidXY(px, py)
    ensures Draw(g, DrawLineDots(x1, y1, x2, y2, c))[FBA(px, py)] ==
      if exists i :: 0 <= i <= LineSteps(x1, y1, x2, y2) && LineDot(x1, y1, x2, y2, c, i).x == px && LineDot(x1, y1, x2, y2, c, i).y == py
      then c else g[FBA(px, py)]
  {
    var ds, n := DrawLineDots(x1, y1, x2, y2, c), LineSteps(x1, y1, x2, y2) + 1;
    DrawPixel(g, ds, px, py);
    ColourAtMeaning(ds, px, py);
    match ColourAt(ds, px, py)
    case Some(v) =>
      LineDotsMembers(x1, y1, x2, y2, c, n, Dot(px, py, v));
    case None =>
      forall i | 0 <= i < n
        ensures LineDot(x1, y1, x2, y2, c, i).x != px || LineDot(x1, y1, x2, y2, c, i).y != py
      {
        LineDotsHas(x1, y1, x2, y2, c, n, i);
      }
  }

  /** `t2kDrawLine`. The early return for a line wholly left of, right of,
      above or below the screen leaves out only dots that would have been
      skipped anyway. */
  method DrawLine(gram: array<Rgb332>, x1: int, y1: int, x2: int, y2: int, c: Rgb332)
    requires gram.Length == GRamSize
    modifies gram
    ensures gram[..] == Draw(old(gram[..]), DrawLineDots(x1, y1, x2, y2, c))
  {
    if (x1 < 0 && x2 < 0) || (GRamWidth <= x1 && GRamWidth <= x2)
      || (y1 < 0 && y2 < 0) || (GRamHeight <= y1 && GRamHeight <= y2)
    {
      ghost var ds := DrawLineDots(x1, y1, x2, y2, c);
      forall d | d in ds
        ensures !IsValidXY(d.x, d.y)
      {
        LineDotsMembers(x1, y1, x2, y2, c, LineSteps(x1, y1, x2, y2) + 1, d);
        var i :| 0 <= i <= LineSteps(x1, y1, x2, y2) && d == LineDot(x1, y1, x2, y2, c, i);
        LineInBox(x1, y1, x2, y2, c, i);
      }
      DrawOffScreen(gram[..], [], ds);
      assert [] + ds == ds;
      return;
    }
    if Abs(x2 - x1) > Abs(y2 - y1) {
      LineXMajor(gram, x1, y1, x2, y2, c);
    } else {
      LineYMajor(gram, x1, y1, x2, y2, c);
    }
  }

  /** The guarded write of both loops of `t2kDrawLine`: dot i of the line,
      at (x, y), is written only if it is on screen. */
  method LinePlot(gram: array<Rgb332>, ghost g0: seq<Rgb332>, x1: int, y1: int, x2: int, y2: int, c: Rgb332, ghost i: nat, x: int, y: int)
    requires gram.Length == GRamSize && |g0| == GRamSize
    requires Dot(x, y, c) == LineDot(x1, y1, x2, y2, c, i)
    requires gram[..] == Draw(g0, LineDots(x1, y1, x2, y2, c, i))
    modifies gram
    ensures gram[..] == Draw(g0, LineDots(x1, y1, x2, y2, c, i + 1))
  {
    if IsValidXY(x, y) {
      PutDot(gram, g0, LineDots(x1, y1, x2, y2, c, i), Dot(x, y, c));
    } else {
      DrawSnoc(g0, LineDots(x1, y1, x2, y2, c, i), Dot(x, y, c));
    }
  }

  /** One round of the loop of `t2kDrawLine` along x: the guarded write
      of dot i, then x moves on, and y too when the error term e, raised by
      deltaE, is no longer negative, e then losing adjustE. */
  method LineXRound(gram: array<Rgb332>, ghost g0: seq<Rgb332>, x1: int, y1: int, x2: int, y2: int, c: Rgb332,
                    ghost i: nat, x: int, y: int, e: int) returns (x': int, y': int, e': int)
    requires gram.Length == GRamSize && |g0| == GRamSize && Abs(x2 - x1) > Abs(y2 - y1)
    requires gram[..] == Draw(g0, LineDots(x1, y1, x2, y2, c, i))
    requires Dot(x, y, c) == LineDot(x1, y1, x2, y2, c, i) && e == ErrorTerm(i, Abs(y2 - y1), Abs(x2 - x1))
    modifies gram
    ensures gram[..] == Draw(g0, LineDots(x1, y1, x2, y2, c, i + 1))
    ensures Dot(x', y', c) == LineDot(x1, y1, x2, y2, c, i + 1) && e' == ErrorTerm(i + 1, Abs(y2 - y1), Abs(x2 - x1))
  {
    var deltaE, adjustE := 2 * Abs(y2 - y1), 2 * Abs(x2 - x1);
    LinePlot(gram, g0, x1, y1, x2, y2, c, i, x, y);
    MinorStep(i, Abs(y2 - y1), Abs(x2 - x1));
    LineAdvance(x1, y1, x2, y2, c, i);
    x', y', e' := x + Sign(x2 - x1), y, e + deltaE;
    if e' >= 0 {
      y' := y' + Sign(y2 - y1);
      e' := e' - adjustE;
    }
  }

  /** The loop of `t2kDrawLine` along x, with the error term e. */
  method LineXMajor(gram: array<Rgb332>, x1: int, y1: int, x2: int, y2: int, c: Rgb332)
    requires gram.Length == GRamSize && Abs(x2 - x1) > Abs(y2 - y1)
    modifies gram
    ensures gram[..] == Draw(old(gram[..]), DrawLineDots(x1, y1, x2, y2, c))
  {
    var x, y := x1, y1;
    var absDx: int := Abs(x2 - x1);
    ghost var g0 := gram[..];
    MinorEnds(Abs(y2 - y1), absDx);
    LineEnds(x1, y1, x2, y2, c);
    var e := -absDx;
    for i := 0 to absDx + 1
      invariant gram[..] == Draw(g0, LineDots(x1, y1, x2, y2, c, i))
      invariant Dot(x, y, c) == LineDot(x1, y1, x2, y2, c, i)
      invariant e == ErrorTerm(i, Abs(y2 - y1), absDx)
    {
      x, y, e := LineXRound(gram, g0, x1, y1, x2, y2, c, i, x, y, e);
    }
  }

  /** One round of the loop of `t2kDrawLine` along y, the roles of x and
      y exchanged. */
  method LineYRound(gram: array<Rgb332>, ghost g0: seq<Rgb332>, x1: int, y1: int, x2: int, y2: int, c: Rgb332,
                    ghost i: nat, x: int, y: int, e: int) returns (x': int, y': int, e': int)
    requires gram.Length == GRamSize && |g0| == GRamSize && Abs(x2 - x1) <= Abs(y2 - y1)
    requires gram[..] == Draw(g0, LineDots(x1, y1, x2, y2, c, i))
    requires Dot(x, y, c) == LineDot(x1, y1, x2, y2, c, i) && e == ErrorTerm(i, Abs(x2 - x1), Abs(y2 - y1))
    modifies gram
    ensures gram[..] == Draw(g0, LineDots(x1, y1, x2, y2, c, i + 1))
    ensures Dot(x', y', c) == LineDot(x1, y1, x2, y2, c, i + 1) && e' == ErrorTerm(i + 1, Abs(x2 - x1), Abs(y2 - y1))
  {
    var deltaE, adjustE := 2 * Abs(x2 - x1), 2 * Abs(y2 - y1);
    LinePlot(gram, g0, x1, y1, x2, y2, c, i, x, y);
    if 0 < Abs(y2 - y1) {
      MinorStep(i, Abs(x2 - x1), Abs(y2 - y1));
    }
    LineAdvance(x1, y1, x2, y2, c, i);
    x', y', e' := x, y + Sign(y2 - y1), e + deltaE;
    if e' >= 0 {
      x' := x' + Sign(x2 - x1);
      e' := e' - adjustE;
    }
  }

  /** The loop of `t2kDrawLine` along y, with the error term e. */
  method LineYMajor(gram: array<Rgb332>, x1: int, y1: int, x2: int, y2: int, c: Rgb332)
    requires gram.Length == GRamSize && Abs(x2 - x1) <= Abs(y2 - y1)
    modifies gram
    ensures gram[..] == Draw(old(gram[..]), DrawLineDots(x1, y1, x2, y2, c))
  {
    var x, y := x1, y1;
    var absDy: int := Abs(y2 - y1);
    ghost var g0 := gram[..];
    MinorEnds(Abs(x2 - x1), absDy);
    LineEnds(x1, y1, x2, y2, c);
    var e := -absDy;
    for i := 0 to absDy + 1
      invariant gram[..] == Draw(g0, LineDots(x1, y1, x2, y2, c, i))
      invariant Dot(x, y, c) == LineDot(x1, y1, x2, y2, c, i)
      invariant e == ErrorTerm(i, Abs(x2 - x1), absDy)
    {
      x, y, e := LineYRound(gram, g0, x1, y1, x2, y2, c, i, x, y, e);
    }
  }
}
