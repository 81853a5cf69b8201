/** 16-colour sprites: a bitmap of palette indices decoded from rows of
    colour letters, and drawn clipped to the screen with one index left
    transparent. */
module Sprite {
  import opened Ints
  import opened Wrappers
  import opened MmlText
  import opened GCore
  import opened Graphics

  // ------------------------------------------------------------ palettes

  /** The number of colours of a 16-colour sprite. */
  const NumOfColors := 16

  /** `gGlobal16colorPalette`: dark colours at 1 to 7, black at 0 and 8,
      bright ones at 9 to 15. */
  const DefaultPalette: seq<Rgb332> := [
    RGB(0, 0, 0), RGB(0, 0, 1), RGB(3, 0, 0), RGB(3, 0, 1),
    RGB(0, 3, 0), RGB(0, 3, 1), RGB(3, 3, 0), RGB(3, 3, 2),
    RGB(0, 0, 0), RGB(0, 0, 3), RGB(7, 0, 0), RGB(7, 0, 3),
    RGB(0, 7, 0), RGB(0, 7, 3), RGB(7, 7, 0), RGB(7, 7, 3)]

  /** The bright half of the default palette is the basic colours, black
      to white, in the same order. */
  lemma DefaultPaletteBright()
    ensures |DefaultPalette| == NumOfColors
    ensures DefaultPalette[8..] == BasicColours
    ensures DefaultPalette[0] == DefaultPalette[8] == Black
  {
  }

  // ------------------------------------------------------ colour letters

  /** The letters of a pattern row, by the colour index they stand for. */
  const ColourLetters: string := "_brmgcywkBRMGCYW"

  /** The colour index a letter of a pattern row stands for; any other
      character, the terminator included, is invalid. */
  function ColourIndexOf(ch: char): (r: Option<uint8>)
    ensures r.Some? ==> r.value < NumOfColors
  {
    match ch
    case '_' => Some(0)  case 'b' => Some(1)  case 'r' => Some(2)  case 'm' => Some(3)
    case 'g' => Some(4)  case 'c' => Some(5)  case 'y' => Some(6)  case 'w' => Some(7)
    case 'k' => Some(8)  case 'B' => Some(9)  case 'R' => Some(10) case 'M' => Some(11)
    case 'G' => Some(12) case 'C' => Some(13) case 'Y' => Some(14) case 'W' => Some(15)
    case _ => None
  }

  /** The letters and the indices are in one-to-one correspondence: the
      letter at k stands for k, and a letter that stands for k is the one
      at k. */
  lemma ColourLettersBijective(ch: char, k: int)
    requires 0 <= k < NumOfColors
    ensures ColourIndexOf(ColourLetters[k]) == Some(k)
    ensures ColourIndexOf(ch) == Some(k) ==> ch == ColourLetters[k]
  {
  }

  // ------------------------------------------------------------ decoding

  /** The outcome of a scan that stops at the first bad entry: what it
      produced up to there, and whether it got to the end. */
  datatype Scan<T> = Scan(items: seq<T>, ok: bool)

  /** Entries prefix + the outcome of the rest of a scan. */
  function Then<T>(prefix: seq<T>, rest: Scan<T>): Scan<T>
  {
    Scan(prefix + rest.items, rest.ok)
  }

  /** The inner loop of `t2kInitSprite` from column x: the indices of the
      letters of row s up to width w, and false at the first character
      that is no colour letter. */
  function RowDecode(s: string, x: nat, w: nat): (r: Scan<uint8>)
    ensures |r.items| <= w - x || (x >= w && r.items == [])
    decreases w - x
  {
    if x >= w then Scan([], true)
    else match ColourIndexOf(At(s, x))
      case None => Scan([], false)
      case Some(t) => Then([t], RowDecode(s, x + 1, w))
  }

  /** Both loops of `t2kInitSprite` from row y: the rows one after the
      other, stopping at the first bad row. */
  function Decode(patterns: seq<string>, y: nat, w: nat, h: nat): (r: Scan<uint8>)
    requires h <= |patterns|
    ensures |r.items| <= if y < h then (h - y) * w else 0
    decreases h - y
  {
    if y >= h then Scan([], true)
    else
      var r := RowDecode(patterns[y], 0, w);
      MulRowStep(h - (y + 1), w);
      if !r.ok then r else Then(r.items, Decode(patterns, y + 1, w, h))
  }

  /** Whether every character of row s in columns [x, w) is a letter. */
  predicate RowDecodable(s: string, x: nat, w: nat)
  {
    forall k :: x <= k < w ==> ColourIndexOf(At(s, k)).Some?
  }

  /** A row decodes in full exactly when all its letters are valid, into
      one index per column, the index of that column's letter. */
  lemma {:induction false} RowDecodeMeaning(s: string, x: nat, w: nat)
    ensures RowDecode(s, x, w).ok <==> RowDecodable(s, x, w)
    ensures RowDecode(s, x, w).ok ==> |RowDecode(s, x, w).items| == if x <= w then w - x else 0
    ensures RowDecode(s, x, w).ok ==> forall k :: x <= k < w ==>
      Some(RowDecode(s, x, w).items[k - x]) == ColourIndexOf(At(s, k))
    decreases w - x
  {
    if x < w && ColourIndexOf(At(s, x)).Some? {
      RowDecodeMeaning(s, x + 1, w);
    }
  }

  lemma MulRowBound(v: int, w: int, h: int)
    requires 0 <= v < h && 0 <= w
    ensures v * w + w <= w * h
  {
    assert v * w + w == (v + 1) * w;
  }

  lemma MulRowStep(v: int, w: int)
    ensures (v + 1) * w == v * w + w
  {
  }

  /** Indexing into row r followed by the later rows. */
  lemma RowsIndex(r: seq<uint8>, rest: seq<uint8>, w: nat, d: nat, n: nat, u: nat)
    requires |r| == w && |rest| == n * w && d <= n && u < w
    ensures d * w + u < (n + 1) * w
    ensures (r + rest)[d * w + u] == if d == 0 then r[u] else rest[(d - 1) * w + u]
  {
    MulRowBound(d, w, n + 1);
    if d > 0 {
      assert d * w + u == w + ((d - 1) * w + u);
      MulRowBound(d - 1, w, n);
    }
  }

  /** The rows decode in full exactly when every letter of every row is
      valid, and then into w indices per row. */
  lemma {:induction false} DecodeOk(patterns: seq<string>, y: nat, w: nat, h: nat)
    requires h <= |patterns| && y <= h
    ensures Decode(patterns, y, w, h).ok <==> forall v :: y <= v < h ==> RowDecodable(patterns[v], 0, w)
    ensures Decode(patterns, y, w, h).ok ==> |Decode(patterns, y, w, h).items| == (h - y) * w
    decreases h - y
  {
    if y < h {
      RowDecodeMeaning(patterns[y], 0, w);
      DecodeOk(patterns, y + 1, w, h);
      assert (h - y) * w == w + (h - (y + 1)) * w;
    }
  }

  /** Cell u of row v - y of a decoded bitmap is in it and holds the index
      of the letter at column u of pattern row v. */
  predicate DecodedCell(items: seq<uint8>, patterns: seq<string>, y: nat, w: nat, v: nat, u: nat)
    requires v < |patterns|
  {
    var k := (v - y) * w + u;
    0 <= k < |items| && Some(items[k]) == ColourIndexOf(At(patterns[v], u))
  }

  /** A bitmap that decodes in full holds, row after row, the index of
      each letter. */
  lemma {:induction false} DecodeCells(patterns: seq<string>, y: nat, w: nat, h: nat)
    requires h <= |patterns| && y <= h && Decode(patterns, y, w, h).ok
    ensures forall v, u :: y <= v < h && 0 <= u < w ==> DecodedCell(Decode(patterns, y, w, h).items, patterns, y, w, v, u)
    decreases h - y
  {
    if y < h {
      var r := Decode(patterns, y, w, h).items;
      var row := RowDecode(patterns[y], 0, w);
      var rest := Decode(patterns, y + 1, w, h);
      RowDecodeMeaning(patterns[y], 0, w);
      DecodeOk(patterns, y + 1, w, h);
      DecodeCells(patterns, y + 1, w, h);
      assert r == row.items + rest.items;
      var n: nat := h - (y + 1);
      forall v, u | y <= v < h && 0 <= u < w
        ensures DecodedCell(r, patterns, y, w, v, u)
      {
        RowsIndex(row.items, rest.items, w, v - y, n, u);
        if v > y {
          assert DecodedCell(rest.items, patterns, y + 1, w, v, u);
        }
      }
    }
  }

  // ------------------------------------------------------- sprite values

  /** `enum SpriteType`. */
  const STInvalid: uint8 := 0
  const ST16colors: uint8 := 1

  /** `T2K_SpriteInfo`: the sprite's size, the offset of its origin from
      its top left corner, and its colour set-up. */
  datatype SpriteInfo = SpriteInfo(
    spriteType: uint8,
    width: uint8, height: uint8,
    numOfFrames: uint8,
    centerX: int8, centerY: int8,
    numOfColors: int8,
    transparentColor: int16,
    bitmapNeedToFree: bool,
    paletteNeedToFree: bool)

  /** `t2kSprite_HasVisibleArea`: the rectangle [left, right) x [top,
      bottom) of a sprite whose origin is at (x, y), or nothing when it
      lies wholly left of, right of, above or below the screen. */
  function HasVisibleArea(info: SpriteInfo, x: int, y: int): (r: Option<Box>)
    ensures r.Some? ==> r.value == Box(x - info.centerX, y - info.centerY,
                                       x - info.centerX + info.width, y - info.centerY + info.height)
  {
    var left, top := x - info.centerX, y - info.centerY;
    var right, bottom := left + info.width, top + info.height;
    if right <= 0 || GRamWidth <= left || bottom <= 0 || GRamHeight <= top then None
    else Some(Box(left, top, right, bottom))
  }

  /** Whether cell (u, v) of a sprite whose origin is at (x, y) is on
      screen. */
  predicate CellOnScreen(info: SpriteInfo, x: int, y: int, u: int, v: int)
  {
    IsValidXY(x - info.centerX + u, y - info.centerY + v)
  }

  /** No cell of a sprite without a visible area is on screen, and a
      sprite with a visible area and a cell at all has one on screen. */
  lemma VisibleAreaMeaning(info: SpriteInfo, x: int, y: int)
    ensures HasVisibleArea(info, x, y).None? ==>
      forall u, v :: 0 <= u < info.width && 0 <= v < info.height ==> !CellOnScreen(info, x, y, u, v)
    ensures HasVisibleArea(info, x, y).Some? && info.width > 0 && info.height > 0 ==>
      exists u, v :: 0 <= u < info.width && 0 <= v < info.height && CellOnScreen(info, x, y, u, v)
  {
    var left: int, top: int := x - info.centerX, y - info.centerY;
    var right: int, bottom: int := left + info.width, top + info.height;
    if right <= 0 || GRamWidth <= left || bottom <= 0 || GRamHeight <= top {
      assert HasVisibleArea(info, x, y).None?;
      forall u, v | 0 <= u < info.width && 0 <= v < info.height
        ensures !CellOnScreen(info, x, y, u, v)
      {
      }
    } else if info.width > 0 && info.height > 0 {
      var u := if left < 0 then -left else 0;
      var v := if top < 0 then -top else 0;
      assert CellOnScreen(info, x, y, u, v);
    }
  }

  // ------------------------------------------------------------- drawing

  /** The clipped part of the bitmap `t2kPutSprite` walks: columns
      [startU, endU) and rows [startV, endV). */
  datatype Window = Window(startU: int, endU: int, startV: int, endV: int)

  function BitmapWindow(b: Box, w: int, h: int): (win: Window)
    ensures b.right == b.left + w ==>
      b.left + win.startU == (if b.left < 0 then 0 else b.left)
      && b.left + win.endU == (if GRamWidth < b.right then GRamWidth else b.right)
    ensures b.bottom == b.top + h ==>
      b.top + win.startV == (if b.top < 0 then 0 else b.top)
      && b.top + win.endV == (if GRamHeight < b.bottom then GRamHeight else b.bottom)
  {
    Window(
      if b.left < 0 then -b.left else 0,
      if b.right > GRamWidth then w - (b.right - GRamWidth) else w,
      if b.top < 0 then -b.top else 0,
      if b.bottom > GRamHeight then h - (b.bottom - GRamHeight) else h)
  }

  /** The window of a visible sprite lies in its bitmap and puts each of
      its cells on screen. */
  lemma WindowOnScreen(info: SpriteInfo, x: int, y: int)
    requires HasVisibleArea(info, x, y).Some?
    ensures var b := HasVisibleArea(info, x, y).value;
      var win := BitmapWindow(b, info.width, info.height);
      0 <= win.startU <= win.endU <= info.width && 0 <= win.startV <= win.endV <= info.height
      && 0 <= b.left + win.startU && b.left + win.endU <= GRamWidth
      && 0 <= b.top + win.startV && b.top + win.endV <= GRamHeight
  {
    var left, top := x - info.centerX, y - info.centerY;
    var right, bottom := left + info.width, top + info.height;
    assert !(right <= 0 || GRamWidth <= left || bottom <= 0 || GRamHeight <= top);
  }

  /** The bitmap cell `t2kPutSprite` should read for column u of row v:
      `bitmap[v * w + u]`. */
  function CellIndex(v: int, u: int, w: int): int
  {
    v * w + u
  }

  /** The cell the source reads: its scanline pointer starts at
      `bitmap + startV * w + startU` and is then indexed with u, which
      itself starts at startU, so the column offset counts twice. */
  function CellIndexAsWritten(v: int, u: int, w: int, win: Window): (r: int)
    ensures win.startU == 0 ==> r == CellIndex(v, u, w)
  {
    assert (v - win.startV) * w == v * w - win.startV * w;
    (win.startV * w + win.startU) + (v - win.startV) * w + u
  }

  /** An 8x8 sprite with its origin at its top left corner, drawn four
      columns left of the screen, has its right half visible: the window
      is columns 4 to 8 of all eight rows. */
  lemma HalfVisibleWindow()
    ensures HasVisibleArea(SpriteInfo(ST16colors, 8, 8, 1, 0, 0, 16, 0, false, false), -4, 0) == Some(Box(-4, 0, 4, 8))
    ensures BitmapWindow(Box(-4, 0, 4, 8), 8, 8) == Window(4, 8, 0, 8)
  {
  }

  /** The source reads, for every cell of the window, the cell startU
      columns right of the one it draws. */
  lemma CellIndexAsWrittenShift(v: int, u: int, w: int, win: Window)
    ensures CellIndexAsWritten(v, u, w, win) == CellIndex(v, u, w) + win.startU
  {
    assert (v - win.startV) * w == v * w - win.startV * w;
  }

  /** For the half visible sprite the source reads the cell four columns
      right of the one it draws, and on the last row reads cell 67, past
      the 64 cells of the bitmap; the corrected index reads the cell
      drawn, 63 at most. */
  lemma CellIndexAsWrittenOverruns()
    ensures CellIndexAsWritten(0, 4, 8, Window(4, 8, 0, 8)) == CellIndex(0, 4, 8) + 4 == 8
    ensures CellIndexAsWritten(7, 7, 8, Window(4, 8, 0, 8)) == 67 > CellIndex(7, 7, 8) == 63
  {
    CellIndexAsWrittenShift(0, 4, 8, Window(4, 8, 0, 8));
    CellIndexAsWrittenShift(7, 7, 8, Window(4, 8, 0, 8));
  }

  /** The corrected cell of every column and row of the window is in the
      bitmap: each row of the window reads only its own row. */
  lemma CellIndexInBitmap(v: int, u: int, w: int, h: int)
    requires 0 <= v < h && 0 <= u < w
    ensures v * w <= CellIndex(v, u, w) < v * w + w <= w * h
  {
    MulRowBound(v, w, h);
  }

  /** Two columns of the bitmap read the same cell only when they are the
      same column of the same row: the corrected index never reads a cell
      twice. */
  lemma CellIndexInjective(v1: int, u1: int, v2: int, u2: int, w: int)
    requires 0 <= u1 < w && 0 <= u2 < w
    ensures CellIndex(v1, u1, w) == CellIndex(v2, u2, w) <==> v1 == v2 && u1 == u2
  {
    if v1 < v2 {
      RowsApart(v1, v2, w);
    } else if v2 < v1 {
      RowsApart(v2, v1, w);
    }
  }

  /** A later row starts at least a whole row after an earlier one. */
  lemma RowsApart(v1: int, v2: int, w: int)
    requires v1 < v2 && 0 <= w
    ensures v1 * w + w <= v2 * w
  {
    var d := v2 - v1 - 1;
    assert v2 * w == v1 * w + w + d * w;
    assert 0 <= d * w;
  }

  /** The source's inner loop from column u of row v: the dots of the
      cells not transparent, and false at the first index of 16 or more. */
  function RowRun(bm: seq<uint8>, w: int, pal: seq<Rgb332>, tr: int, left: int, top: int, v: int, u: int, endU: int): (r: Scan<Dot>)
    requires 0 <= v && 0 <= u && 0 <= w && v * w + endU <= |bm| && |pal| >= NumOfColors
    ensures !r.ok ==> u < endU
    decreases endU - u
  {
    if u >= endU then Scan([], true)
    else
      var k := bm[CellIndex(v, u, w)];
      if k >= NumOfColors then Scan([], false)
      else if k == tr then RowRun(bm, w, pal, tr, left, top, v, u + 1, endU)
      else Then([Dot(left + u, top + v, pal[k])], RowRun(bm, w, pal, tr, left, top, v, u + 1, endU))
  }

  /** A row of the inner loop draws at most one dot per column of its run. */
  lemma {:induction false} RowRunBound(bm: seq<uint8>, w: int, pal: seq<Rgb332>, tr: int, left: int, top: int, v: int, u: int, endU: int)
    requires 0 <= v && 0 <= u && 0 <= w && v * w + endU <= |bm| && |pal| >= NumOfColors
    ensures |RowRun(bm, w, pal, tr, left, top, v, u, endU).items| <= if u < endU then endU - u else 0
    decreases endU - u
  {
    if u < endU {
      RowRunBound(bm, w, pal, tr, left, top, v, u + 1, endU);
    }
  }

  /** Both loops of `t2kPutSprite` from row v of window win. */
  function RowsRun(bm: seq<uint8>, w: int, h: int, pal: seq<Rgb332>, tr: int, left: int, top: int, win: Window, v: int): (r: Scan<Dot>)
    requires 0 <= w && 0 <= win.startU && win.endU <= w && win.endV <= h && w * h <= |bm| && |pal| >= NumOfColors && 0 <= v
    ensures win.startU <= win.endU ==>
      |r.items| <= if v < win.endV then (win.endV - v) * (win.endU - win.startU) else 0
    decreases win.endV - v
  {
    if v >= win.endV then Scan([], true)
    else
      MulRowBound(v, w, h);
      MulRowStep(win.endV - (v + 1), win.endU - win.startU);
      RowRunBound(bm, w, pal, tr, left, top, v, win.startU, win.endU);
      var r := RowRun(bm, w, pal, tr, left, top, v, win.startU, win.endU);
      if !r.ok then r else Then(r.items, RowsRun(bm, w, h, pal, tr, left, top, win, v + 1))
  }

  /** What `t2kPutSprite` draws of a visible sprite: the run of dots over
      its window, and whether it got to the end. */
  function SpriteRun(bm: seq<uint8>, info: SpriteInfo, pal: seq<Rgb332>, b: Box): (r: Scan<Dot>)
    requires info.width * info.height <= |bm| && |pal| >= NumOfColors
    ensures BitmapWindow(b, info.width, info.height).endV <= BitmapWindow(b, info.width, info.height).startV ==> r == Scan([], true)
  {
    var win := BitmapWindow(b, info.width, info.height);
    RowsRun(bm, info.width, info.height, pal, info.transparentColor, b.left, b.top, win, win.startV)
  }

  /** Whether the cell at column u of row v holds a colour index. */
  predicate ValidCell(bm: seq<uint8>, w: int, v: int, u: int)
  {
    0 <= CellIndex(v, u, w) < |bm| && bm[CellIndex(v, u, w)] < NumOfColors
  }

  /** The colour the cell at column u of row v puts on screen: nothing for
      the transparent index (or an index out of the palette). */
  function CellColour(bm: seq<uint8>, w: int, pal: seq<Rgb332>, tr: int, v: int, u: int): Option<Rgb332>
  {
    var i := CellIndex(v, u, w);
    if 0 <= i < |bm| && bm[i] < |pal| && bm[i] != tr then Some(pal[bm[i]]) else None
  }

  /** Every dot of a row run is at row top + v, in the columns of the
      run. */
  lemma {:induction false} RowRunDots(bm: seq<uint8>, w: int, pal: seq<Rgb332>, tr: int, left: int, top: int, v: int, u: int, endU: int)
    requires 0 <= v && 0 <= u && 0 <= w && v * w + endU <= |bm| && |pal| >= NumOfColors
    ensures forall d :: d in RowRun(bm, w, pal, tr, left, top, v, u, endU).items ==>
      d.y == top + v && left + u <= d.x < left + endU
    decreases endU - u
  {
    if u < endU {
      RowRunDots(bm, w, pal, tr, left, top, v, u + 1, endU);
    }
  }

  /** A row run gets to the end exactly when every cell of it holds a
      colour index. */
  lemma {:induction false} RowRunOk(bm: seq<uint8>, w: int, pal: seq<Rgb332>, tr: int, left: int, top: int, v: int, u: int, endU: int)
    requires 0 <= v && 0 <= u && 0 <= w && v * w + endU <= |bm| && |pal| >= NumOfColors
    ensures RowRun(bm, w, pal, tr, left, top, v, u, endU).ok <==> forall k :: u <= k < endU ==> ValidCell(bm, w, v, k)
    decreases endU - u
  {
    if u < endU {
      assert ValidCell(bm, w, v, u) <==> bm[CellIndex(v, u, w)] < NumOfColors;
      RowRunOk(bm, w, pal, tr, left, top, v, u + 1, endU);
    }
  }

  /** The colour a complete row run gives a pixel: its cell's colour in
      the columns of the run on its row, nothing elsewhere. */
  lemma {:induction false} RowRunColour(bm: seq<uint8>, w: int, pal: seq<Rgb332>, tr: int, left: int, top: int, v: int, u: int, endU: int, px: int, py: int)
    requires 0 <= v && 0 <= u && 0 <= w && v * w + endU <= |bm| && |pal| >= NumOfColors
    requires RowRun(bm, w, pal, tr, left, top, v, u, endU).ok
    ensures ColourAt(RowRun(bm, w, pal, tr, left, top, v, u, endU).items, px, py) ==
      if py == top + v && u <= px - left < endU then CellColour(bm, w, pal, tr, v, px - left) else None
    decreases endU - u
  {
    if u < endU {
      var rest := RowRun(bm, w, pal, tr, left, top, v, u + 1, endU);
      RowRunColour(bm, w, pal, tr, left, top, v, u + 1, endU, px, py);
      var k := bm[CellIndex(v, u, w)];
      if k != tr {
        ColourAtAppend([Dot(left + u, top + v, pal[k])], rest.items, px, py);
        RowRunDots(bm, w, pal, tr, left, top, v, u + 1, endU);
      }
    }
  }

  /** Whether the pixel (px, py) is under the cell from rows [v, endV) and
      columns [startU, endU) of a window at (left, top). */
  predicate InWindow(win: Window, v: int, left: int, top: int, px: int, py: int)
  {
    v <= py - top < win.endV && win.startU <= px - left < win.endU
  }

  /** Every dot of a run over rows from v is under its window. */
  lemma {:induction false} RowsRunDots(bm: seq<uint8>, w: int, h: int, pal: seq<Rgb332>, tr: int, left: int, top: int, win: Window, v: int)
    requires 0 <= w && 0 <= win.startU && win.endU <= w && win.endV <= h && w * h <= |bm| && |pal| >= NumOfColors && 0 <= v
    ensures forall d :: d in RowsRun(bm, w, h, pal, tr, left, top, win, v).items ==> InWindow(win, v, left, top, d.x, d.y)
    decreases win.endV - v
  {
    if v < win.endV {
      MulRowBound(v, w, h);
      RowRunDots(bm, w, pal, tr, left, top, v, win.startU, win.endU);
      RowsRunDots(bm, w, h, pal, tr, left, top, win, v + 1);
    }
  }

  /** A run over rows from v gets to the end exactly when every cell
      under its window holds a colour index. */
  lemma {:induction false} RowsRunOk(bm: seq<uint8>, w: int, h: int, pal: seq<Rgb332>, tr: int, left: int, top: int, win: Window, v: int)
    requires 0 <= w && 0 <= win.startU && win.endU <= w && win.endV <= h && w * h <= |bm| && |pal| >= NumOfColors && 0 <= v
    ensures RowsRun(bm, w, h, pal, tr, left, top, win, v).ok <==>
      forall v', k :: v <= v' < win.endV && win.startU <= k < win.endU ==> ValidCell(bm, w, v', k)
    decreases win.endV - v
  {
    if v < win.endV {
      MulRowBound(v, w, h);
      RowRunOk(bm, w, pal, tr, left, top, v, win.startU, win.endU);
      RowsRunOk(bm, w, h, pal, tr, left, top, win, v + 1);
    }
  }

  /** The colour a complete run gives a pixel: its cell's colour under
      the window, nothing elsewhere. */
  lemma {:induction false} RowsRunColour(bm: seq<uint8>, w: int, h: int, pal: seq<Rgb332>, tr: int, left: int, top: int, win: Window, v: int, px: int, py: int)
    requires 0 <= w && 0 <= win.startU && win.endU <= w && win.endV <= h && w * h <= |bm| && |pal| >= NumOfColors && 0 <= v
    requires RowsRun(bm, w, h, pal, tr, left, top, win, v).ok
    ensures ColourAt(RowsRun(bm, w, h, pal, tr, left, top, win, v).items, px, py) ==
      if InWindow(win, v, left, top, px, py) then CellColour(bm, w, pal, tr, py - top, px - left) else None
    decreases win.endV - v
  {
    if v < win.endV {
      MulRowBound(v, w, h);
      var row := RowRun(bm, w, pal, tr, left, top, v, win.startU, win.endU);
      var rest := RowsRun(bm, w, h, pal, tr, left, top, win, v + 1);
      RowRunColour(bm, w, pal, tr, left, top, v, win.startU, win.endU, px, py);
      RowsRunColour(bm, w, h, pal, tr, left, top, win, v + 1, px, py);
      ColourAtAppend(row.items, rest.items, px, py);
    }
  }

  /** What `t2kPutSprite` draws of a sprite whose origin is at (x, y):
      nothing when it is not visible, else the run over its window. */
  function PutSpriteRun(bm: seq<uint8>, info: SpriteInfo, pal: seq<Rgb332>, x: int, y: int): (r: Scan<Dot>)
    requires info.width * info.height <= |bm| && |pal| >= NumOfColors
    ensures HasVisibleArea(info, x, y).None? ==> r.ok && r.items == []
  {
    match HasVisibleArea(info, x, y)
    case None => Scan([], true)
    case Some(b) => SpriteRun(bm, info, pal, b)
  }

  /** The window of a visible sprite is the part of its rectangle on
      screen. */
  lemma WindowIsVisiblePart(info: SpriteInfo, x: int, y: int, px: int, py: int)
    requires HasVisibleArea(info, x, y).Some?
    ensures var b := HasVisibleArea(info, x, y).value;
      var win := BitmapWindow(b, info.width, info.height);
      InWindow(win, win.startV, b.left, b.top, px, py) <==>
        (0 <= px - b.left < info.width && 0 <= py - b.top < info.height && IsValidXY(px, py))
  {
  }

  /** `t2kPutSprite` draws on screen only, inside the sprite's rectangle. */
  lemma PutSpriteRunOnScreen(bm: seq<uint8>, info: SpriteInfo, pal: seq<Rgb332>, x: int, y: int)
    requires info.width * info.height <= |bm| && |pal| >= NumOfColors
    ensures forall d :: d in PutSpriteRun(bm, info, pal, x, y).items ==>
      IsValidXY(d.x, d.y) && CellOnScreen(info, x, y, d.x - (x - info.centerX), d.y - (y - info.centerY))
      && 0 <= d.x - (x - info.centerX) < info.width && 0 <= d.y - (y - info.centerY) < info.height
  {
    if HasVisibleArea(info, x, y).Some? {
      var b := HasVisibleArea(info, x, y).value;
      var win := BitmapWindow(b, info.width, info.height);
      WindowOnScreen(info, x, y);
      RowsRunDots(bm, info.width, info.height, pal, info.transparentColor, b.left, b.top, win, win.startV);
      forall d | d in PutSpriteRun(bm, info, pal, x, y).items
        ensures IsValidXY(d.x, d.y)
      {
        WindowIsVisiblePart(info, x, y, d.x, d.y);
      }
    }
  }

  /** `t2kPutSprite` completes exactly when every cell it reaches holds a
      colour index. */
  lemma PutSpriteRunOk(bm: seq<uint8>, info: SpriteInfo, pal: seq<Rgb332>, x: int, y: int)
    requires info.width * info.height <= |bm| && |pal| >= NumOfColors
    ensures PutSpriteRun(bm, info, pal, x, y).ok <==>
      forall u, v :: 0 <= u < info.width && 0 <= v < info.height && CellOnScreen(info, x, y, u, v) ==> ValidCell(bm, info.width, v, u)
  {
    if HasVisibleArea(info, x, y).Some? {
      var b := HasVisibleArea(info, x, y).value;
      var win := BitmapWindow(b, info.width, info.height);
      WindowOnScreen(info, x, y);
      RowsRunOk(bm, info.width, info.height, pal, info.transparentColor, b.left, b.top, win, win.startV);
      forall u, v | 0 <= u < info.width && 0 <= v < info.height
        ensures CellOnScreen(info, x, y, u, v) <==> (win.startV <= v < win.endV && win.startU <= u < win.endU)
      {
        WindowIsVisiblePart(info, x, y, b.left + u, b.top + v);
      }
    } else {
      VisibleAreaMeaning(info, x, y);
    }
  }

  /** The colour cell (px - left, py - top) of a sprite whose origin is at
      (x, y) gives pixel (px, py): nothing outside the sprite's rectangle
      or for the transparent index. */
  function SpriteColourAt(bm: seq<uint8>, info: SpriteInfo, pal: seq<Rgb332>, x: int, y: int, px: int, py: int): Option<Rgb332>
  {
    var u, v := px - (x - info.centerX), py - (y - info.centerY);
    if 0 <= u < info.width && 0 <= v < info.height then CellColour(bm, info.width, pal, info.transparentColor, v, u) else None
  }

  /** The colour a complete `t2kPutSprite` gives a pixel on screen. */
  lemma PutSpriteColour(bm: seq<uint8>, info: SpriteInfo, pal: seq<Rgb332>, x: int, y: int, px: int, py: int)
    requires IsValidXY(px, py)
    requires info.width * info.height <= |bm| && |pal| >= NumOfColors
    requires PutSpriteRun(bm, info, pal, x, y).ok
    ensures ColourAt(PutSpriteRun(bm, info, pal, x, y).items, px, py) == SpriteColourAt(bm, info, pal, x, y, px, py)
  {
    if HasVisibleArea(info, x, y).Some? {
      var b := HasVisibleArea(info, x, y).value;
      var win := BitmapWindow(b, info.width, info.height);
      WindowOnScreen(info, x, y);
      RowsRunColour(bm, info.width, info.height, pal, info.transparentColor, b.left, b.top, win, win.startV, px, py);
      WindowIsVisiblePart(info, x, y, px, py);
    } else {
      VisibleAreaMeaning(info, x, y);
      assert CellOnScreen(info, x, y, px - (x - info.centerX), py - (y - info.centerY));
    }
  }

  /** The screen after a complete `t2kPutSprite`: a pixel on screen under
      a cell whose index is not the transparent one shows that index's
      palette colour; every other pixel keeps its colour. */
  lemma PutSpritePixel(g: seq<Rgb332>, bm: seq<uint8>, info: SpriteInfo, pal: seq<Rgb332>, x: int, y: int, px: int, py: int)
    requires |g| == GRamSize && IsValidXY(px, py)
    requires info.width * info.height <= |bm| && |pal| >= NumOfColors
    requires PutSpriteRun(bm, info, pal, x, y).ok
    ensures Draw(g, PutSpriteRun(bm, info, pal, x, y).items)[FBA(px, py)] ==
      match SpriteColourAt(bm, info, pal, x, y, px, py) case Some(c) => c case None => g[FBA(px, py)]
  {
    DrawPixel(g, PutSpriteRun(bm, info, pal, x, y).items, px, py);
    PutSpriteColour(bm, info, pal, x, y, px, py);
  }

  // ---------------------------------------------------- initialisation

  /** `spriteInfo` after `t2kInitSprite`, with the free flags as the
      header documents them: set exactly for an area the function
      allocated. The sizes are stored as uint8. */
  function InitInfo(w: int, h: int, originX: int8, originY: int8, usePalette: bool, paletteGiven: bool, bitmapGiven: bool): (info: SpriteInfo)
    ensures info.bitmapNeedToFree <==> !bitmapGiven
    ensures info.paletteNeedToFree <==> usePalette && !paletteGiven
    ensures 0 <= w < 0x100 && 0 <= h < 0x100 ==> info.width == w && info.height == h
  {
    SpriteInfo(ST16colors, ToUint8(w), ToUint8(h), 1, originX, originY, 16, 0, !bitmapGiven, usePalette && !paletteGiven)
  }

  /** The free flags as the source leaves them: the allocation of the
      bitmap raises `palette_needToFree`, and `bitmap_needToFree` keeps
      whatever it held before. */
  function InitInfoAsWritten(prior: SpriteInfo, w: int, h: int, originX: int8, originY: int8, usePalette: bool, paletteGiven: bool, bitmapGiven: bool): (info: SpriteInfo)
    ensures info.bitmapNeedToFree == prior.bitmapNeedToFree
    ensures info.paletteNeedToFree <==> (usePalette && !paletteGiven) || !bitmapGiven
  {
    SpriteInfo(ST16colors, ToUint8(w), ToUint8(h), 1, originX, originY, 16, 0,
               prior.bitmapNeedToFree, if !bitmapGiven then true else usePalette && !paletteGiven)
  }

  /** A sprite on the global palette with a bitmap it allocates: as written,
      freeing by the flags would free the global palette and leak the
      bitmap; the corrected flags free the bitmap only. Apart from the
      flags the two agree. */
  lemma InitInfoAsWrittenMisflags(prior: SpriteInfo, w: int, h: int, originX: int8, originY: int8)
    requires !prior.bitmapNeedToFree
    ensures InitInfoAsWritten(prior, w, h, originX, originY, false, false, false).paletteNeedToFree
    ensures !InitInfoAsWritten(prior, w, h, originX, originY, false, false, false).bitmapNeedToFree
    ensures !InitInfo(w, h, originX, originY, false, false, false).paletteNeedToFree
    ensures InitInfo(w, h, originX, originY, false, false, false).bitmapNeedToFree
    ensures InitInfoAsWritten(prior, w, h, originX, originY, false, false, false)
      == InitInfo(w, h, originX, originY, false, false, false).(bitmapNeedToFree := false, paletteNeedToFree := true)
  {
  }

  /** The bitmap pointer as the source leaves it: a caller's area is never
      stored, so the sprite keeps its earlier pointer. */
  function InitBitmapAsWritten(prior: array?<uint8>, area: array?<uint8>, mallocked: array<uint8>): (r: array?<uint8>)
    ensures area != null ==> r == prior
    ensures area == null ==> r == mallocked
  {
    if area == null then mallocked else prior
  }

  /** The bitmap pointer as intended: the caller's area when there is one. */
  function InitBitmap(prior: array?<uint8>, area: array?<uint8>, mallocked: array<uint8>): (r: array<uint8>)
    ensures area != null ==> r == area
    ensures area == null ==> r == mallocked
  {
    if area == null then mallocked else area
  }

  /** A fresh sprite (bitmap NULL) given a bitmap area: as written, the
      decoding loop writes through the NULL pointer; as intended, into the
      area. */
  lemma InitBitmapAsWrittenIgnoresArea(area: array<uint8>, mallocked: array<uint8>)
    ensures InitBitmapAsWritten(null, area, mallocked) == null
    ensures InitBitmap(null, area, mallocked) == area
  {
  }

  /** The cells of a bitmap after cells [base, base + |items|) are written
      with items: those hold items, the others what they held before. */
  predicate Overwrites(after: seq<uint8>, before: seq<uint8>, base: int, items: seq<uint8>)
  {
    |after| == |before| && 0 <= base && base + |items| <= |before|
    && (forall k :: 0 <= k < |after| && !(base <= k < base + |items|) ==> after[k] == before[k])
    && (forall k :: 0 <= k < |items| ==> after[base + k] == items[k])
  }

  /** The cells written from cell 0 are a prefix of the bitmap. */
  lemma OverwritesPrefix(after: seq<uint8>, before: seq<uint8>, items: seq<uint8>)
    requires Overwrites(after, before, 0, items)
    ensures items <= after
  {
    assert after[..|items|] == items;
  }

  /** Two writes in a row, the second right after the first, are one
      write of both runs of cells. */
  lemma OverwritesAppend(a: seq<uint8>, b: seq<uint8>, c: seq<uint8>, base: int, i1: seq<uint8>, i2: seq<uint8>)
    requires Overwrites(b, a, base, i1) && Overwrites(c, b, base + |i1|, i2)
    ensures Overwrites(c, a, base, i1 + i2)
  {
    forall k | 0 <= k < |i1 + i2|
      ensures c[base + k] == (i1 + i2)[k]
    {
      if k >= |i1| {
        assert c[base + |i1| + (k - |i1|)] == i2[k - |i1|];
      }
    }
  }

  /** The inner loop of `t2kInitSprite`: the indices of row s into cells
      [base, base + w), stopping at the first character that is no
      colour letter. */
  method DecodeRow(bm: array<uint8>, base: int, s: string, w: int) returns (ok: bool)
    requires 0 <= base && 0 <= w && base + w <= bm.Length
    modifies bm
    ensures ok == RowDecode(s, 0, w).ok
    ensures Overwrites(bm[..], old(bm[..]), base, RowDecode(s, 0, w).items)
  {
    ghost var b0 := bm[..];
    ghost var done: seq<uint8> := [];
    var x := 0;
    while x < w
      invariant 0 <= x <= w && |done| == x
      invariant Then(done, RowDecode(s, x, w)) == RowDecode(s, 0, w)
      invariant Overwrites(bm[..], b0, base, done)
    {
      var t := ColourIndexOf(At(s, x));
      if t.None? {
        return false;
      }
      bm[base + x] := t.value;
      assert done + [t.value] + RowDecode(s, x + 1, w).items == done + RowDecode(s, x, w).items;
      done := done + [t.value];
      x := x + 1;
    }
    ok := true;
  }

  /** One row of the outer loop of `t2kInitSprite`: the cells decoded so
      far and the rest of the decoding after one more row; a complete row
      fills w cells. */
  lemma DecodeStep(patterns: seq<string>, y: nat, w: nat, h: nat, done: seq<uint8>)
    requires y < h <= |patterns|
    ensures var r := RowDecode(patterns[y], 0, w);
      (!r.ok ==> Then(done, Decode(patterns, y, w, h)) == Scan(done + r.items, false))
      && (r.ok ==> |r.items| == w
                   && Then(done + r.items, Decode(patterns, y + 1, w, h)) == Then(done, Decode(patterns, y, w, h)))
  {
    var r := RowDecode(patterns[y], 0, w);
    if r.ok {
      RowDecodeMeaning(patterns[y], 0, w);
      var rest := Decode(patterns, y + 1, w, h);
      assert Decode(patterns, y, w, h) == Then(r.items, rest);
      assert done + (r.items + rest.items) == (done + r.items) + rest.items;
    }
  }

  /** Both loops of `t2kInitSprite`: the rows into consecutive runs of w
      cells from cell 0. */
  method DecodeInto(bm: array<uint8>, patterns: seq<string>, w: int, h: int) returns (ok: bool)
    requires 0 <= w && 0 <= h && h <= |patterns| && w * h <= bm.Length
    modifies bm
    ensures ok == Decode(patterns, 0, w, h).ok
    ensures Overwrites(bm[..], old(bm[..]), 0, Decode(patterns, 0, w, h).items)
  {
    ghost var b0 := bm[..];
    ghost var done: seq<uint8> := [];
    var dest := 0;
    var y := 0;
    while y < h
      invariant 0 <= y <= h && dest == y * w && |done| == dest
      invariant Then(done, Decode(patterns, y, w, h)) == Decode(patterns, 0, w, h)
      invariant Overwrites(bm[..], b0, 0, done)
    {
      MulRowBound(y, w, h);
      ghost var b1 := bm[..];
      ghost var r := RowDecode(patterns[y], 0, w);
      DecodeStep(patterns, y, w, h, done);
      var rowOk := DecodeRow(bm, dest, patterns[y], w);
      OverwritesAppend(b0, b1, bm[..], 0, done, r.items);
      if !rowOk {
        done := done + r.items;
        return false;
      }
      MulRowStep(y, w);
      done := done + r.items;
      y, dest := y + 1, dest + w;
    }
    ok := true;
  }

  // ------------------------------------------------------------ objects

  /** `T2K_Sprite16colors`: the sprite's information and its two areas. */
  class Sprite {
    var info: SpriteInfo
    var bitmap: array?<uint8>
    var palette: array?<Rgb332>

    /** A sprite not yet initialised: invalid, with no areas. */
    constructor ()
      ensures info.spriteType == STInvalid && bitmap == null && palette == null
    {
      info := SpriteInfo(STInvalid, 0, 0, 0, 0, 0, 0, -1, false, false);
      bitmap := null;
      palette := null;
    }
  }

  /** The sprite functions' shared state: `gGlobal16colorPalette`. */
  class SpriteLib {
    const globalPalette: array<Rgb332>

    predicate Valid()
    {
      globalPalette.Length == NumOfColors
    }

    /** The global palette starts as the default one. */
    constructor ()
      ensures Valid() && globalPalette[..] == DefaultPalette
    {
      globalPalette := new Rgb332[16] (i requires 0 <= i < 16 => DefaultPalette[i]);
    }

    /** `t2kSetDefault16colorPalette`: the 16 entries of the global palette
        into the first 16 of outPalette. */
    method SetDefault16colorPalette(outPalette: array<Rgb332>)
      requires Valid() && outPalette.Length >= NumOfColors
      modifies outPalette
      ensures outPalette[..NumOfColors] == old(globalPalette[..])
      ensures outPalette[NumOfColors..] == old(outPalette[NumOfColors..])
    {
      forall i | 0 <= i < NumOfColors {
        outPalette[i] := globalPalette[i];
      }
    }

    /** `t2kInitSprite`: the information of a 16-colour sprite of w x h
        cells with its origin at (originX, originY); the palette (the
        global one, the caller's, or a new one) and the bitmap (the
        caller's or a new one of w * h cells, as intended rather than as
        written); then the decoded pattern rows. It fails at the first
        character that is no colour letter, with the rows before it
        decoded. */
    method InitSprite(sprite: Sprite, w: int, h: int, patterns: seq<string>, originX: int8, originY: int8,
                      usePalette: bool, paletteArea: array?<Rgb332>, bitmapArea: array?<uint8>) returns (ok: bool)
      requires Valid()
      requires 0 <= w && 0 <= h && h <= |patterns|
      requires bitmapArea != null ==> w * h <= bitmapArea.Length
      modifies sprite, bitmapArea
      ensures sprite.info == InitInfo(w, h, originX, originY, usePalette, paletteArea != null, bitmapArea != null)
      ensures !usePalette ==> sprite.palette == globalPalette
      ensures usePalette && paletteArea != null ==> sprite.palette == paletteArea
      ensures usePalette && paletteArea == null ==> sprite.palette != null && fresh(sprite.palette) && sprite.palette.Length == NumOfColors
      ensures bitmapArea != null ==> sprite.bitmap == bitmapArea
      ensures bitmapArea == null ==> sprite.bitmap != null && fresh(sprite.bitmap) && sprite.bitmap.Length == w * h
      ensures sprite.bitmap != null && sprite.info.width * sprite.info.height <= sprite.bitmap.Length
      ensures ok == Decode(patterns, 0, w, h).ok
      ensures sprite.bitmap != null && Decode(patterns, 0, w, h).items <= sprite.bitmap[..]
      ensures bitmapArea != null ==> Overwrites(bitmapArea[..], old(bitmapArea[..]), 0, Decode(patterns, 0, w, h).items)
    {
      sprite.info := InitInfo(w, h, originX, originY, usePalette, paletteArea != null, bitmapArea != null);
      if usePalette {
        if paletteArea == null {
          sprite.palette := new Rgb332[16];
        } else {
          sprite.palette := paletteArea;
        }
      } else {
        sprite.palette := globalPalette;
      }
      var bm: array<uint8>;
      if bitmapArea == null {
        bm := new uint8[w * h];
      } else {
        bm := bitmapArea;
      }
      sprite.bitmap := bm;
      SizeFits(w, h);
      ghost var before := bm[..];
      ok := DecodeInto(bm, patterns, w, h);
      OverwritesPrefix(bm[..], before, Decode(patterns, 0, w, h).items);
    }
  }

  /** The stored sizes never exceed the requested ones. */
  lemma SizeFits(w: int, h: int)
    requires 0 <= w && 0 <= h
    ensures ToUint8(w) * ToUint8(h) <= w * h
  {
    var a, b := ToUint8(w), ToUint8(h);
    assert a <= w && b <= h;
    assert a * b <= w * b <= w * h;
  }

  // ------------------------------------------------------------ blitting

  /** The inner loop of `t2kPutSprite` over row v of the bitmap, drawn at
      screen row t from column s = startS: a row on screen between columns
      startS and endS. */
  method BlitRow(gram: array<Rgb332>, bm: array<uint8>, w: int, pal: array<Rgb332>, tr: int,
                 left: int, top: int, v: int, startU: int, endU: int, startS: int, endS: int, t: int) returns (ok: bool)
    requires gram.Length == GRamSize && pal.Length >= NumOfColors && gram != pal
    requires 0 <= v && 0 <= startU <= endU && 0 <= w && v * w + endU <= bm.Length && bm as object != gram
    requires startS == left + startU && endS == left + endU && 0 <= startS && endS <= GRamWidth
    requires t == top + v && 0 <= t < GRamHeight
    modifies gram
    ensures ok == RowRun(bm[..], w, pal[..], tr, left, top, v, startU, endU).ok
    ensures gram[..] == Draw(old(gram[..]), RowRun(bm[..], w, pal[..], tr, left, top, v, startU, endU).items)
  {
    ghost var g0, B, P := gram[..], bm[..], pal[..];
    ghost var done: seq<Dot> := [];
    var scanline := v * w;
    var u, s := startU, startS;
    while u < endU && s < endS
      invariant startU <= u <= endU && s == left + u
      invariant pal[..] == P
      invariant bm[..] == B
      invariant Then(done, RowRun(B, w, P, tr, left, top, v, u, endU)) == RowRun(B, w, P, tr, left, top, v, startU, endU)
      invariant gram[..] == Draw(g0, done)
    {
      var index := bm[scanline + u];
      assert index == B[CellIndex(v, u, w)];
      if index >= NumOfColors {
        assert RowRun(B, w, P, tr, left, top, v, u, endU) == Scan([], false);
        assert done + [] == done;
        return false;
      }
      ghost var rest := RowRun(B, w, P, tr, left, top, v, u + 1, endU);
      if index != tr {
        var d := Dot(s, t, pal[index]);
        assert RowRun(B, w, P, tr, left, top, v, u, endU) == Then([d], rest);
        PutDot(gram, g0, done, d);
        assert done + ([d] + rest.items) == (done + [d]) + rest.items;
        done := done + [d];
      } else {
        assert RowRun(B, w, P, tr, left, top, v, u, endU) == rest;
      }
      u, s := u + 1, s + 1;
    }
    assert RowRun(B, w, P, tr, left, top, v, u, endU) == Scan([], true);
    assert done + [] == done;
    ok := true;
  }

  /** One more row of the outer loop: the screen that held the dots done
      then holds those of the row too. */
  method BlitNextRow(gram: array<Rgb332>, ghost g0: seq<Rgb332>, ghost done: seq<Dot>, bm: array<uint8>, w: int, pal: array<Rgb332>, tr: int,
                     left: int, top: int, v: int, startU: int, endU: int, startS: int, endS: int, t: int) returns (ok: bool)
    requires gram.Length == GRamSize && |g0| == GRamSize && gram[..] == Draw(g0, done)
    requires pal.Length >= NumOfColors && gram != pal
    requires 0 <= v && 0 <= startU <= endU && 0 <= w && v * w + endU <= bm.Length && bm as object != gram
    requires startS == left + startU && endS == left + endU && 0 <= startS && endS <= GRamWidth
    requires t == top + v && 0 <= t < GRamHeight
    modifies gram
    ensures ok == RowRun(bm[..], w, pal[..], tr, left, top, v, startU, endU).ok
    ensures gram[..] == Draw(g0, done + RowRun(bm[..], w, pal[..], tr, left, top, v, startU, endU).items)
  {
    ok := BlitRow(gram, bm, w, pal, tr, left, top, v, startU, endU, startS, endS, t);
    DrawAppend(g0, done, RowRun(bm[..], w, pal[..], tr, left, top, v, startU, endU).items);
  }

  /** One row of the outer loop of `t2kPutSprite`: the dots so far and
      the rest of the run after one more row. */
  lemma RowsRunStep(bm: seq<uint8>, w: int, h: int, pal: seq<Rgb332>, tr: int, left: int, top: int, win: Window, v: int,
                    done: seq<Dot>, total: Scan<Dot>)
    requires 0 <= w && 0 <= win.startU && win.endU <= w && win.endV <= h && w * h <= |bm| && |pal| >= NumOfColors
    requires 0 <= v < win.endV && v * w + win.endU <= |bm|
    requires Then(done, RowsRun(bm, w, h, pal, tr, left, top, win, v)) == total
    ensures var row := RowRun(bm, w, pal, tr, left, top, v, win.startU, win.endU);
      (!row.ok ==> total == Scan(done + row.items, false))
      && (row.ok ==> Then(done + row.items, RowsRun(bm, w, h, pal, tr, left, top, win, v + 1)) == total)
  {
    var row := RowRun(bm, w, pal, tr, left, top, v, win.startU, win.endU);
    var rest := RowsRun(bm, w, h, pal, tr, left, top, win, v + 1);
    if row.ok {
      assert RowsRun(bm, w, h, pal, tr, left, top, win, v) == Then(row.items, rest);
      assert done + (row.items + rest.items) == (done + row.items) + rest.items;
    }
  }

  /** The outer loop of `t2kPutSprite` over the rows of window win, drawn
      from screen row startT. */
  method BlitRows(gram: array<Rgb332>, bm: array<uint8>, w: int, h: int, pal: array<Rgb332>, tr: int,
                  left: int, top: int, win: Window, startS: int, endS: int, startT: int, endT: int) returns (ok: bool)
    requires gram.Length == GRamSize && pal.Length >= NumOfColors && gram != pal && bm as object != gram
    requires 0 <= w && w * h <= bm.Length
    requires 0 <= win.startU <= win.endU <= w && 0 <= win.startV <= win.endV <= h
    requires startS == left + win.startU && endS == left + win.endU && 0 <= startS && endS <= GRamWidth
    requires startT == top + win.startV && endT == top + win.endV && 0 <= startT && endT <= GRamHeight
    modifies gram
    ensures ok == RowsRun(bm[..], w, h, pal[..], tr, left, top, win, win.startV).ok
    ensures gram[..] == Draw(old(gram[..]), RowsRun(bm[..], w, h, pal[..], tr, left, top, win, win.startV).items)
  {
    ghost var g0, B, P := gram[..], bm[..], pal[..];
    ghost var total := RowsRun(B, w, h, P, tr, left, top, win, win.startV);
    ghost var done: seq<Dot> := [];
    var t, v := startT, win.startV;
    while v < win.endV && t < endT
      invariant win.startV <= v <= win.endV && t == top + v
      invariant pal[..] == P
      invariant bm[..] == B
      invariant Then(done, RowsRun(B, w, h, P, tr, left, top, win, v)) == total
      invariant gram[..] == Draw(g0, done)
    {
      MulRowBound(v, w, h);
      ghost var row := RowRun(B, w, P, tr, left, top, v, win.startU, win.endU);
      RowsRunStep(B, w, h, P, tr, left, top, win, v, done, total);
      var rowOk := BlitNextRow(gram, g0, done, bm, w, pal, tr, left, top, v, win.startU, win.endU, startS, endS, t);
      if !rowOk {
        return false;
      }
      done := done + row.items;
      t, v := t + 1, v + 1;
    }
    assert RowsRun(B, w, h, P, tr, left, top, win, v) == Scan([], true);
    assert done + [] == done;
    ok := true;
  }

  /** `t2kPutSprite`: the sprite with its origin at (x, y), clipped to the
      screen, in the custom palette if one is given and else in its own.
      It fails without drawing for a sprite without a bitmap or without
      any palette, and stops with false at the first index of 16 or more,
      with the cells before it drawn. */
  method PutSprite(sprite: Sprite, x: int, y: int, customPalette: array?<Rgb332>, gram: array<Rgb332>) returns (ok: bool)
    requires gram.Length == GRamSize
    requires sprite.bitmap != null ==> sprite.info.width * sprite.info.height <= sprite.bitmap.Length
    requires sprite.bitmap != null ==> sprite.bitmap as object != gram
    requires customPalette != null ==> customPalette.Length >= NumOfColors && customPalette != gram
    requires customPalette == null && sprite.palette != null ==> sprite.palette.Length >= NumOfColors && sprite.palette != gram
    modifies gram
    ensures sprite.bitmap == null || (sprite.palette == null && customPalette == null) ==>
      !ok && gram[..] == old(gram[..])
    ensures sprite.bitmap != null && customPalette != null ==>
      var r := PutSpriteRun(sprite.bitmap[..], sprite.info, customPalette[..], x, y);
      ok == r.ok && gram[..] == Draw(old(gram[..]), r.items)
    ensures sprite.bitmap != null && customPalette == null && sprite.palette != null ==>
      var r := PutSpriteRun(sprite.bitmap[..], sprite.info, sprite.palette[..], x, y);
      ok == r.ok && gram[..] == Draw(old(gram[..]), r.items)
  {
    if sprite.bitmap == null || (sprite.palette == null && customPalette == null) {
      return false;
    }
    var area := HasVisibleArea(sprite.info, x, y);
    if area.None? {
      return true;
    }
    var b := area.value;
    var w, h := sprite.info.width, sprite.info.height;
    var palette := if customPalette != null then customPalette else sprite.palette;
    var tr := sprite.info.transparentColor;
    var win := BitmapWindow(b, w, h);
    var startS := if b.left < 0 then 0 else b.left;
    var endS := if GRamWidth < b.right then GRamWidth else b.right;
    var startT := if b.top < 0 then 0 else b.top;
    var endT := if GRamHeight < b.bottom then GRamHeight else b.bottom;
    WindowOnScreen(sprite.info, x, y);
    ok := BlitRows(gram, sprite.bitmap, w, h, palette, tr, b.left, b.top, win, startS, endS, startT, endT);
  }
}
