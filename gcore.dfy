/** The framebuffer core: two 160×120 RGB332 buffers, one drawn into while
    the other is on screen; the pixel address and bounds macros; colour
    packing; and what `flip` sends to the 320×240 LCD: every pixel turned
    into byte-swapped RGB565 and doubled in both directions, in eight strips
    of fifteen source rows. */
module GCore {
  import opened Wrappers

  const GRamWidth := 160
  const GRamHeight := 120
  const GRamSize := 19200

  /** A pixel: three bits of red, three of green, two of blue. */
  type Rgb332 = bv8

  // ------------------------------------------------------------ addresses

  /** The address of pixel (x, y) in a buffer, row after row. */
  function FBA(x: int, y: int): (a: int)
    ensures 0 <= x < GRamWidth ==> y * GRamWidth <= a < (y + 1) * GRamWidth && a - y * GRamWidth == x
  {
    160 * y + x
  }

  predicate IsValidXY(x: int, y: int)
    ensures IsValidXY(x, y) ==> 0 <= FBA(x, y) < GRamSize
  {
    x >= 0 && x < GRamWidth && 0 <= y && y < GRamHeight
  }

  predicate IsInvalidXY(x: int, y: int)
  {
    x < 0 || GRamWidth <= x || y < 0 || GRamHeight <= y
  }

  /** The two bounds macros are each other's negation. */
  lemma InvalidIsNotValid(x: int, y: int)
    ensures IsInvalidXY(x, y) <==> !IsValidXY(x, y)
  {
  }

  /** On screen, the address is inside the buffer and names one pixel only. */
  lemma FbaInRange(x: int, y: int)
    requires IsValidXY(x, y)
    ensures 0 <= FBA(x, y) < GRamSize
  {
  }

  lemma FbaInjective(x: int, y: int, x': int, y': int)
    requires IsValidXY(x, y) && IsValidXY(x', y')
    requires FBA(x, y) == FBA(x', y')
    ensures x == x' && y == y'
  {
  }

  /** Every address of the buffer is the address of a pixel on screen. */
  lemma FbaOnto(k: int)
    requires 0 <= k < GRamSize
    ensures IsValidXY(k % GRamWidth, k / GRamWidth) && FBA(k % GRamWidth, k / GRamWidth) == k
  {
  }

  // ------------------------------------------------------------- colours

  /** `RGB(r, g, b)`: the low three bits of r and of g and the low two of
      b, packed as RRRGGGBB. */
  function RGB(r: bv8, g: bv8, b: bv8): (c: Rgb332)
    ensures c >> 5 == r & 0x07 && c & 0x03 == b & 0x03
  {
    ((r & 0x07) << 5) | ((g & 0x07) << 2) | (b & 0x03)
  }

  /** Each field can be read back, and nothing but the masked bits
      survives. */
  lemma RgbFields(r: bv8, g: bv8, b: bv8)
    ensures RGB(r, g, b) >> 5 == r & 0x07
    ensures (RGB(r, g, b) >> 2) & 0x07 == g & 0x07
    ensures RGB(r, g, b) & 0x03 == b & 0x03
  {
  }

  const Black: Rgb332 := RGB(0, 0, 0)
  const Blue: Rgb332 := RGB(0, 0, 3)
  const Red: Rgb332 := RGB(7, 0, 0)
  const Magenta: Rgb332 := RGB(7, 0, 3)
  const Green: Rgb332 := RGB(0, 7, 0)
  const Cyan: Rgb332 := RGB(0, 7, 3)
  const Yellow: Rgb332 := RGB(7, 7, 0)
  const White: Rgb332 := RGB(7, 7, 3)

  const BasicColours: seq<Rgb332> := [Black, Blue, Red, Magenta, Green, Cyan, Yellow, White]

  /** White is the all-ones byte that `flip` treats specially, and the
      eight named colours are eight different bytes. */
  lemma BasicColoursDistinct()
    ensures White == 0xFF
    ensures forall i, j :: 0 <= i < j < |BasicColours| ==> BasicColours[i] != BasicColours[j]
  {
  }

  // ------------------------------------------------- conversion for the LCD

  /** RGB332 widened to RGB565: each field moved to the top bits of its
      wider field. */
  function Rgb565(c: Rgb332): (w: bv16)
    ensures w >> 13 == (c >> 5) as bv16 && w & 0x18FF == ((c & 0x03) as bv16) << 3
  {
    var w := c as bv16;
    ((w & 0xE0) << 8) | ((w & 0x1C) << 6) | ((w & 0x03) << 3)
  }

  /** The two bytes of a 16-bit word exchanged, as the little-endian CPU
      must do for the big-endian LCD. */
  function ByteSwap(d: bv16): (r: bv16)
    ensures r >> 8 == d & 0xFF && r & 0xFF == d >> 8
  {
    ((d & 0xFF) << 8) | (d >> 8)
  }

  /** The colour `flip` sends for pixel c: white as 0xFFFF, any other
      colour as its byte-swapped RGB565 value. */
  function ToLcd(c: Rgb332): (w: bv16)
    ensures w == 0xFFFF <==> c == 0xFF
  {
    if c == 0xFF then 0xFFFF else ByteSwap(Rgb565(c))
  }

  lemma ByteSwapInvolutive(d: bv16)
    ensures ByteSwap(ByteSwap(d)) == d
  {
  }

  /** Red lands in bits 15..13, green in bits 10..8 and blue in bits 4..3 of
      the RGB565 word, and every other bit is clear. */
  lemma Rgb565Fields(c: Rgb332)
    ensures Rgb565(c) >> 13 == (c >> 5) as bv16
    ensures (Rgb565(c) >> 8) & 0x07 == ((c >> 2) & 0x07) as bv16
    ensures (Rgb565(c) >> 3) & 0x03 == (c & 0x03) as bv16
    ensures Rgb565(c) & 0x18E7 == 0
  {
  }

  /** Different pixels reach the LCD as different words, so the
      conversion loses no colour; only white becomes 0xFFFF, a word the
      plain conversion of 0xFF would not give. */
  lemma ToLcdInjective(a: Rgb332, b: Rgb332)
    ensures ToLcd(a) == ToLcd(b) ==> a == b
    ensures ToLcd(a) == 0xFFFF <==> a == White
    ensures ByteSwap(Rgb565(White)) != 0xFFFF
  {
    Rgb565Fields(a);
    Rgb565Fields(b);
    ByteSwapInvolutive(Rgb565(a));
    ByteSwapInvolutive(Rgb565(b));
    BasicColoursDistinct();
  }

  // ------------------------------------------------------ drawing, as values

  /** One pixel write: position and colour. */
  datatype Dot = Dot(x: int, y: int, c: Rgb332)

  /** `t2kPSet` on the buffer contents g: a dot off screen is ignored. */
  function Plot(g: seq<Rgb332>, d: Dot): (r: seq<Rgb332>)
    requires |g| == GRamSize
    ensures |r| == GRamSize
  {
    if IsValidXY(d.x, d.y) then g[FBA(d.x, d.y) := d.c] else g
  }

  /** The buffer after the dots are plotted one after the other. */
  function Draw(g: seq<Rgb332>, ds: seq<Dot>): (r: seq<Rgb332>)
    requires |g| == GRamSize
    ensures |r| == GRamSize
    decreases |ds|
  {
    if ds == [] then g else Plot(Draw(g, ds[..|ds| - 1]), ds[|ds| - 1])
  }

  /** The colour the last dot at (x, y) gives, if any dot is there. */
  function ColourAt(ds: seq<Dot>, x: int, y: int): (c: Option<Rgb332>)
    decreases |ds|
  {
    if ds == [] then None
    else if ds[|ds| - 1].x == x && ds[|ds| - 1].y == y then Some(ds[|ds| - 1].c)
    else ColourAt(ds[..|ds| - 1], x, y)
  }

  /** A colour found at (x, y) is that of a dot of the run there, and no
      colour means that no dot of the run is at (x, y). */
  lemma {:induction false} ColourAtMeaning(ds: seq<Dot>, x: int, y: int)
    ensures ColourAt(ds, x, y).Some? ==> Dot(x, y, ColourAt(ds, x, y).value) in ds
    ensures ColourAt(ds, x, y).None? <==> forall d :: d in ds ==> d.x != x || d.y != y
    decreases |ds|
  {
    if ds != [] {
      var init, last := ds[..|ds| - 1], ds[|ds| - 1];
      assert ds == init + [last];
      ColourAtMeaning(init, x, y);
    }
  }

  /** What a drawing does to one pixel on screen: it shows the colour of
      the last dot there, or keeps its colour if no dot is there. */
  lemma {:induction false} DrawPixel(g: seq<Rgb332>, ds: seq<Dot>, x: int, y: int)
    requires |g| == GRamSize && IsValidXY(x, y)
    ensures Draw(g, ds)[FBA(x, y)] == match ColourAt(ds, x, y) case Some(c) => c case None => g[FBA(x, y)]
    decreases |ds|
  {
    if ds != [] {
      var d := ds[|ds| - 1];
      DrawPixel(g, ds[..|ds| - 1], x, y);
      if IsValidXY(d.x, d.y) && FBA(d.x, d.y) == FBA(x, y) {
        FbaInjective(d.x, d.y, x, y);
      }
    }
  }

  /** One more dot is one more plot. */
  lemma DrawSnoc(g: seq<Rgb332>, ds: seq<Dot>, d: Dot)
    requires |g| == GRamSize
    ensures Draw(g, ds + [d]) == Plot(Draw(g, ds), d)
  {
    assert (ds + [d])[..|ds|] == ds;
  }

  /** One write `*p = color` of a drawing loop at a valid pixel: the
      buffer that held the dots ds now holds ds followed by that dot. */
  method PutDot(gram: array<Rgb332>, ghost g0: seq<Rgb332>, ghost ds: seq<Dot>, d: Dot)
    requires gram.Length == GRamSize && |g0| == GRamSize
    requires IsValidXY(d.x, d.y) && gram[..] == Draw(g0, ds)
    modifies gram
    ensures gram[..] == Draw(g0, ds + [d])
  {
    DrawSnoc(g0, ds, d);
    gram[FBA(d.x, d.y)] := d.c;
  }

  /** The colour at a pixel after one dot. */
  lemma ColourAtSingle(d: Dot, x: int, y: int)
    ensures ColourAt([d], x, y) == if d.x == x && d.y == y then Some(d.c) else None
  {
    assert [d][..0] == [];
  }

  /** The colour at a pixel after two runs of dots: the second run's if it
      has a dot there, else the first run's. */
  lemma {:induction false} ColourAtAppend(a: seq<Dot>, b: seq<Dot>, x: int, y: int)
    ensures ColourAt(a + b, x, y) == if ColourAt(b, x, y).Some? then ColourAt(b, x, y) else ColourAt(a, x, y)
    decreases |b|
  {
    if b != [] {
      assert (a + b)[..|a + b| - 1] == a + b[..|b| - 1];
      assert (a + b)[|a + b| - 1] == b[|b| - 1];
      ColourAtAppend(a, b[..|b| - 1], x, y);
    } else {
      assert a + b == a;
    }
  }

  /** Drawing two runs of dots is drawing the first, then the second. */
  lemma {:induction false} DrawAppend(g: seq<Rgb332>, a: seq<Dot>, b: seq<Dot>)
    requires |g| == GRamSize
    ensures Draw(g, a + b) == Draw(Draw(g, a), b)
    decreases |b|
  {
    if b != [] {
      assert (a + b)[..|a + b| - 1] == a + b[..|b| - 1];
      assert (a + b)[|a + b| - 1] == b[|b| - 1];
      DrawAppend(g, a, b[..|b| - 1]);
    } else {
      assert a + b == a;
    }
  }

  /** Dots that are all off screen change nothing. */
  lemma {:induction false} DrawOffScreen(g: seq<Rgb332>, a: seq<Dot>, b: seq<Dot>)
    requires |g| == GRamSize
    requires forall d :: d in b ==> !IsValidXY(d.x, d.y)
    ensures Draw(g, a + b) == Draw(g, a)
    decreases |b|
  {
    if b != [] {
      assert (a + b)[..|a + b| - 1] == a + b[..|b| - 1];
      assert (a + b)[|a + b| - 1] == b[|b| - 1];
      assert b[|b| - 1] in b;
      DrawOffScreen(g, a, b[..|b| - 1]);
    } else {
      assert a + b == a;
    }
  }

  // ------------------------------------------------------------ the buffers

  const NumOfDmaTransfer := 8
  const DmaWidth := 320
  const DmaBufferHeight := 30
  const GRamGapHeight := 15
  const DmaSize := 9600

  /** The colour of word k of strip i of the DMA buffer: the source pixel
      half its column across and half its row down, in the strip's fifteen
      rows. */
  function StripWord(src: seq<Rgb332>, i: nat, k: nat): bv16
    requires |src| == GRamSize && i < NumOfDmaTransfer && k < DmaSize
  {
    ToLcd(src[FBA((k % 320) / 2, 15 * i + k / 640)])
  }

  /** The eight strips `flip` sends, top to bottom. */
  function Upscaled(src: seq<Rgb332>): (strips: seq<seq<bv16>>)
    requires |src| == GRamSize
    ensures |strips| == NumOfDmaTransfer
    ensures forall i :: 0 <= i < NumOfDmaTransfer ==> |strips[i]| == DmaSize
  {
    seq(NumOfDmaTransfer, i requires 0 <= i < NumOfDmaTransfer =>
      seq(DmaSize, k requires 0 <= k < DmaSize => StripWord(src, i, k)))
  }

  /** The strips cover the LCD: strip Y / 30, sent at row 30 * (Y / 30),
      holds LCD pixel (X, Y) at word 320 * (Y % 30) + X, and it shows the
      source pixel (X / 2, Y / 2). So each source pixel fills a 2×2 block
      and all 120 source rows are sent. */
  lemma LcdPixel(src: seq<Rgb332>, x: int, y: int)
    requires |src| == GRamSize
    requires 0 <= x < DmaWidth && 0 <= y < 2 * GRamHeight
    ensures var k := 320 * (y % 30) + x;
      0 <= k < DmaSize
      && Upscaled(src)[y / 30][k] == ToLcd(src[FBA(x / 2, y / 2)])
  {
    var i, r := y / 30, y % 30;
    var k := 320 * r + x;
    assert k % 320 == x && k / 640 == r / 2;
    assert 15 * i + r / 2 == y / 2;
  }

  /** The two drawing buffers, which one is drawn into, and the DMA strip
      buffer. Allocation failure of the buffers is not modelled. */
  class FrameBuffers {
    const first: array<Rgb332>
    const second: array<Rgb332>
    const dma: array<bv16>
    var current: nat

    ghost predicate Valid()
      reads this
    {
      first.Length == GRamSize && second.Length == GRamSize && dma.Length == DmaSize
      && first != second && current < 2
    }

    /** Buffer i: 0 is the first, 1 the second. */
    function Buffer(i: nat): (b: array<Rgb332>)
      reads this
      ensures b == first || b == second
    {
      if i == 0 then first else second
    }

    /** `t2kGetFramebuffer`: the buffer being drawn into. */
    function GetFramebuffer(): (b: array<Rgb332>)
      reads this
      requires Valid()
      ensures b.Length == GRamSize && b == Buffer(current)
    {
      Buffer(current)
    }

    /** The buffer on screen: the other one. */
    function FrontBuffer(): (b: array<Rgb332>)
      reads this
      requires Valid()
      ensures b.Length == GRamSize && b == Buffer((current + 1) % 2) && b != GetFramebuffer()
    {
      Buffer((current + 1) % 2)
    }

    /** `createFramebuffer` with drawing into the first buffer. */
    constructor ()
      ensures Valid() && current == 0
      ensures fresh(first) && fresh(second) && fresh(dma)
    {
      first := new Rgb332[GRamSize];
      second := new Rgb332[GRamSize];
      dma := new bv16[DmaSize];
      current := 0;
    }

    /** `t2kFill`: every byte of the draw buffer becomes c. */
    method Fill(c: Rgb332)
      requires Valid()
      modifies GetFramebuffer()
      ensures Valid()
      ensures GetFramebuffer()[..] == seq(GRamSize, _ => c)
      ensures FrontBuffer()[..] == old(FrontBuffer()[..])
    {
      var gram := GetFramebuffer();
      forall k | 0 <= k < gram.Length {
        gram[k] := c;
      }
    }

    /** `t2kCopyFromFrontBuffer`: the draw buffer becomes a copy of the
        buffer on screen. */
    method CopyFromFrontBuffer()
      requires Valid()
      modifies GetFramebuffer()
      ensures Valid()
      ensures GetFramebuffer()[..] == old(FrontBuffer()[..])
      ensures FrontBuffer()[..] == old(FrontBuffer()[..])
    {
      var gram, front := GetFramebuffer(), FrontBuffer();
      forall k | 0 <= k < gram.Length {
        gram[k] := front[k];
      }
    }

    /** `t2kPSet`: one dot into the draw buffer, ignored off screen. */
    method PSet(x: int, y: int, c: Rgb332)
      requires Valid()
      modifies GetFramebuffer()
      ensures Valid()
      ensures GetFramebuffer()[..] == Plot(old(GetFramebuffer()[..]), Dot(x, y, c))
      ensures FrontBuffer()[..] == old(FrontBuffer()[..])
    {
      if x < 0 || GRamWidth <= x || y < 0 || GRamHeight <= y {
        return;
      }
      var gram := GetFramebuffer();
      gram[FBA(x, y)] := c;
    }

    /** `flip`: the draw buffer converted and upscaled strip by strip into
        the DMA buffer, each strip handed to the LCD in turn (returned
        here, the SPI transfer being outside the model), and the other
        buffer made the one to draw into. */
    method Flip() returns (strips: seq<seq<bv16>>)
      requires Valid()
      modifies this`current, dma
      ensures Valid()
      ensures current == 1 - old(current)
      ensures strips == Upscaled(old(GetFramebuffer()[..]))
    {
      var gram := GetFramebuffer();
      ghost var src := gram[..];
      strips := [];
      for i := 0 to NumOfDmaTransfer
        invariant current == old(current) && gram[..] == src
        invariant |strips| == i
        invariant forall j :: 0 <= j < i ==> strips[j] == Upscaled(src)[j]
      {
        var startY := 15 * i;
        FillStrip(gram, i, startY);
        assert dma[..] == Upscaled(src)[i];
        strips := strips + [dma[..]];
      }
      current := if current == 0 then 1 else 0;
    }

    /** The rows of strip i: each source pixel of rows startY .. startY+14
        into a 2×2 block of DMA words, line pair after line pair. */
    method FillStrip(gram: array<Rgb332>, i: nat, startY: nat)
      requires Valid() && gram.Length == GRamSize
      requires i < NumOfDmaTransfer && startY == 15 * i
      modifies dma
      ensures forall k :: 0 <= k < DmaSize ==> dma[k] == StripWord(gram[..], i, k)
    {
      for srcY := startY to startY + GRamGapHeight
        invariant forall k {:trigger dma[k]} :: 0 <= k < 640 * (srcY - startY) ==> dma[k] == StripWord(gram[..], i, k)
      {
        ghost var before := dma[..];
        FillLinePair(gram, srcY, 640 * (srcY - startY));
        assert forall k :: 0 <= k < 640 * (srcY - startY) ==> dma[k] == dma[..640 * (srcY - startY)][k] == before[k];
        LinePair(gram[..], i, srcY - startY);
      }
    }

    /** Source row srcY into the two DMA lines from word `row` on. */
    method FillLinePair(gram: array<Rgb332>, srcY: nat, row: nat)
      requires dma.Length == DmaSize && gram.Length == GRamSize
      requires srcY < GRamHeight && row + 640 <= DmaSize
      modifies dma
      ensures dma[..row] == old(dma[..row])
      ensures forall k :: row <= k < row + 320 ==> dma[k] == LineWord(gram[..], srcY, k - row)
      ensures forall k :: row + 320 <= k < row + 640 ==> dma[k] == LineWord(gram[..], srcY, k - row - 320)
    {
      ghost var src := gram[..];
      for srcX := 0 to GRamWidth
        invariant dma[..row] == old(dma[..row])
        invariant forall k {:trigger dma[k]} :: row <= k < row + 2 * srcX ==> dma[k] == LineWord(src, srcY, k - row)
        invariant forall k {:trigger dma[k]} :: row + 320 <= k < row + 320 + 2 * srcX ==> dma[k] == LineWord(src, srcY, k - row - 320)
      {
        var color := ToLcd(gram[FBA(srcX, srcY)]);
        var destX := 2 * srcX;
        assert color == LineWord(src, srcY, destX) == LineWord(src, srcY, destX + 1);
        dma[row + destX], dma[row + destX + 1] := color, color;
        dma[row + 320 + destX], dma[row + 320 + destX + 1] := color, color;
      }
    }
  }

  /** Word j of an LCD line showing source row y: pixel j / 2 of that row. */
  function LineWord(src: seq<Rgb332>, y: nat, j: nat): (w: bv16)
    requires |src| == GRamSize && y < GRamHeight && j < DmaWidth
  {
    ToLcd(src[FBA(j / 2, y)])
  }

  /** Each source pixel of row y fills two neighbouring words of the LCD
      line, with its colour as `flip` sends it. */
  lemma LineWordDoubled(src: seq<Rgb332>, y: nat, x: nat)
    requires |src| == GRamSize && y < GRamHeight && x < GRamWidth
    ensures LineWord(src, y, 2 * x) == LineWord(src, y, 2 * x + 1) == ToLcd(src[FBA(x, y)])
  {
    assert (2 * x) / 2 == x && (2 * x + 1) / 2 == x;
  }

  /** The two DMA lines of source row 15 * i + r, word by word. */
  lemma LinePair(src: seq<Rgb332>, i: nat, r: nat)
    requires |src| == GRamSize && i < NumOfDmaTransfer && r < GRamGapHeight
    ensures forall k :: 640 * r <= k < 640 * r + 320 ==> StripWord(src, i, k) == LineWord(src, 15 * i + r, k - 640 * r)
    ensures forall k :: 640 * r + 320 <= k < 640 * r + 640 ==> StripWord(src, i, k) == LineWord(src, 15 * i + r, k - 640 * r - 320)
  {
    forall k | 640 * r <= k < 640 * r + 640
      ensures k / 640 == r && k % 320 == if k < 640 * r + 320 then k - 640 * r else k - 640 * r - 320
    {
    }
  }
}
