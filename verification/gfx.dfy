/**
 * The text layer of gfx.c: an Adafruit-GFX style font (glyph table plus one
 * concatenated 1-bit-per-pixel bitmap), the renderer GFX_WriteChar that
 * unpacks a glyph into LCD_DrawPixel / LCD_DrawFillRect calls, and the
 * cursor state machine of GFX_DrawChar and GFX_DrawText. The GFX_* globals
 * are the fields of the class TextRenderer; the LCD driver they draw
 * through is its Panel.
 */
module Gfx {
  import opened Bytes
  import opened Ili9341
  import opened Lcd

  // ---------------------------------------------------------------------
  // Fonts
  // ---------------------------------------------------------------------

  /** GFXglyph: where the glyph's bits start, its size, advance and offset from the cursor. */
  datatype Glyph = Glyph(bitmapOffset: u16, width: u8, height: u8, xAdvance: u8, xOffset: i8, yOffset: i8)

  /** GFXfont: the concatenated bitmaps, the glyph table for codes first..last, and the line height. */
  datatype Font = Font(bitmap: seq<bv8>, glyphs: seq<Glyph>, first: u16, last: u16, yAdvance: u8)

  /** The index of the first bit of row `yy` of a glyph `w` pixels wide: rows follow each other unpadded. */
  function RowStart(w: nat, yy: nat): nat
  {
    if yy == 0 then 0 else RowStart(w, yy - 1) + w
  }

  /** The bit number of pixel (xx, yy) in a glyph `w` pixels wide. */
  function PixelIndex(w: nat, xx: nat, yy: nat): nat
  {
    RowStart(w, yy) + xx
  }

  /** The number of bitmap bytes a glyph occupies: its w*h bits, rounded up to whole bytes. */
  function GlyphBytes(g: Glyph): nat
  {
    (RowStart(g.width as int, g.height as int) + 7) / 8
  }

  /** A glyph's bytes lie inside the font's bitmap. */
  predicate GlyphFits(font: Font, g: Glyph)
  {
    g.bitmapOffset as int + GlyphBytes(g) <= |font.bitmap|
  }

  /**
   * The fonts the driver is built with: 8-bit character codes, one glyph per
   * code from first to last, each glyph inside a bitmap that a uint16_t
   * offset can address.
   */
  predicate WellFormedFont(font: Font)
  {
    font.first < 0x100 && font.first <= font.last &&
    |font.glyphs| == font.last as int - font.first as int + 1 &&
    |font.bitmap| <= 0x1_0000 &&
    forall i | 0 <= i < |font.glyphs| :: GlyphFits(font, font.glyphs[i])
  }

  /** A byte shifted left `j` times, as the renderer's `bits <<= 1` does once per pixel. */
  function ShiftLeft(b: bv8, j: nat): bv8
  {
    if j == 0 then b else ShiftLeft(b, j - 1) << 1
  }

  /**
   * Bit `k` of the bitmap that starts at `offset`, counting from the most
   * significant bit of each byte and running on from one row to the next
   * without padding: bit 7 of byte k / 8 once shifted left k % 8 times.
   */
  predicate GlyphBit(bitmap: seq<bv8>, offset: nat, k: nat)
  {
    offset + k / 8 < |bitmap| && ShiftLeft(bitmap[offset + k / 8], k % 8) & 0x80 != 0
  }

  /** Bit 7 of a byte shifted left `j` times is bit 7 - j of the byte: GlyphBit reads the glyph MSB first. */
  lemma ShiftLeftTop(b: bv8, j: nat)
    requires j < 8
    ensures ShiftLeft(b, j) & 0x80 != 0 <==> b & (0x80 >> j) != 0
  {
    ShiftLeftIs(b, j);
    ShiftedTop(b, j);
  }

  /** Shifting left once `j` times is shifting left by `j`. */
  lemma {:induction false} ShiftLeftIs(b: bv8, j: nat)
    requires j < 8
    ensures ShiftLeft(b, j) == b << j
  {
    if j > 0 {
      ShiftLeftIs(b, j - 1);
      ShiftOnce(b, j - 1);
    }
  }

  lemma ShiftedTop(b: bv8, j: nat)
    requires j < 8
    ensures (b << j) & 0x80 != 0 <==> b & (0x80 >> j) != 0
  {
  }

  lemma ShiftOnce(b: bv8, j: nat)
    requires j < 7
    ensures (b << j) << 1 == b << (j + 1)
  {
    if j < 4 {
      if j < 2 {
      } else {
      }
    } else {
      if j < 6 {
      } else {
      }
    }
  }

  /** How many of the first `n` bits from `offset` are set. */
  function SetBits(bitmap: seq<bv8>, offset: nat, n: nat): nat
  {
    if n == 0 then 0
    else SetBits(bitmap, offset, n - 1) + if GlyphBit(bitmap, offset, n - 1) then 1 else 0
  }

  /** Every bit of a glyph lies in its GlyphBytes bytes. */
  lemma BitWithinGlyph(g: Glyph, xx: nat, yy: nat)
    requires xx < g.width && yy < g.height
    ensures (RowStart(g.width as int, yy) + xx) / 8 < GlyphBytes(g)
  {
    var w, h := g.width as int, g.height as int;
    var b := RowStart(w, h);
    RowStartMonotone(w, yy + 1, h);
    DivLeq(RowStart(w, yy) + xx, b - 1);
    DivMod(b + 7, 8, (b - 1) / 8 + 1, (b - 1) % 8);
  }

  /**
   * Conversely, every one of the glyph's GlyphBytes bytes holds a pixel bit:
   * byte j holds the bit of pixel number 8j, so GFX_WriteChar reads all of
   * them.
   */
  lemma EveryGlyphByteRead(g: Glyph, j: nat)
    requires j < GlyphBytes(g)
    ensures exists xx: nat, yy: nat {:trigger PixelIndex(g.width as int, xx, yy)} ::
      xx < g.width && yy < g.height && PixelIndex(g.width as int, xx, yy) / 8 == j
  {
    var w, h := g.width as int, g.height as int;
    var k := 8 * j;
    PixelRow(w, h, k);
    var yy: nat :| yy < h && RowStart(w, yy) <= k < RowStart(w, yy) + w;
    var xx: nat := k - RowStart(w, yy);
    assert PixelIndex(w, xx, yy) / 8 == j;
  }

  /** Bit `k` of the first `rows` rows lies in one of those rows. */
  lemma {:induction false} PixelRow(w: nat, rows: nat, k: nat)
    requires k < RowStart(w, rows)
    ensures exists yy: nat :: yy < rows && RowStart(w, yy) <= k < RowStart(w, yy) + w
  {
    if k < RowStart(w, rows - 1) {
      PixelRow(w, rows - 1, k);
    } else {
      assert RowStart(w, rows - 1) <= k < RowStart(w, rows - 1) + w;
    }
  }

  /** The next row starts one row width further on. */
  lemma RowStartNext(w: nat, yy: nat, k: nat, next: nat, k': nat)
    requires k == RowStart(w, yy) && next == yy + 1 && k' == k + w
    ensures k' == RowStart(w, next)
  {
  }

  /** Later rows start later. */
  lemma {:induction false} RowStartMonotone(w: nat, a: nat, b: nat)
    requires a <= b
    ensures RowStart(w, a) <= RowStart(w, b)
  {
    if a < b {
      RowStartMonotone(w, a, b - 1);
    }
  }

  /** Division by 8 is monotone. */
  lemma DivLeq(a: int, b: int)
    requires a <= b
    ensures a / 8 <= b / 8
  {
  }

  // ---------------------------------------------------------------------
  // The calls gfx.c makes into the LCD driver
  // ---------------------------------------------------------------------

  /** LCD_DrawPixel(x, y, color) or LCD_DrawFillRect(x, y, w, h, color). */
  datatype Call =
    | Pixel(x: i16, y: i16, color: u16)
    | FillRect(x: i16, y: i16, w: i16, h: i16, color: u16)

  /** What the LCD driver sends for one call. */
  function CallEvents(c: Call, width: u16, height: u16): seq<Event>
  {
    match c
    case Pixel(x, y, color) => DrawPixelEvents(x, y, color, width, height)
    case FillRect(x, y, w, h, color) => FillRectEvents(x, y, w, h, color, width, height)
  }

  /** The LCD driver as GFX sees it: the transactions a call puts on the bus of a `width` x `height` screen. */
  type Driver = (Call, u16, u16) -> seq<Event>

  /** `send` answers every call as LCD_DrawPixel and LCD_DrawFillRect of the Lcd module do. */
  ghost predicate IsLcdDriver(send: Driver)
  {
    forall c, width, height {:trigger CallEvents(c, width, height)} :: send(c, width, height) == CallEvents(c, width, height)
  }

  /** What the LCD driver sends for a sequence of calls, in order. */
  function CallsEvents(send: Driver, cs: seq<Call>, width: u16, height: u16): seq<Event>
  {
    EventsUpTo(send, cs, |cs|, width, height)
  }

  /** What the LCD driver sends for the first `n` of a sequence of calls. */
  function EventsUpTo(send: Driver, cs: seq<Call>, n: nat, width: u16, height: u16): seq<Event>
    requires n <= |cs|
  {
    if n == 0 then [] else EventsUpTo(send, cs, n - 1, width, height) + send(cs[n - 1], width, height)
  }

  /** The first `n` calls of a + b are the first `n` of `a` when `a` has that many. */
  lemma {:induction false} EventsUpToPrefix(send: Driver, a: seq<Call>, b: seq<Call>, n: nat, width: u16, height: u16)
    requires n <= |a|
    ensures EventsUpTo(send, a + b, n, width, height) == EventsUpTo(send, a, n, width, height)
  {
    if n > 0 {
      EventsUpToPrefix(send, a, b, n - 1, width, height);
      assert (a + b)[n - 1] == a[n - 1];
    }
  }

  /** The first |a| + j calls of a + b send all of `a`'s transactions, then those of the first `j` of `b`. */
  lemma {:induction false} EventsUpToAppend(send: Driver, a: seq<Call>, b: seq<Call>, j: nat, width: u16, height: u16)
    requires j <= |b|
    ensures EventsUpTo(send, a + b, |a| + j, width, height) == EventsUpTo(send, a, |a|, width, height) + EventsUpTo(send, b, j, width, height)
  {
    if j == 0 {
      EventsUpToPrefix(send, a, b, |a|, width, height);
    } else {
      EventsUpToAppend(send, a, b, j - 1, width, height);
      assert (a + b)[|a| + j - 1] == b[j - 1];
      AppendAssoc(EventsUpTo(send, a, |a|, width, height), EventsUpTo(send, b, j - 1, width, height), send(b[j - 1], width, height));
    }
  }

  /** A single call sends its own transactions. */
  lemma CallsEventsSingle(send: Driver, c: Call, width: u16, height: u16)
    ensures CallsEvents(send, [c], width, height) == send(c, width, height)
  {
    assert EventsUpTo(send, [c], 0, width, height) == [];
  }

  /** Making calls one after the other sends their transactions one after the other. */
  lemma CallsEventsAppend(send: Driver, a: seq<Call>, b: seq<Call>, width: u16, height: u16)
    ensures CallsEvents(send, a + b, width, height) == CallsEvents(send, a, width, height) + CallsEvents(send, b, width, height)
  {
    EventsUpToAppend(send, a, b, |b|, width, height);
  }

  /** A trace that holds the transactions of `a` and then those of `b` holds the transactions of a + b. */
  lemma CallsTrace(send: Driver, start: seq<Event>, trace: seq<Event>, a: seq<Call>, b: seq<Call>, width: u16, height: u16)
    requires trace == start + CallsEvents(send, a, width, height)
    ensures trace + CallsEvents(send, b, width, height) == start + CallsEvents(send, a + b, width, height)
  {
    CallsEventsAppend(send, a, b, width, height);
  }

  // ---------------------------------------------------------------------
  // What GFX_WriteChar calls
  // ---------------------------------------------------------------------

  /** The position, colour and magnification GFX_WriteChar is called with. */
  datatype Pen = Pen(x: i16, y: i16, color: u16, sizeX: u8, sizeY: u8)

  /** xo16 / yo16 of GFX_WriteChar: the glyph offset, counted only when a size exceeds 1. */
  function Offset16(pen: Pen, offset: i8): i16
  {
    if pen.sizeX > 1 || pen.sizeY > 1 then offset else 0
  }

  /** The corner of a magnified cell, `base + (offset + cell) * size`, passed as int16_t. */
  function Scaled(base: i16, offset: i16, cell: int, size: u8): i16
  {
    I16(base + (offset + cell) * size)
  }

  /**
   * The call GFX_WriteChar makes for a set glyph pixel (xx, yy): a pixel at
   * the glyph's offset from the pen at size 1x1, otherwise a size_x by
   * size_y block at the scaled position. Coordinates are passed as int16_t.
   */
  function CellCall(g: Glyph, pen: Pen, xx: int, yy: int): Call
  {
    if pen.sizeX == 1 && pen.sizeY == 1 then
      Pixel(I16(pen.x + g.xOffset + xx), I16(pen.y + g.yOffset + yy), pen.color)
    else
      FillRect(Scaled(pen.x, Offset16(pen, g.xOffset), xx, pen.sizeX),
        Scaled(pen.y, Offset16(pen, g.yOffset), yy, pen.sizeY), pen.sizeX, pen.sizeY, pen.color)
  }

  /** The calls for the first `n` pixels of row `yy`, left to right: one per set bit. */
  function RowCalls(font: Font, g: Glyph, pen: Pen, yy: nat, n: nat): seq<Call>
  {
    if n == 0 then []
    else
      RowCalls(font, g, pen, yy, n - 1) +
      if GlyphBit(font.bitmap, g.bitmapOffset as int, RowStart(g.width as int, yy) + (n - 1))
      then [CellCall(g, pen, n - 1, yy)] else []
  }

  /** The calls for the first `rows` rows of a glyph, top to bottom. */
  function GlyphCalls(font: Font, g: Glyph, pen: Pen, rows: nat): seq<Call>
  {
    if rows == 0 then []
    else GlyphCalls(font, g, pen, rows - 1) + RowCalls(font, g, pen, rows - 1, g.width as int)
  }

  /** A trace that holds the first `xx` calls of row `yy`, then the call for pixel `xx` if it is set, holds the first `next` = xx + 1. */
  lemma RowCallsStep(send: Driver, start: seq<Event>, mid: seq<Event>, trace: seq<Event>, font: Font, g: Glyph, pen: Pen, yy: nat, k: nat,
                     xx: nat, next: nat, width: u16, height: u16)
    requires k == RowStart(g.width as int, yy) && next == xx + 1
    requires mid == start + CallsEvents(send, RowCalls(font, g, pen, yy, xx), width, height)
    requires GlyphBit(font.bitmap, g.bitmapOffset as int, k + xx) ==>
      trace == mid + CallsEvents(send, [CellCall(g, pen, xx, yy)], width, height)
    requires !GlyphBit(font.bitmap, g.bitmapOffset as int, k + xx) ==> trace == mid
    ensures trace == start + CallsEvents(send, RowCalls(font, g, pen, yy, next), width, height)
  {
    var done := RowCalls(font, g, pen, yy, xx);
    if GlyphBit(font.bitmap, g.bitmapOffset as int, k + xx) {
      CallsTrace(send, start, mid, done, [CellCall(g, pen, xx, yy)], width, height);
    } else {
      assert RowCalls(font, g, pen, yy, next) == done;
    }
  }

  /** A trace that holds the first `n` calls of a row holds the first `n'` when n == n'. */
  lemma RowCallsMoved(send: Driver, start: seq<Event>, trace: seq<Event>, font: Font, g: Glyph, pen: Pen, yy: nat,
                      n: nat, n': nat, width: u16, height: u16)
    requires n == n' && trace == start + CallsEvents(send, RowCalls(font, g, pen, yy, n), width, height)
    ensures trace == start + CallsEvents(send, RowCalls(font, g, pen, yy, n'), width, height)
  {
  }

  /** A trace that holds the first `yy` rows and then row `yy` holds the first `next` = yy + 1 rows. */
  lemma GlyphCallsStep(send: Driver, start: seq<Event>, mid: seq<Event>, trace: seq<Event>, font: Font, g: Glyph, pen: Pen, yy: nat,
                       next: nat, width: u16, height: u16)
    requires next == yy + 1
    requires mid == start + CallsEvents(send, GlyphCalls(font, g, pen, yy), width, height)
    requires trace == mid + CallsEvents(send, RowCalls(font, g, pen, yy, g.width as int), width, height)
    ensures trace == start + CallsEvents(send, GlyphCalls(font, g, pen, next), width, height)
  {
    CallsTrace(send, start, mid, GlyphCalls(font, g, pen, yy), RowCalls(font, g, pen, yy, g.width as int), width, height);
  }

  /** The glyph GFX_WriteChar looks up: `c - first` stored back into an unsigned char. */
  function WriteCharIndex(font: Font, c: u8): nat
  {
    (c - font.first as int) % 0x100
  }

  /** For a code in the font, GFX_WriteChar's index is GFX_DrawChar's: both fetch GlyphFor(font, c). */
  lemma WriteCharIndexInFont(font: Font, c: u8)
    requires WellFormedFont(font) && InFont(font, c)
    ensures WriteCharIndex(font, c) == c - font.first % 0x100 < |font.glyphs|
    ensures font.glyphs[WriteCharIndex(font, c)] == GlyphFor(font, c)
  {
    DivMod(font.first, 0x100, 0, font.first);
    DivMod(c - font.first, 0x100, 0, c - font.first);
  }

  /** A row makes exactly one call per set bit among its pixels. */
  lemma {:induction false} RowCallsCount(font: Font, g: Glyph, pen: Pen, yy: nat, n: nat)
    ensures |RowCalls(font, g, pen, yy, n)| ==
      SetBits(font.bitmap, g.bitmapOffset as int, RowStart(g.width as int, yy) + n) -
      SetBits(font.bitmap, g.bitmapOffset as int, RowStart(g.width as int, yy))
  {
    if n > 0 {
      RowCallsCount(font, g, pen, yy, n - 1);
    }
  }

  /** GFX_WriteChar makes exactly one call per set bit of the glyph: a blank glyph draws nothing. */
  lemma {:induction false} GlyphCallsCount(font: Font, g: Glyph, pen: Pen, rows: nat)
    ensures |GlyphCalls(font, g, pen, rows)| == SetBits(font.bitmap, g.bitmapOffset as int, RowStart(g.width as int, rows))
  {
    if rows > 0 {
      var w := g.width as int;
      GlyphCallsCount(font, g, pen, rows - 1);
      RowCallsCount(font, g, pen, rows - 1, w);
      assert RowStart(w, rows) == RowStart(w, rows - 1) + w;
      assert GlyphCalls(font, g, pen, rows) == GlyphCalls(font, g, pen, rows - 1) + RowCalls(font, g, pen, rows - 1, w);
    }
  }

  /** A call in the pen's colour: a pixel at size 1x1, otherwise a size_x by size_y block. */
  predicate PenCall(pen: Pen, c: Call)
  {
    c.color == pen.color &&
    if pen.sizeX == 1 && pen.sizeY == 1 then c.Pixel?
    else c.FillRect? && c.w == pen.sizeX && c.h == pen.sizeY
  }

  /** Every call of a row is in the pen's colour and of the pen's size. */
  lemma {:induction false} RowCallsShape(font: Font, g: Glyph, pen: Pen, yy: nat, n: nat)
    ensures forall i | 0 <= i < |RowCalls(font, g, pen, yy, n)| :: PenCall(pen, RowCalls(font, g, pen, yy, n)[i])
  {
    if n > 0 {
      RowCallsShape(font, g, pen, yy, n - 1);
    }
  }

  /** Every call GFX_WriteChar makes is in the pen's colour and of the pen's size. */
  lemma {:induction false} GlyphCallsShape(font: Font, g: Glyph, pen: Pen, rows: nat)
    ensures forall i | 0 <= i < |GlyphCalls(font, g, pen, rows)| :: PenCall(pen, GlyphCalls(font, g, pen, rows)[i])
  {
    if rows > 0 {
      GlyphCallsShape(font, g, pen, rows - 1);
      RowCallsShape(font, g, pen, rows - 1, g.width as int);
    }
  }

  /** A bit of the glyph reads the same in two bitmaps that agree on the glyph's bytes. */
  lemma BitLocal(f1: Font, f2: Font, g: Glyph, k: nat)
    requires GlyphFits(f1, g) && GlyphFits(f2, g) && k / 8 < GlyphBytes(g)
    requires f1.bitmap[g.bitmapOffset..g.bitmapOffset as int + GlyphBytes(g)] ==
             f2.bitmap[g.bitmapOffset..g.bitmapOffset as int + GlyphBytes(g)]
    ensures GlyphBit(f1.bitmap, g.bitmapOffset as int, k) == GlyphBit(f2.bitmap, g.bitmapOffset as int, k)
  {
    var off := g.bitmapOffset as int;
    assert f1.bitmap[off + k / 8] == f1.bitmap[off..off + GlyphBytes(g)][k / 8];
    assert f2.bitmap[off + k / 8] == f2.bitmap[off..off + GlyphBytes(g)][k / 8];
  }

  /** A row depends only on the glyph's own bytes. */
  lemma {:induction false} RowCallsLocal(f1: Font, f2: Font, g: Glyph, pen: Pen, yy: nat, n: nat)
    requires GlyphFits(f1, g) && GlyphFits(f2, g) && yy < g.height && n <= g.width
    requires f1.bitmap[g.bitmapOffset..g.bitmapOffset as int + GlyphBytes(g)] ==
             f2.bitmap[g.bitmapOffset..g.bitmapOffset as int + GlyphBytes(g)]
    ensures RowCalls(f1, g, pen, yy, n) == RowCalls(f2, g, pen, yy, n)
  {
    if n > 0 {
      RowCallsLocal(f1, f2, g, pen, yy, n - 1);
      var k := RowStart(g.width as int, yy) + (n - 1);
      BitWithinGlyph(g, n - 1, yy);
      BitLocal(f1, f2, g, k);
      var c := if GlyphBit(f1.bitmap, g.bitmapOffset as int, k) then [CellCall(g, pen, n - 1, yy)] else [];
      assert RowCalls(f1, g, pen, yy, n) == RowCalls(f1, g, pen, yy, n - 1) + c;
      assert RowCalls(f2, g, pen, yy, n) == RowCalls(f2, g, pen, yy, n - 1) + c;
    }
  }

  /**
   * GFX_WriteChar reads only the glyph's own GlyphBytes bytes of the
   * bitmap: two fonts that agree there draw the glyph alike.
   */
  lemma {:induction false} GlyphCallsLocal(f1: Font, f2: Font, g: Glyph, pen: Pen, rows: nat)
    requires GlyphFits(f1, g) && GlyphFits(f2, g) && rows <= g.height
    requires f1.bitmap[g.bitmapOffset..g.bitmapOffset as int + GlyphBytes(g)] ==
             f2.bitmap[g.bitmapOffset..g.bitmapOffset as int + GlyphBytes(g)]
    ensures GlyphCalls(f1, g, pen, rows) == GlyphCalls(f2, g, pen, rows)
  {
    if rows > 0 {
      GlyphCallsLocal(f1, f2, g, pen, rows - 1);
      RowCallsLocal(f1, f2, g, pen, rows - 1, g.width as int);
    }
  }

  // ---------------------------------------------------------------------
  // The unpacking register of GFX_WriteChar
  // ---------------------------------------------------------------------

  /**
   * The unpacking state of GFX_WriteChar after 8 * q + r glyph pixels
   * (r < 8): the low three bits of the counter `bit` are r, `bo` has moved
   * past every byte started so far, and in the middle of a byte `bits` holds
   * byte q shifted left by the r pixels already consumed from it.
   */
  ghost predicate Register(bitmap: seq<bv8>, offset: nat, q: nat, r: nat, bo: u16, bits: bv8, bit: u8)
  {
    r < 8 && bit % 8 == r && bo == (offset + q + if r == 0 then 0 else 1) % 0x1_0000 &&
    (r != 0 ==> offset + q < |bitmap| && bits == ShiftLeft(bitmap[offset + q], r))
  }

  /** The uint8_t counter `bit` wraps at 2^8, a multiple of 8, so its low three bits count on modulo 8. */
  lemma CounterStep(bit: u8)
    ensures U8(bit + 1) % 8 == (bit % 8 + 1) % 8
  {
    var q, r := bit / 8, bit % 8;
    if bit == 0xFF {
      assert U8(bit + 1) == 0;
    } else if r == 7 {
      DivMod(bit + 1, 8, q + 1, 0);
    } else {
      DivMod(bit + 1, 8, q, r + 1);
    }
  }

  /**
   * One pixel of the unpacking loop: `if (!(bit++ & 7)) bits = bitmap[bo++];`,
   * the test `bits & 0x80`, then `bits <<= 1`. The test answers whether
   * glyph bit k = 8 * q + r is set, and the state moves on to pixel k + 1.
   */
  method NextBit(bitmap: seq<bv8>, offset: nat, ghost k: nat, ghost q: nat, ghost r: nat, bo: u16, bits: bv8, bit: u8)
    returns (bo': u16, bits': bv8, bit': u8, lit: bool, ghost q': nat, ghost r': nat)
    requires k == 8 * q + r && Register(bitmap, offset, q, r, bo, bits, bit)
    requires offset + k / 8 < |bitmap| <= 0x1_0000
    ensures k + 1 == 8 * q' + r' && Register(bitmap, offset, q', r', bo', bits', bit')
    ensures lit == GlyphBit(bitmap, offset, k)
  {
    DivMod(k, 8, q, r);
    CounterStep(bit);
    bo', bits', bit' := bo, bits, U8(bit + 1);
    if bit % 8 == 0 {
      bits' := bitmap[bo];
      bo' := U16(bo + 1);
    }
    lit := bits' & 0x80 != 0;
    bits' := bits' << 1;
    q', r' := if r == 7 then q + 1 else q, if r == 7 then 0 else r + 1;
  }

  // ---------------------------------------------------------------------
  // The cursor state machine
  // ---------------------------------------------------------------------

  const NEWLINE: u8 := 10
  const RETURN: u8 := 13

  /** The GFX_* globals other than the font. */
  datatype TextState = TextState(cursorX: i16, cursorY: i16, textColor: u16, textBgColor: u16,
                                 sizeX: u8, sizeY: u8, wrap: u8)

  /** The newline reset: column 0, one line height (times the y size) further down. */
  function NewLine(font: Font, st: TextState): TextState
  {
    st.(cursorX := 0, cursorY := I16(st.cursorY + st.sizeY * font.yAdvance))
  }

  /** GFX_DrawChar's range test, with `first` cast to uint8_t. */
  predicate InFont(font: Font, c: u8)
  {
    font.first % 0x100 <= c <= font.last
  }

  /** The glyph GFX_DrawChar looks up for an in-range code. */
  function GlyphFor(font: Font, c: u8): Glyph
    requires WellFormedFont(font) && InFont(font, c)
  {
    font.glyphs[c - font.first % 0x100]
  }

  /** The wrap test of GFX_DrawChar: the glyph's right edge would pass the screen width. */
  predicate WrapsBefore(st: TextState, g: Glyph, lcdWidth: u16)
  {
    st.wrap != 0 && st.cursorX + st.sizeX * (g.xOffset + g.width) > lcdWidth
  }

  /** Whether the glyph has a bitmap: both dimensions non-zero. */
  predicate HasBitmap(g: Glyph)
  {
    g.width > 0 && g.height > 0
  }

  /** The state just before the glyph is drawn: wrapped to a new line if needed. */
  function PreDraw(font: Font, st: TextState, g: Glyph, lcdWidth: u16): TextState
  {
    if HasBitmap(g) && WrapsBefore(st, g, lcdWidth) then NewLine(font, st) else st
  }

  /** The state after GFX_DrawChar(c) on a screen `lcdWidth` wide. */
  function CharStep(font: Font, st: TextState, lcdWidth: u16, c: u8): TextState
    requires WellFormedFont(font)
  {
    if c == NEWLINE then NewLine(font, st)
    else if c == RETURN || !InFont(font, c) then st
    else
      var g := GlyphFor(font, c);
      var pre := PreDraw(font, st, g, lcdWidth);
      pre.(cursorX := I16(pre.cursorX + st.sizeX * g.xAdvance))
  }

  /**
   * What GFX_DrawChar(c) draws: nothing for '\n', '\r', codes outside the
   * font and glyphs without a bitmap; otherwise the glyph at the cursor
   * (after any wrap) in the text colour and sizes.
   */
  function CharCalls(font: Font, st: TextState, lcdWidth: u16, c: u8): seq<Call>
    requires WellFormedFont(font)
  {
    if c == NEWLINE || c == RETURN || !InFont(font, c) then []
    else
      var g := GlyphFor(font, c);
      if !HasBitmap(g) then []
      else
        var pre := PreDraw(font, st, g, lcdWidth);
        GlyphCalls(font, g, Pen(pre.cursorX, pre.cursorY, st.textColor, st.sizeX, st.sizeY), g.height as int)
  }

  /**
   * Only the cursor ever moves: '\n' starts a new line, '\r' and codes
   * outside the font neither move it nor draw, and any other code advances
   * it by the scaled xAdvance, after a wrap when one is due.
   */
  lemma CharStepCases(font: Font, st: TextState, lcdWidth: u16, c: u8)
    requires WellFormedFont(font)
    ensures var r := CharStep(font, st, lcdWidth, c);
      && r.textColor == st.textColor && r.textBgColor == st.textBgColor
      && r.sizeX == st.sizeX && r.sizeY == st.sizeY && r.wrap == st.wrap
      && (c == NEWLINE ==> r.cursorX == 0 && r.cursorY == I16(st.cursorY + st.sizeY * font.yAdvance))
      && (c != NEWLINE && (c == RETURN || !InFont(font, c)) ==> r == st && CharCalls(font, st, lcdWidth, c) == [])
      && (c != NEWLINE && c != RETURN && InFont(font, c) ==>
            r.cursorX == I16(PreDraw(font, st, GlyphFor(font, c), lcdWidth).cursorX + st.sizeX * GlyphFor(font, c).xAdvance) &&
            r.cursorY == PreDraw(font, st, GlyphFor(font, c), lcdWidth).cursorY)
  {
  }

  /** CharStep and CharCalls for a code the font draws. */
  lemma DrawnGlyph(font: Font, st: TextState, lcdWidth: u16, c: u8)
    requires WellFormedFont(font) && c != NEWLINE && c != RETURN && InFont(font, c)
    ensures var g := GlyphFor(font, c);
      var pre := PreDraw(font, st, g, lcdWidth);
      && CharStep(font, st, lcdWidth, c) == pre.(cursorX := I16(pre.cursorX + st.sizeX * g.xAdvance))
      && CharCalls(font, st, lcdWidth, c) ==
           if HasBitmap(g) then GlyphCalls(font, g, Pen(pre.cursorX, pre.cursorY, st.textColor, st.sizeX, st.sizeY), g.height as int)
           else []
  {
  }

  /** A due wrap happens before the glyph is drawn: it is drawn at column 0 of the next line. */
  lemma WrapThenDraw(font: Font, st: TextState, lcdWidth: u16, c: u8)
    requires WellFormedFont(font) && c != NEWLINE && c != RETURN && InFont(font, c)
    requires HasBitmap(GlyphFor(font, c)) && WrapsBefore(st, GlyphFor(font, c), lcdWidth)
    ensures var g := GlyphFor(font, c);
      CharCalls(font, st, lcdWidth, c) ==
      GlyphCalls(font, g, Pen(0, I16(st.cursorY + st.sizeY * font.yAdvance), st.textColor, st.sizeX, st.sizeY), g.height as int)
    ensures CharStep(font, st, lcdWidth, c).cursorX == I16(st.sizeX * GlyphFor(font, c).xAdvance)
  {
  }

  /** The characters GFX_DrawText passes on: those before the first NUL, at most 128 of them. */
  function DrawnText(text: seq<u8>): (r: seq<u8>)
    ensures |r| <= 128 && |r| <= |text| && r == text[..|r|] && 0 !in r
    ensures |r| < 128 && |r| < |text| ==> text[|r|] == 0
  {
    TextPrefix(text, 128)
  }

  function TextPrefix(text: seq<u8>, budget: nat): (r: seq<u8>)
    ensures |r| <= budget && |r| <= |text| && r == text[..|r|] && 0 !in r
    ensures |r| < budget && |r| < |text| ==> text[|r|] == 0
  {
    if budget == 0 || text == [] || text[0] == 0 then []
    else
      var r := [text[0]] + TextPrefix(text[1..], budget - 1);
      assert text[..|r|] == [text[0]] + text[1..][..|r| - 1];
      r
  }

  /** The state after GFX_DrawChar on each character in turn. */
  function RunText(font: Font, st: TextState, lcdWidth: u16, cs: seq<u8>): TextState
    requires WellFormedFont(font)
  {
    if cs == [] then st
    else CharStep(font, RunText(font, st, lcdWidth, cs[..|cs| - 1]), lcdWidth, cs[|cs| - 1])
  }

  /** The calls of GFX_DrawChar on each character in turn. */
  function TextCalls(font: Font, st: TextState, lcdWidth: u16, cs: seq<u8>): seq<Call>
    requires WellFormedFont(font)
  {
    if cs == [] then []
    else
      var init := cs[..|cs| - 1];
      TextCalls(font, st, lcdWidth, init) + CharCalls(font, RunText(font, st, lcdWidth, init), lcdWidth, cs[|cs| - 1])
  }

  /** One more character: GFX_DrawChar from the state the text so far left. */
  lemma TextSnoc(font: Font, st: TextState, lcdWidth: u16, cs: seq<u8>, c: u8)
    requires WellFormedFont(font)
    ensures RunText(font, st, lcdWidth, cs + [c]) == CharStep(font, RunText(font, st, lcdWidth, cs), lcdWidth, c)
    ensures TextCalls(font, st, lcdWidth, cs + [c]) ==
      TextCalls(font, st, lcdWidth, cs) + CharCalls(font, RunText(font, st, lcdWidth, cs), lcdWidth, c)
  {
    assert (cs + [c])[..|cs|] == cs;
  }

  /** One pass of GFX_DrawText: character `i` continues the state and the transactions of the first `i`. */
  lemma TextStep(send: Driver, start: seq<Event>, trace: seq<Event>, font: Font, st: TextState, lcdWidth: u16, lcdHeight: u16,
                 text: seq<u8>, i: nat)
    requires WellFormedFont(font) && i < |text|
    requires trace == start + CallsEvents(send, TextCalls(font, st, lcdWidth, text[..i]), lcdWidth, lcdHeight)
    ensures RunText(font, st, lcdWidth, text[..i + 1]) == CharStep(font, RunText(font, st, lcdWidth, text[..i]), lcdWidth, text[i])
    ensures trace + CallsEvents(send, CharCalls(font, RunText(font, st, lcdWidth, text[..i]), lcdWidth, text[i]), lcdWidth, lcdHeight) ==
      start + CallsEvents(send, TextCalls(font, st, lcdWidth, text[..i + 1]), lcdWidth, lcdHeight)
  {
    assert text[..i + 1] == text[..i] + [text[i]];
    TextSnoc(font, st, lcdWidth, text[..i], text[i]);
    CallsTrace(send, start, trace, TextCalls(font, st, lcdWidth, text[..i]),
      CharCalls(font, RunText(font, st, lcdWidth, text[..i]), lcdWidth, text[i]), lcdWidth, lcdHeight);
  }

  /** Text made of carriage returns and codes outside the font neither moves the cursor nor draws. */
  lemma {:induction false} InertText(font: Font, st: TextState, lcdWidth: u16, cs: seq<u8>)
    requires WellFormedFont(font)
    requires forall i | 0 <= i < |cs| :: cs[i] == RETURN || (cs[i] != NEWLINE && !InFont(font, cs[i]))
    ensures RunText(font, st, lcdWidth, cs) == st
    ensures TextCalls(font, st, lcdWidth, cs) == []
  {
    if cs != [] {
      InertText(font, st, lcdWidth, cs[..|cs| - 1]);
    }
  }

  // ---------------------------------------------------------------------
  // The globals of gfx.c
  // ---------------------------------------------------------------------

  class TextRenderer {
    /** The LCD driver the text is drawn through. */
    const lcd: Panel
    /** GFX_Font: set by its initialiser and never reassigned. */
    const font: Font
    /** What the driver sends for each call the renderer makes into it. */
    ghost const send: Driver
    var cursorX: i16
    var cursorY: i16
    var textColor: u16
    var textBgColor: u16
    var sizeX: u8
    var sizeY: u8
    var wrap: u8

    ghost predicate Valid()
    {
      WellFormedFont(font) && IsLcdDriver(send)
    }

    function State(): TextState
      reads this
    {
      TextState(cursorX, cursorY, textColor, textBgColor, sizeX, sizeY, wrap)
    }

    /** The static initialisers of gfx.c, with the font the build selects. */
    constructor(lcd: Panel, font: Font)
      requires WellFormedFont(font)
      ensures Valid() && this.lcd == lcd && this.font == font
      ensures State() == TextState(0, 0, 0, 0, 1, 1, 1)
    {
      this.lcd := lcd;
      this.font := font;
      this.send := CallEvents;
      cursorX, cursorY := 0, 0;
      textColor, textBgColor := 0, 0;
      sizeX, sizeY := 1, 1;
      wrap := 1;
    }

    /** GFX_SetTextSize: a size of 0 becomes 1. */
    method SetTextSize(sx: u8, sy: u8)
      modifies this
      ensures sizeX == (if sx > 0 then sx else 1) && sizeY == (if sy > 0 then sy else 1)
      ensures sizeX >= 1 && sizeY >= 1
      ensures State() == old(State()).(sizeX := sizeX, sizeY := sizeY)
    {
      sizeX := if sx > 0 then sx else 1;
      sizeY := if sy > 0 then sy else 1;
    }

    /** GFX_SetCursor: a coordinate of 0 becomes 1 (not 0). */
    method SetCursor(cx: u8, cy: u8)
      modifies this
      ensures cursorX == (if cx > 0 then cx else 1) && cursorY == (if cy > 0 then cy else 1)
      ensures 1 <= cursorX < 0x100 && 1 <= cursorY < 0x100
      ensures State() == old(State()).(cursorX := cursorX, cursorY := cursorY)
    {
      cursorX := if cx > 0 then cx else 1;
      cursorY := if cy > 0 then cy else 1;
    }

    /** GFX_SetTextColor. */
    method SetTextColor(color: u16)
      modifies this
      ensures State() == old(State()).(textColor := color)
    {
      textColor := color;
    }

    /**
     * GFX_WriteChar: unpacks glyph `c - first` (as an unsigned char) row by
     * row, one bit per pixel, most significant bit first, and makes one
     * call into the LCD driver for every set pixel.
     */
    method WriteChar(x: i16, y: i16, c: u8, color: u16, sizeX: u8, sizeY: u8)
      requires Valid() && WriteCharIndex(font, c) < |font.glyphs|
      modifies lcd`trace
      ensures lcd.width == old(lcd.width) && lcd.height == old(lcd.height)
      ensures lcd.trace == old(lcd.trace) + CallsEvents(send,
        GlyphCalls(font, font.glyphs[WriteCharIndex(font, c)], Pen(x, y, color, sizeX, sizeY),
          font.glyphs[WriteCharIndex(font, c)].height as int), lcd.width, lcd.height)
    {
      var g := font.glyphs[U8(c - font.first)];
      assert g == font.glyphs[WriteCharIndex(font, c)];
      var bo: u16 := g.bitmapOffset;
      var bits: bv8 := 0;
      var bit: u8 := 0;
      var xo16: i16, yo16: i16 := 0, 0;
      if sizeX > 1 || sizeY > 1 {
        xo16, yo16 := g.xOffset, g.yOffset;
      }
      var pen := Pen(x, y, color, sizeX, sizeY);
      ghost var k: nat, q: nat, r: nat := 0, 0, 0;
      ghost var start, width, height := lcd.trace, lcd.width, lcd.height;
      assert GlyphFits(font, g);
      var yy: u8 := 0;
      while yy < g.height
        invariant yy <= g.height && k == RowStart(g.width as int, yy as int)
        invariant k == 8 * q + r && Register(font.bitmap, g.bitmapOffset as int, q, r, bo, bits, bit)
        invariant lcd.width == width && lcd.height == height
        invariant lcd.trace == start + CallsEvents(send, GlyphCalls(font, g, pen, yy as int), width, height)
      {
        ghost var rowStart := lcd.trace;
        bo, bits, bit, q, r := WriteRow(g, pen, xo16, yo16, yy, k, q, r, bo, bits, bit);
        ghost var prev, kprev := yy, k;
        k := k + g.width as int;
        yy := yy + 1;
        RowStartNext(g.width as int, prev as int, kprev, yy as int, k);
        GlyphCallsStep(send, start, rowStart, lcd.trace, font, g, pen, prev as int, yy as int, width, height);
      }
    }

    /** The inner loop of GFX_WriteChar: row `yy` of glyph `g`, left to right. */
    method WriteRow(g: Glyph, pen: Pen, xo16: i16, yo16: i16, yy: u8, ghost k: nat, ghost q: nat, ghost r: nat,
                    bo: u16, bits: bv8, bit: u8)
      returns (bo': u16, bits': bv8, bit': u8, ghost q': nat, ghost r': nat)
      requires IsLcdDriver(send) && |font.bitmap| <= 0x1_0000 && GlyphFits(font, g) && yy < g.height
      requires k == RowStart(g.width as int, yy as int)
      requires xo16 == Offset16(pen, g.xOffset) && yo16 == Offset16(pen, g.yOffset)
      requires k == 8 * q + r && Register(font.bitmap, g.bitmapOffset as int, q, r, bo, bits, bit)
      modifies lcd`trace
      ensures lcd.width == old(lcd.width) && lcd.height == old(lcd.height)
      ensures k + g.width as int == 8 * q' + r' && Register(font.bitmap, g.bitmapOffset as int, q', r', bo', bits', bit')
      ensures lcd.trace == old(lcd.trace) + CallsEvents(send, RowCalls(font, g, pen, yy as int, g.width as int), lcd.width, lcd.height)
    {
      bo', bits', bit', q', r' := bo, bits, bit, q, r;
      ghost var rowStart, width, height := lcd.trace, lcd.width, lcd.height;
      ghost var pos := k;
      var xx: u8 := 0;
      while xx < g.width
        invariant xx <= g.width && pos == k + xx as int
        invariant lcd.width == width && lcd.height == height
        invariant pos == 8 * q' + r' && Register(font.bitmap, g.bitmapOffset as int, q', r', bo', bits', bit')
        invariant lcd.trace == rowStart + CallsEvents(send, RowCalls(font, g, pen, yy as int, xx as int), width, height)
      {
        ghost var mid := lcd.trace;
        bo', bits', bit', q', r' := WriteCell(g, pen, xo16, yo16, xx, yy, k, pos, q', r', bo', bits', bit');
        ghost var prev := xx;
        xx := xx + 1;
        pos := pos + 1;
        RowCallsStep(send, rowStart, mid, lcd.trace, font, g, pen, yy as int, k, prev as int, xx as int, width, height);
      }
      RowCallsMoved(send, rowStart, lcd.trace, font, g, pen, yy as int, xx as int, g.width as int, width, height);
    }

    /** One pixel of the inner loop of GFX_WriteChar: the next glyph bit, and the call for it when it is set. */
    method WriteCell(g: Glyph, pen: Pen, xo16: i16, yo16: i16, xx: u8, yy: u8, ghost k: nat, ghost pos: nat,
                     ghost q: nat, ghost r: nat, bo: u16, bits: bv8, bit: u8)
      returns (bo': u16, bits': bv8, bit': u8, ghost q': nat, ghost r': nat)
      requires IsLcdDriver(send) && |font.bitmap| <= 0x1_0000 && GlyphFits(font, g) && xx < g.width && yy < g.height
      requires k == RowStart(g.width as int, yy as int) && pos == k + xx as int
      requires xo16 == Offset16(pen, g.xOffset) && yo16 == Offset16(pen, g.yOffset)
      requires pos == 8 * q + r && Register(font.bitmap, g.bitmapOffset as int, q, r, bo, bits, bit)
      modifies lcd`trace
      ensures lcd.width == old(lcd.width) && lcd.height == old(lcd.height)
      ensures pos + 1 == 8 * q' + r' && Register(font.bitmap, g.bitmapOffset as int, q', r', bo', bits', bit')
      ensures GlyphBit(font.bitmap, g.bitmapOffset as int, k + xx as int) ==>
        lcd.trace == old(lcd.trace) + CallsEvents(send, [CellCall(g, pen, xx as int, yy as int)], lcd.width, lcd.height)
      ensures !GlyphBit(font.bitmap, g.bitmapOffset as int, k + xx as int) ==> lcd.trace == old(lcd.trace)
    {
      BitWithinGlyph(g, xx as int, yy as int);
      var lit;
      bo', bits', bit', lit, q', r' := NextBit(font.bitmap, g.bitmapOffset as int, pos, q, r, bo, bits, bit);
      if lit {
        DrawGlyphPixel(g, pen, xo16, yo16, xx, yy);
      }
    }

    /** The call GFX_WriteChar makes for a set pixel (xx, yy) of glyph `g`. */
    method DrawGlyphPixel(g: Glyph, pen: Pen, xo16: i16, yo16: i16, xx: u8, yy: u8)
      requires IsLcdDriver(send)
      requires xo16 == Offset16(pen, g.xOffset) && yo16 == Offset16(pen, g.yOffset)
      modifies lcd`trace
      ensures lcd.width == old(lcd.width) && lcd.height == old(lcd.height)
      ensures lcd.trace == old(lcd.trace) + CallsEvents(send, [CellCall(g, pen, xx as int, yy as int)], lcd.width, lcd.height)
    {
      ghost var cell := CellCall(g, pen, xx as int, yy as int);
      CallsEventsSingle(send, cell, lcd.width, lcd.height);
      assert send(cell, lcd.width, lcd.height) == CallEvents(cell, lcd.width, lcd.height);
      if pen.sizeX == 1 && pen.sizeY == 1 {
        lcd.DrawPixel(I16(pen.x + g.xOffset + xx), I16(pen.y + g.yOffset + yy), pen.color);
      } else {
        lcd.DrawFillRect(Scaled(pen.x, xo16, xx as int, pen.sizeX), Scaled(pen.y, yo16, yy as int, pen.sizeY),
          pen.sizeX, pen.sizeY, pen.color);
      }
    }

    /**
     * GFX_DrawChar: '\n' moves to the start of the next line, '\r' and codes
     * outside the font are ignored, any other code is drawn at the cursor
     * (wrapping first when the glyph would pass the right edge) and advances
     * the cursor.
     */
    method DrawChar(c: u8)
      requires Valid()
      modifies this, lcd`trace
      ensures lcd.width == old(lcd.width) && lcd.height == old(lcd.height)
      ensures State() == CharStep(font, old(State()), lcd.width, c)
      ensures lcd.trace == old(lcd.trace) + CallsEvents(send, CharCalls(font, old(State()), lcd.width, c), lcd.width, lcd.height)
    {
      if c == NEWLINE {
        cursorX := 0;
        cursorY := I16(cursorY + sizeY * font.yAdvance);
      } else if c != RETURN {
        var first: u8 := font.first % 0x100;
        if first <= c && c <= font.last {
          DrawGlyph(c);
        }
      }
    }

    /** The in-font branch of GFX_DrawChar: wrap if due, draw if the glyph has a bitmap, advance. */
    method DrawGlyph(c: u8)
      requires Valid() && c != NEWLINE && c != RETURN && InFont(font, c)
      modifies this, lcd`trace
      ensures lcd.width == old(lcd.width) && lcd.height == old(lcd.height)
      ensures State() == CharStep(font, old(State()), lcd.width, c)
      ensures lcd.trace == old(lcd.trace) + CallsEvents(send, CharCalls(font, old(State()), lcd.width, c), lcd.width, lcd.height)
    {
      ghost var st := State();
      var first: u8 := font.first % 0x100;
      var g := font.glyphs[c - first];
      assert g == GlyphFor(font, c);
      ghost var pre := PreDraw(font, st, g, lcd.width);
      DrawnGlyph(font, st, lcd.width, c);
      if g.width > 0 && g.height > 0 {
        WrapIfDue(g);
        WriteCharIndexInFont(font, c);
        WriteChar(cursorX, cursorY, c, textColor, sizeX, sizeY);
      }
      cursorX := I16(cursorX + sizeX * g.xAdvance);
    }

    /** The wrap of GFX_DrawChar: a glyph that would pass the right edge starts a new line. */
    method WrapIfDue(g: Glyph)
      requires HasBitmap(g)
      modifies this`cursorX, this`cursorY
      ensures State() == PreDraw(font, old(State()), g, lcd.width)
    {
      var xo: i16 := g.xOffset;
      if wrap != 0 && cursorX + sizeX * (xo + g.width) > lcd.width {
        cursorX := 0;
        cursorY := I16(cursorY + sizeY * font.yAdvance);
      }
    }

    /**
     * GFX_DrawText: GFX_DrawChar on each character up to the terminating NUL,
     * stopping after 128 characters. The C loop reads the character before it
     * tests the count, so the text must hold a byte at index
     * |DrawnText(text)|: the NUL, or a 129th byte.
     */
    method DrawText(text: seq<u8>)
      requires Valid() && |DrawnText(text)| < |text|
      modifies this, lcd`trace
      ensures lcd.width == old(lcd.width) && lcd.height == old(lcd.height)
      ensures State() == RunText(font, old(State()), lcd.width, DrawnText(text))
      ensures lcd.trace == old(lcd.trace) + CallsEvents(send, TextCalls(font, old(State()), lcd.width, DrawnText(text)), lcd.width, lcd.height)
    {
      ghost var drawn := DrawnText(text);
      var overrun: u16 := 128;
      var i := 0;
      while text[i] != 0 && overrun != 0
        invariant 0 <= i <= |drawn| && overrun == 128 - i
        invariant i < |drawn| ==> text[i] != 0 && i < 128
        invariant State() == RunText(font, old(State()), lcd.width, text[..i])
        invariant lcd.trace == old(lcd.trace) + CallsEvents(send, TextCalls(font, old(State()), lcd.width, text[..i]), lcd.width, lcd.height)
        decreases overrun
      {
        TextStep(send, old(lcd.trace), lcd.trace, font, old(State()), lcd.width, lcd.height, text, i);
        DrawChar(text[i]);
        i := i + 1;
        overrun := overrun - 1;
      }
      assert text[..i] == drawn;
    }
  }
}
