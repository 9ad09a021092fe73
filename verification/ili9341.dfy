/**
 * Command protocol of the ILI9341 panel controller as driven by
 * Core/Src/lcd.c: opcodes, the shape of a transaction on the SPI bus, the
 * vendor initialisation table, the rotation-to-MADCTL mapping, 5-6-5 colour
 * packing and the big-endian framing of address windows and pixel data.
 */
module Ili9341 {
  import opened Bytes

  // Native panel size (lcd.h, LCD_WIDTH / LCD_HEIGHT).
  const TFT_WIDTH: u16 := 240
  const TFT_HEIGHT: u16 := 320

  // Opcodes (lcd.h).
  const SWRESET: u8 := 0x01
  const SLPOUT: u8 := 0x11
  const INVOFF: u8 := 0x20
  const INVON: u8 := 0x21
  const GAMMASET: u8 := 0x26
  const DISPON: u8 := 0x29
  const CASET: u8 := 0x2A
  const PASET: u8 := 0x2B
  const RAMWR: u8 := 0x2C
  const VSCRDEF: u8 := 0x33
  const MADCTL: u8 := 0x36
  const VSCRSADD: u8 := 0x37
  const PIXFMT: u8 := 0x3A
  const FRMCTR1: u8 := 0xB1
  const DFUNCTR: u8 := 0xB6
  const PWCTR1: u8 := 0xC0
  const PWCTR2: u8 := 0xC1
  const VMCTR1: u8 := 0xC5
  const VMCTR2: u8 := 0xC7
  const GMCTRP1: u8 := 0xE0
  const GMCTRN1: u8 := 0xE1

  // Memory access control bits (lcd.c).
  const MADCTL_MY: u8 := 0x80
  const MADCTL_MX: u8 := 0x40
  const MADCTL_MV: u8 := 0x20
  const MADCTL_BGR: u8 := 0x08

  /**
   * What the driver puts on the wire. `Command` is one chip-select-bracketed
   * transaction: the opcode sent in command mode, then the data bytes sent in
   * data mode. `Delay` is a call of the millisecond delay primitive.
   */
  datatype Event = Command(op: u8, data: seq<u8>) | Delay(ms: nat)

  /** Transactions appended in two steps are the same transactions as appended at once. */
  lemma AppendAssoc(a: seq<Event>, b: seq<Event>, c: seq<Event>)
    ensures a + (b + c) == (a + b) + c
  {
  }

  // ---------------------------------------------------------------------
  // Initialisation table
  // ---------------------------------------------------------------------

  /** One table entry: the command, its argument bytes, and whether a 150 ms delay follows. */
  datatype InitEntry = InitEntry(op: u8, args: seq<u8>, delay: bool)

  /** Entries that a table can hold: a non-zero opcode (zero ends the table), at most 127 arguments. */
  type TableEntry = e: InitEntry | e.op != 0 && |e.args| < 0x80
    witness InitEntry(1, [], false)

  /**
   * Reads the table from index `i` the way the pointer walk of LCD_Init does:
   * stop at a zero opcode; otherwise the length byte's bit 7 is the delay
   * flag and its bits 0-6 the number of argument bytes that follow. `None`
   * when the walk would run past the end of the table.
   */
  function ParseInit(t: seq<u8>, i: nat): Option<seq<TableEntry>>
    decreases |t| - i
  {
    if i >= |t| then None
    else if t[i] == 0 then Some([])
    else if i + 1 >= |t| then None
    else
      var n := t[i + 1] % 0x80;
      if i + 2 + n > |t| then None
      else
        match ParseInit(t, i + 2 + n)
        case None => None
        case Some(rest) =>
          var e: TableEntry := InitEntry(t[i], t[i + 2..i + 2 + n], t[i + 1] >= 0x80);
          Some([e] + rest)
  }

  /** The table bytes of one entry: opcode, length byte with the delay flag in bit 7, arguments. */
  function EntryBytes(e: TableEntry): seq<u8>
  {
    [e.op, |e.args| + if e.delay then 0x80 else 0] + e.args
  }

  /** The table bytes of a list of entries (without the terminating zero). */
  function EncodeInit(es: seq<TableEntry>): (t: seq<u8>)
  {
    if es == [] then [] else EntryBytes(es[0]) + EncodeInit(es[1..])
  }

  /** Parsing the encoding of entries, wherever it stands in a table, gives the entries back. */
  lemma {:induction false} ParseEncodeInit(t: seq<u8>, i: nat, es: seq<TableEntry>)
    requires i + |EncodeInit(es)| < |t|
    requires t[i..i + |EncodeInit(es)| + 1] == EncodeInit(es) + [0]
    ensures ParseInit(t, i) == Some(es)
    decreases |es|
  {
    if es == [] {
      assert t[i] == t[i..i + 1][0];
    } else {
      var e := es[0];
      var r := EncodeInit(es[1..]);
      assert EncodeInit(es) + [0] == EntryBytes(e) + (r + [0]);
      SliceSplit(t, i, EntryBytes(e), r + [0]);
      ParseEncodeInit(t, i + 2 + |e.args|, es[1..]);
      EntryAt(t, i, e);
      ParseStep(t, i, e, es[1..]);
      assert [e] + es[1..] == es;
    }
  }

  /** A whole table: the encoding of a list of entries followed by the terminating zero. */
  lemma ParseEncodeTable(es: seq<TableEntry>)
    ensures ParseInit(EncodeInit(es) + [0], 0) == Some(es)
  {
    var t := EncodeInit(es) + [0];
    assert t[0..|t|] == t;
    ParseEncodeInit(t, 0, es);
  }

  /** The bytes of one entry, read back from where they stand in a table. */
  lemma EntryAt(t: seq<u8>, i: nat, e: TableEntry)
    requires i + |EntryBytes(e)| <= |t| && t[i..i + |EntryBytes(e)|] == EntryBytes(e)
    ensures t[i] == e.op && t[i + 1] == |e.args| + (if e.delay then 0x80 else 0)
    ensures t[i + 2..i + 2 + |e.args|] == e.args
  {
    var b := EntryBytes(e);
    assert t[i] == b[0] && t[i + 1] == b[1];
    assert t[i + 2..i + 2 + |e.args|] == b[2..];
  }

  /** A slice that holds `a + b` holds `a` and then `b`. */
  lemma SliceSplit(t: seq<u8>, i: nat, a: seq<u8>, b: seq<u8>)
    requires i + |a| + |b| <= |t| && t[i..i + |a| + |b|] == a + b
    ensures t[i..i + |a|] == a && t[i + |a|..i + |a| + |b|] == b
  {
    assert t[i..i + |a|] == (a + b)[..|a|];
    assert t[i + |a|..i + |a| + |b|] == (a + b)[|a|..];
  }

  /** One step of the walk: a well-formed entry at `i` followed by the rest of the table. */
  lemma ParseStep(t: seq<u8>, i: nat, e: TableEntry, rest: seq<TableEntry>)
    requires i + 2 + |e.args| <= |t|
    requires t[i] == e.op && t[i + 1] == |e.args| + (if e.delay then 0x80 else 0)
    requires t[i + 2..i + 2 + |e.args|] == e.args
    requires ParseInit(t, i + 2 + |e.args|) == Some(rest)
    ensures ParseInit(t, i) == Some([e] + rest)
  {
    assert t[i + 1] % 0x80 == |e.args|;
  }

  /** Conversely, whatever the walk reads is exactly the encoding of its entries followed by the 0. */
  lemma {:induction false} ParseInitIsEncoding(t: seq<u8>, i: nat)
    requires ParseInit(t, i).Some?
    ensures i + |EncodeInit(ParseInit(t, i).value)| < |t|
    ensures t[i..i + |EncodeInit(ParseInit(t, i).value)| + 1] == EncodeInit(ParseInit(t, i).value) + [0]
    decreases |t| - i
  {
    if t[i] == 0 {
      assert t[i..i + 1] == [0];
    } else {
      var n := t[i + 1] % 0x80;
      var j := i + 2 + n;
      var e: TableEntry := InitEntry(t[i], t[i + 2..j], t[i + 1] >= 0x80);
      ParseInitIsEncoding(t, j);
      var rest := ParseInit(t, j).value;
      var es := ParseInit(t, i).value;
      assert es == [e] + rest;
      EntryFrom(t, i, e);
      assert j == i + 2 + |e.args|;
      assert j + |EncodeInit(rest)| < |t|;
      assert t[i..j] == EntryBytes(e);
      EncodingStep(t, i, j, e, rest, es);
    }
  }

  /** An entry's bytes followed by an encoded list are the encoding of the longer list. */
  lemma EncodingStep(t: seq<u8>, i: nat, j: nat, e: TableEntry, rest: seq<TableEntry>, es: seq<TableEntry>)
    requires es == [e] + rest
    requires j == i + 2 + |e.args| && j + |EncodeInit(rest)| < |t|
    requires t[i..j] == EntryBytes(e)
    requires t[j..j + |EncodeInit(rest)| + 1] == EncodeInit(rest) + [0]
    ensures i + |EncodeInit(es)| < |t|
    ensures t[i..i + |EncodeInit(es)| + 1] == EncodeInit(es) + [0]
  {
    var k := j + |EncodeInit(rest)| + 1;
    EncodeCons(e, rest);
    SliceJoin(t, i, j, k);
    assert EncodeInit(es) + [0] == EntryBytes(e) + (EncodeInit(rest) + [0]);
  }

  /** Prepending an entry to a list prepends its bytes to the encoding. */
  lemma EncodeCons(e: TableEntry, rest: seq<TableEntry>)
    ensures EncodeInit([e] + rest) == EntryBytes(e) + EncodeInit(rest)
  {
    assert ([e] + rest)[1..] == rest;
  }

  /** The bytes the walk consumed for one entry are that entry's encoding. */
  lemma EntryFrom(t: seq<u8>, i: nat, e: TableEntry)
    requires i + 2 <= |t| && i + 2 + t[i + 1] % 0x80 <= |t|
    requires e == InitEntry(t[i], t[i + 2..i + 2 + t[i + 1] % 0x80], t[i + 1] >= 0x80)
    ensures t[i..i + 2 + |e.args|] == EntryBytes(e)
  {
    assert t[i + 1] == |e.args| + (if e.delay then 0x80 else 0);
    assert t[i..i + 2 + |e.args|] == [t[i], t[i + 1]] + t[i + 2..i + 2 + |e.args|];
  }

  /** Adjacent slices join. */
  lemma SliceJoin(t: seq<u8>, i: nat, j: nat, k: nat)
    requires i <= j <= k <= |t|
    ensures t[i..k] == t[i..j] + t[j..k]
  {
  }

  /** The arguments of the positive and negative gamma-correction commands. */
  const PositiveGamma: seq<u8> :=
    [0x0F, 0x31, 0x2B, 0x0C, 0x0E, 0x08, 0x4E, 0xF1, 0x37, 0x07, 0x10, 0x03, 0x0E, 0x09, 0x00]
  const NegativeGamma: seq<u8> :=
    [0x00, 0x0E, 0x14, 0x03, 0x11, 0x07, 0x31, 0xC1, 0x48, 0x08, 0x0F, 0x0C, 0x31, 0x36, 0x0F]

  /** The first seven entries of the table: vendor registers without a named opcode. */
  const VendorEntries: seq<TableEntry> := [
    InitEntry(0xEF, [0x03, 0x80, 0x02], false),
    InitEntry(0xCF, [0x00, 0xC1, 0x30], false),
    InitEntry(0xED, [0x64, 0x03, 0x12, 0x81], false),
    InitEntry(0xE8, [0x85, 0x00, 0x78], false),
    InitEntry(0xCB, [0x39, 0x2C, 0x00, 0x34, 0x02], false),
    InitEntry(0xF7, [0x20], false),
    InitEntry(0xEA, [0x00, 0x00], false)
  ]

  /** Power and VCOM control. */
  const PowerEntries: seq<TableEntry> := [
    InitEntry(PWCTR1, [0x23], false),
    InitEntry(PWCTR2, [0x10], false),
    InitEntry(VMCTR1, [0x3e, 0x28], false),
    InitEntry(VMCTR2, [0x86], false)
  ]

  /** Memory access (rotation 0), scroll start 0, 16-bit pixels, frame rate, display function. */
  const FormatEntries: seq<TableEntry> := [
    InitEntry(MADCTL, [0x48], false),
    InitEntry(VSCRSADD, [0x00], false),
    InitEntry(PIXFMT, [0x55], false),
    InitEntry(FRMCTR1, [0x00, 0x18], false),
    InitEntry(DFUNCTR, [0x08, 0x82, 0x27], false)
  ]

  /** 3-gamma off, gamma curve 1, positive and negative gamma correction. */
  const GammaEntries: seq<TableEntry> := [
    InitEntry(0xF2, [0x00], false),
    InitEntry(GAMMASET, [0x01], false),
    InitEntry(GMCTRP1, PositiveGamma, false),
    InitEntry(GMCTRN1, NegativeGamma, false)
  ]

  /** Leave sleep, switch the display on, each followed by the 150 ms delay. */
  const WakeEntries: seq<TableEntry> := [
    InitEntry(SLPOUT, [], true),
    InitEntry(DISPON, [], true)
  ]

  /** The initialisation sequence the table describes, as structured entries, in table order. */
  const InitEntries: seq<TableEntry> := VendorEntries + PowerEntries + FormatEntries + GammaEntries + WakeEntries

  /**
   * The `initcmd` table of LCD_Init: the encoding of the entries above, then
   * the terminating zero.
   */
  const InitCmd: seq<u8> := EncodeInit(InitEntries) + [0]

  /** The table walk of LCD_Init reads exactly the 22 entries above, and stops at the final zero. */
  lemma InitTableEntries()
    ensures ParseInit(InitCmd, 0) == Some(InitEntries)
  {
    ParseEncodeTable(InitEntries);
  }

  /** The transactions of one entry: the command with its arguments, then the delay if flagged. */
  function EntryEvents(e: InitEntry): seq<Event>
  {
    [Command(e.op, e.args)] + if e.delay then [Delay(150)] else []
  }

  /** The transactions of a list of entries, in order. */
  function Script(es: seq<InitEntry>): seq<Event>
  {
    if es == [] then [] else EntryEvents(es[0]) + Script(es[1..])
  }

  lemma ScriptCons(e: InitEntry, rest: seq<InitEntry>)
    ensures Script([e] + rest) == EntryEvents(e) + Script(rest)
  {
    assert ([e] + rest)[1..] == rest;
  }

  /**
   * One step of the pointer walk: at a non-zero opcode the walk reads one
   * entry and continues after its arguments; its transactions come first.
   */
  lemma WalkStep(t: seq<u8>, i: nat)
    requires ParseInit(t, i).Some? && t[i] != 0
    ensures var j := i + 2 + t[i + 1] % 0x80;
      && j < |t| && ParseInit(t, j).Some?
      && Script(ParseInit(t, i).value) ==
           EntryEvents(InitEntry(t[i], t[i + 2..j], t[i + 1] >= 0x80)) + Script(ParseInit(t, j).value)
  {
    var j := i + 2 + t[i + 1] % 0x80;
    var e := InitEntry(t[i], t[i + 2..j], t[i + 1] >= 0x80);
    assert ParseInit(t, i).value == [e] + ParseInit(t, j).value;
    ScriptCons(e, ParseInit(t, j).value);
  }

  // ---------------------------------------------------------------------
  // Rotation
  // ---------------------------------------------------------------------

  /** The state LCD_SetRotation leaves: rotation, MADCTL byte sent, logical width and height. */
  datatype Orientation = Orientation(rotation: u8, madctl: u8, width: u16, height: u16)

  /** The switch of LCD_SetRotation on `m % 4`; the MADCTL bytes are ORs of disjoint flags, written as sums. */
  function OrientationFor(m: u8): (o: Orientation)
    ensures o.rotation == m % 4
    ensures o.madctl == [0x48, 0x28, 0x88, 0xE8][o.rotation]
    ensures o.rotation % 2 == 0 ==> o.width == TFT_WIDTH && o.height == TFT_HEIGHT
    ensures o.rotation % 2 == 1 ==> o.width == TFT_HEIGHT && o.height == TFT_WIDTH
  {
    var r := m % 4;
    if r == 0 then Orientation(r, MADCTL_MX + MADCTL_BGR, TFT_WIDTH, TFT_HEIGHT)
    else if r == 1 then Orientation(r, MADCTL_MV + MADCTL_BGR, TFT_HEIGHT, TFT_WIDTH)
    else if r == 2 then Orientation(r, MADCTL_MY + MADCTL_BGR, TFT_WIDTH, TFT_HEIGHT)
    else Orientation(r, MADCTL_MX + MADCTL_MY + MADCTL_MV + MADCTL_BGR, TFT_HEIGHT, TFT_WIDTH)
  }

  /** Rotating by m and by m + 4 (as a uint8_t argument) has the same effect. */
  lemma RotationPeriodic(m: u8)
    ensures OrientationFor((m + 4) % 0x100) == OrientationFor(m)
  {
  }

  // ---------------------------------------------------------------------
  // Colour and framing
  // ---------------------------------------------------------------------

  /**
   * LCD_Color565: red keeps its top 5 bits in bits 15-11, green its top 6 bits
   * in bits 10-5, blue its top 5 bits in bits 4-0. The C expression
   * `((r & 0xF8) << 8) | ((g & 0xFC) << 3) | (b >> 3)` is the sum of these
   * disjoint fields (Color565Bitwise).
   */
  function Color565(r: u8, g: u8, b: u8): (c: u16)
    ensures c / 0x800 == r / 8 && (c / 0x20) % 0x40 == g / 4 && c % 0x20 == b / 8
  {
    var c := (r / 8) * 0x800 + (g / 4) * 0x20 + b / 8;
    DivMod(c, 0x800, r / 8, (g / 4) * 0x20 + b / 8);
    DivMod(c, 0x20, (r / 8) * 0x40 + g / 4, b / 8);
    DivMod(c / 0x20, 0x40, r / 8, g / 4);
    c
  }

  /**
   * On 16-bit vectors, the bitwise expression of LCD_Color565 is the sum of
   * its three fields. The fields `r >> 3`, `g >> 2`, `b >> 3` are the
   * quotients `r / 8`, `g / 4`, `b / 8` of Color565; that last step from
   * bit-vectors to integers is left to the reader, not proved here.
   */
  lemma Color565Bitwise(r: bv8, g: bv8, b: bv8)
    ensures ((r as bv16 & 0xF8) << 8) | ((g as bv16 & 0xFC) << 3) | (b as bv16 >> 3)
            == (r >> 3) as bv16 * 0x800 + (g >> 2) as bv16 * 0x20 + (b >> 3) as bv16
  {
  }

  /**
   * The two transactions of LCD_SetAddrWindow: CASET with start and inclusive
   * end column, PASET with start and inclusive end row, each big-endian; the
   * end is computed in uint16_t and so wraps.
   */
  function WindowEvents(x1: u16, y1: u16, w: u16, h: u16): seq<Event>
  {
    [Command(CASET, BigEndian(x1) + BigEndian(U16(x1 + w - 1))),
     Command(PASET, BigEndian(y1) + BigEndian(U16(y1 + h - 1)))]
  }

  /** Decoding the window commands gives back the start and the (wrapped) inclusive end of each range. */
  lemma WindowDecodes(x1: u16, y1: u16, w: u16, h: u16)
    ensures var evs := WindowEvents(x1, y1, w, h);
      |evs| == 2 && evs[0].Command? && evs[0].op == CASET && |evs[0].data| == 4 &&
      evs[1].Command? && evs[1].op == PASET && |evs[1].data| == 4 &&
      FromBigEndian(evs[0].data[0], evs[0].data[1]) == x1 &&
      FromBigEndian(evs[0].data[2], evs[0].data[3]) == U16(x1 + w - 1) &&
      FromBigEndian(evs[1].data[0], evs[1].data[1]) == y1 &&
      FromBigEndian(evs[1].data[2], evs[1].data[3]) == U16(y1 + h - 1)
  {
    BigEndianDecodes(x1);
    BigEndianDecodes(U16(x1 + w - 1));
    BigEndianDecodes(y1);
    BigEndianDecodes(U16(y1 + h - 1));
  }

  lemma BigEndianDecodes(v: u16)
    ensures FromBigEndian(BigEndian(v)[0], BigEndian(v)[1]) == v
  {
  }

  /** The data bytes of LCD_WriteColor: `n` copies of the colour, high byte first. */
  function ColorRun(color: u16, n: nat): seq<u8>
  {
    if n == 0 then [] else ColorRun(color, n - 1) + BigEndian(color)
  }

  /** A colour run holds exactly `n` pairs and every pair decodes to the colour. */
  lemma {:induction false} ColorRunPairs(color: u16, n: nat, i: nat)
    requires i < n
    ensures |ColorRun(color, n)| == 2 * n
    ensures FromBigEndian(ColorRun(color, n)[2 * i], ColorRun(color, n)[2 * i + 1]) == color
  {
    ColorRunLength(color, n - 1);
    if i < n - 1 {
      ColorRunPairs(color, n - 1, i);
    }
  }

  lemma {:induction false} ColorRunLength(color: u16, n: nat)
    ensures |ColorRun(color, n)| == 2 * n
  {
    if n > 0 {
      ColorRunLength(color, n - 1);
    }
  }

  /** The transaction of LCD_WriteColor: RAMWR followed by `n` big-endian copies of the colour. */
  function ColorEvents(color: u16, n: nat): seq<Event>
  {
    [Command(RAMWR, ColorRun(color, n))]
  }

  /**
   * LCD_WriteFillRectPreclipped: the int16_t rectangle is passed on as uint16_t
   * to the address window, and `(uint32_t) w * h` colours are streamed.
   */
  function FillEvents(x: i16, y: i16, w: i16, h: i16, color: u16): seq<Event>
  {
    WindowEvents(U16(x), U16(y), U16(w), U16(h)) + ColorEvents(color, U32(U32(w) * U32(h)))
  }

  /** LCD_DrawPixel's transactions for an on-screen pixel: a 1x1 window and one colour. */
  function PixelEvents(x: u16, y: u16, color: u16): seq<Event>
  {
    WindowEvents(x, y, 1, 1) + ColorEvents(color, 1)
  }

  /** A pixel is the 1x1 preclipped fill at the same place; its window starts and ends at (x, y). */
  lemma PixelIsUnitFill(x: u16, y: u16, color: u16)
    requires x < 0x8000 && y < 0x8000
    ensures PixelEvents(x, y, color) == FillEvents(x, y, 1, 1, color)
    ensures PixelEvents(x, y, color)[0].data == BigEndian(x) + BigEndian(x)
    ensures PixelEvents(x, y, color)[1].data == BigEndian(y) + BigEndian(y)
    ensures PixelEvents(x, y, color)[2].data == BigEndian(color)
  {
    assert ColorRun(color, 1) == [] + BigEndian(color);
  }

  // ---------------------------------------------------------------------
  // Scrolling
  // ---------------------------------------------------------------------

  /** The VSCRSADD transaction of LCD_ScrollTo. */
  function ScrollEvents(y: u16): seq<Event>
  {
    [Command(VSCRSADD, BigEndian(y))]
  }

  /**
   * LCD_SetScrollMargins as written: only when `top + bottom <= 320`, a VSCRDEF
   * with top, "middle" and bottom areas, where middle is `320 - top + bottom`.
   */
  function ScrollMarginsEvents(top: u16, bottom: u16): seq<Event>
  {
    if top + bottom <= TFT_HEIGHT then VscrdefEvents(top, U16(TFT_HEIGHT - top + bottom), bottom) else []
  }

  /** A VSCRDEF transaction: the top, scrolling and bottom areas, each big-endian. */
  function VscrdefEvents(top: u16, middle: u16, bottom: u16): seq<Event>
  {
    [Command(VSCRDEF, BigEndian(top) + BigEndian(middle) + BigEndian(bottom))]
  }

  /** The three areas in a VSCRDEF data block. */
  function ScrollAreas(data: seq<u8>): (int, int, int)
    requires |data| == 6
  {
    (FromBigEndian(data[0], data[1]), FromBigEndian(data[2], data[3]), FromBigEndian(data[4], data[5]))
  }

  /**
   * As written, the three areas add up to 320 + 2 * bottom, so they meet the
   * panel's "top + scroll + bottom = 320" rule only when bottom is 0: with
   * top = 0 and bottom = 10 the areas are 0, 330 and 10.
   */
  lemma ScrollMarginsAsWritten(top: u16, bottom: u16)
    requires top + bottom <= TFT_HEIGHT
    ensures |ScrollMarginsEvents(top, bottom)| == 1
    ensures var d := ScrollMarginsEvents(top, bottom)[0].data;
      |d| == 6 && ScrollAreas(d).0 + ScrollAreas(d).1 + ScrollAreas(d).2 == TFT_HEIGHT + 2 * bottom
    ensures ScrollMarginsEvents(0, 10)[0].data == [0, 0, 0x01, 0x4A, 0, 10]
  {
    AreasDecode(top, TFT_HEIGHT - top + bottom, bottom);
    assert BigEndian(330) == [0x01, 0x4A];
  }

  /** The evidently intended VSCRDEF: the scrolling area is what the two margins leave. */
  function IntendedScrollMarginsEvents(top: u16, bottom: u16): seq<Event>
  {
    if top + bottom <= TFT_HEIGHT then VscrdefEvents(top, TFT_HEIGHT - top - bottom, bottom) else []
  }

  /** With the intended middle area, the three areas always cover the 320 rows exactly. */
  lemma IntendedScrollMarginsCover(top: u16, bottom: u16)
    requires top + bottom <= TFT_HEIGHT
    ensures |IntendedScrollMarginsEvents(top, bottom)| == 1
    ensures var d := IntendedScrollMarginsEvents(top, bottom)[0].data;
      |d| == 6 && ScrollAreas(d) == (top, TFT_HEIGHT - top - bottom, bottom) &&
      ScrollAreas(d).0 + ScrollAreas(d).1 + ScrollAreas(d).2 == TFT_HEIGHT
  {
    AreasDecode(top, TFT_HEIGHT - top - bottom, bottom);
  }

  /** A VSCRDEF data block decodes to the three areas it was built from. */
  lemma AreasDecode(top: u16, middle: u16, bottom: u16)
    ensures var d := VscrdefEvents(top, middle, bottom)[0].data;
      |d| == 6 && ScrollAreas(d) == (top, middle, bottom)
  {
    var (t, m, b) := (BigEndian(top), BigEndian(middle), BigEndian(bottom));
    var d := t + m + b;
    assert d[0] == t[0] && d[1] == t[1] && d[2] == m[0] && d[3] == m[1] && d[4] == b[0] && d[5] == b[1];
  }
}
