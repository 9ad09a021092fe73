/**
 * The FT6206 capacitive touch controller as Core/Src/ts.c drives it over
 * I2C: the identity check at start-up, the decoding of one touch sample
 * from the controller's data registers, and the remapping of the raw
 * panel coordinates to the orientation the display is used in.
 */
module Ts {
  import opened Bytes

  // Register map and values of the FT6206 (Core/Inc/ts.h).
  const REG_DATA: u8 := 0x00        // start of the 7-byte block read by TS_ReadData
  const REG_STATUS: u8 := 0x02
  const REG_THRESHHOLD: u8 := 0x80
  const REG_CHIPID: u8 := 0xA3
  const REG_VENDID: u8 := 0xA8
  const VAL_VENDID: u8 := 0x11
  const VAL_CHIPID: u8 := 0x06
  const DEFAULT_THRESHOLD: u8 := 128

  /** The native (rotation 2) size of the touch panel. */
  const WIDTH: u16 := 240
  const HEIGHT: u16 := 320

  /** The number of registers the controller answers for: one 8-bit address space. */
  const REGISTERS: nat := 0x100

  /** One I2C memory transaction with the controller, as HAL_I2C_Mem_Write/Read issue it. */
  datatype I2cOp = RegWrite(reg: u8, val: u8) | RegRead(reg: u8, count: nat)

  /** A position on the screen. */
  datatype Point = Point(x: u16, y: u16)

  // ---------------------------------------------------------------------
  // Decoding a sample
  // (for an unsigned byte b, the C mask b & 0x0F is b % 16 and b & 0x03 is b % 4)
  // ---------------------------------------------------------------------

  /**
   * `TS_isTouched` from the status register `(status & 0x0F) ? 1 : 0`: the
   * low nibble is the number of touch points the controller reports.
   */
  function Touched(status: u8): (t: u8)
    ensures t == 0 || t == 1
  {
    if status % 16 != 0 then 1 else 0
  }

  /**
   * A raw 12-bit coordinate `((hi & 0x0F) << 8) + lo` from its two
   * registers: the top bits of the high register carry event flags and
   * are dropped.
   */
  function Coord(hi: u8, lo: u8): (v: u16)
    ensures v < 0x1000
  {
    hi as int % 16 * 0x100 + lo as int
  }

  /** The register pair a 12-bit coordinate is reported in, with no flags set. */
  function CoordBytes(v: u16): (hl: (u8, u8))
    requires v < 0x1000
    ensures hl.0 < 16
  {
    (v / 0x100, v % 0x100)
  }

  /** Decoding undoes encoding: every 12-bit coordinate is read back unchanged. */
  lemma CoordRoundTrip(v: u16)
    requires v < 0x1000
    ensures Coord(CoordBytes(v).0, CoordBytes(v).1) == v
  {
  }

  /**
   * Encoding undoes decoding up to the flag bits: the coordinate keeps the
   * low register and the low nibble of the high register, and nothing else.
   */
  lemma {:induction false} CoordIgnoresOnlyFlags(hi: u8, lo: u8)
    ensures CoordBytes(Coord(hi, lo)) == (hi % 16, lo)
  {
    DivMod(Coord(hi, lo), 0x100, hi % 16, lo);
  }

  // ---------------------------------------------------------------------
  // Rotation
  // ---------------------------------------------------------------------

  /** A rotation setting, as `m & 0x03` leaves it. */
  type Rotation = r: int | 0 <= r < 4

  /** The screen size in rotation `r`: the native size for 0 and 2, transposed for 1 and 3. */
  function Size(r: Rotation): (wh: (u16, u16))
    ensures r % 2 == 0 ==> wh == (WIDTH, HEIGHT)
    ensures r % 2 == 1 ==> wh == (HEIGHT, WIDTH)
  {
    if r == 0 || r == 2 then (WIDTH, HEIGHT) else (HEIGHT, WIDTH)
  }

  /**
   * The switch of TS_ReadData: the raw panel coordinates seen in rotation
   * `r`, every difference stored into a uint16_t.
   */
  function Remap(r: Rotation, x: u16, y: u16): Point
  {
    match r
    case 0 => Point(Flip(WIDTH, x), Flip(HEIGHT, y))    // noon
    case 1 => Point(Flip(HEIGHT, y), x)                 // 3 o'clock
    case 2 => Point(x, y)                               // 6 o'clock
    case 3 => Point(y, Flip(WIDTH, x))
  }

  /** `c - v` stored into a uint16_t. Applied twice with the same `c` it gives `v` back. */
  function Flip(c: u16, v: u16): (w: u16)
    ensures U16(c - w) == v
  {
    WrapTwice(c, v);
    U16(c - v)
  }

  /** Subtracting from the same constant twice in uint16_t arithmetic gives the value back. */
  lemma WrapTwice(c: u16, v: u16)
    ensures U16(c - U16(c - v)) == v
  {
    if v <= c {
      assert U16(c - v) == c - v;
    } else {
      DivMod(c - v, 0x1_0000, -1, c - v + 0x1_0000);
      DivMod(v - 0x1_0000, 0x1_0000, -1, v);
    }
  }

  /** The raw coordinates a touch at `p` in rotation `r` is reported with. */
  function Unmap(r: Rotation, p: Point): (raw: Point)
    ensures Remap(r, raw.x, raw.y) == p
  {
    match r
    case 0 => Point(Flip(WIDTH, p.x), Flip(HEIGHT, p.y))
    case 1 => Point(p.y, Flip(HEIGHT, p.x))
    case 2 => p
    case 3 => Point(Flip(WIDTH, p.y), p.x)
  }

  /**
   * Remap loses nothing: in every rotation it is a bijection on 16-bit
   * coordinates, with Unmap as its inverse.
   */
  lemma RemapInverse(r: Rotation, x: u16, y: u16)
    ensures Unmap(r, Remap(r, x, y)) == Point(x, y)
  {
    match r
    case 0 => FlipTwice(WIDTH, x); FlipTwice(HEIGHT, y);
    case 1 => FlipTwice(HEIGHT, y);
    case 2 =>
    case 3 => FlipTwice(WIDTH, x);
  }

  lemma FlipTwice(c: u16, v: u16)
    ensures Flip(c, Flip(c, v)) == v
  {
  }

  /**
   * A touch inside the native panel lands inside the screen as the
   * rotation sizes it, corners included.
   */
  lemma RemapOnScreen(r: Rotation, x: u16, y: u16)
    requires x <= WIDTH && y <= HEIGHT
    ensures Remap(r, x, y).x <= Size(r).0 && Remap(r, x, y).y <= Size(r).1
  {
  }

  /**
   * Opposite rotations see a touch inside the native panel at mirror
   * positions: the two coordinates add up to the screen size.
   */
  lemma RemapHalfTurn(x: u16, y: u16)
    requires x <= WIDTH && y <= HEIGHT
    ensures Remap(0, x, y).x + Remap(2, x, y).x == WIDTH && Remap(0, x, y).y + Remap(2, x, y).y == HEIGHT
    ensures Remap(1, x, y).x + Remap(3, x, y).x == HEIGHT && Remap(1, x, y).y + Remap(3, x, y).y == WIDTH
  {
  }

  /** A raw coordinate beyond the native width wraps around in rotation 0 instead of going negative. */
  lemma RemapWrapsBeyondPanel(x: u16, y: u16)
    requires WIDTH < x < 0x1000
    ensures Remap(0, x, y).x == 0x1_0000 + WIDTH - x && Remap(0, x, y).x > 0xF000
  {
    assert Remap(0, x, y).x == U16(WIDTH - x);
    DivMod(WIDTH - x, 0x1_0000, -1, 0x1_0000 + WIDTH - x);
  }

  /** The raw sample (10, 20) as the four rotations report it. */
  lemma RemapExample()
    ensures Remap(0, 10, 20) == Point(230, 300)
    ensures Remap(1, 10, 20) == Point(300, 10)
    ensures Remap(2, 10, 20) == Point(10, 20)
    ensures Remap(3, 10, 20) == Point(20, 230)
  {
  }

  /** Everything TS_ReadData derives from the 7-byte register block starting at register 0. */
  function Sample(block: seq<u8>, r: Rotation): (s: (u8, Point))
    requires |block| >= 7
  {
    (Touched(block[REG_STATUS]), Remap(r, Coord(block[3], block[4]), Coord(block[5], block[6])))
  }

  /**
   * A block that reports `n` touch points (the low nibble of the status
   * register, whatever its high nibble holds) at raw position (x, y) reads
   * back as that position, touched exactly when n is not zero.
   */
  lemma SampleDecodes(block: seq<u8>, r: Rotation, n: u8, x: u16, y: u16)
    requires n < 16 && x < 0x1000 && y < 0x1000 && |block| >= 7
    requires block[2] % 16 == n && (block[3], block[4]) == CoordBytes(x) && (block[5], block[6]) == CoordBytes(y)
    ensures Sample(block, r) == (if n == 0 then 0 else 1, Remap(r, x, y))
  {
    CoordRoundTrip(x);
    CoordRoundTrip(y);
  }

  // ---------------------------------------------------------------------
  // The driver state
  // ---------------------------------------------------------------------

  /**
   * The globals of ts.c together with the controller at the other end of
   * the bus: `device` is its register file (what a register read returns),
   * `trace` the transactions issued so far.
   */
  class TouchScreen {
    var rotation: u8
    var width: u16
    var height: u16
    var isTouched: u8
    var touchX: u16
    var touchY: u16
    /** The static receive buffer of TS_ReadData. */
    const i2cdata: array<u8>
    var device: seq<u8>
    var trace: seq<I2cOp>

    ghost predicate Valid()
      reads this
    {
      i2cdata.Length == 16 && |device| == REGISTERS && rotation < 4
    }

    /** The globals as the C runtime leaves them at reset: all zero. */
    constructor (device: seq<u8>)
      requires |device| == REGISTERS
      ensures Valid() && this.device == device && trace == []
      ensures rotation == 0 && width == 0 && height == 0 && isTouched == 0 && touchX == 0 && touchY == 0
      ensures fresh(i2cdata) && i2cdata[..] == seq(16, _ => 0)
    {
      rotation, width, height := 0, 0, 0;
      isTouched, touchX, touchY := 0, 0, 0;
      i2cdata := new u8[16](_ => 0);
      this.device := device;
      trace := [];
    }

    /** TS_ReadRegister8: one register, one transaction. */
    method ReadRegister8(reg: u8) returns (val: u8)
      requires Valid()
      modifies this`trace
      ensures val == device[reg]
      ensures trace == old(trace) + [RegRead(reg, 1)]
    {
      val := device[reg];
      trace := trace + [RegRead(reg, 1)];
    }

    /** TS_WriteRegister8: the controller stores `val` in register `reg`. */
    method WriteRegister8(reg: u8, val: u8)
      requires Valid()
      modifies this`trace, this`device
      ensures Valid() && device == old(device)[reg := val]
      ensures trace == old(trace) + [RegWrite(reg, val)]
    {
      device := device[reg := val];
      trace := trace + [RegWrite(reg, val)];
    }

    /**
     * TS_SetRotation: the rotation is `m & 0x03`, and width and height are
     * the screen size in that rotation.
     */
    method SetRotation(m: u8)
      requires Valid()
      modifies this`rotation, this`width, this`height
      ensures Valid() && rotation == m % 4 && (width, height) == Size(m % 4)
    {
      rotation := m % 4;
      if rotation == 0 || rotation == 2 {
        width, height := WIDTH, HEIGHT;
      } else {
        width, height := HEIGHT, WIDTH;
      }
    }

    /**
     * TS_Init: writes the touch threshold, then checks the vendor and chip
     * identity (the chip identity only when the vendor matches). On a
     * mismatch it returns 1 and touches nothing else; on success it clears
     * the sample, selects rotation 0 and returns 0.
     */
    method Init(thresh: u8) returns (status: i8)
      requires Valid()
      modifies this
      ensures Valid() && device == old(device)[REG_THRESHHOLD := thresh]
      ensures var vendorOk := old(device)[REG_VENDID] == VAL_VENDID;
        trace == old(trace) + [RegWrite(REG_THRESHHOLD, thresh), RegRead(REG_VENDID, 1)]
          + (if vendorOk then [RegRead(REG_CHIPID, 1)] else [])
      ensures status == 0 <==> old(device)[REG_VENDID] == VAL_VENDID && old(device)[REG_CHIPID] == VAL_CHIPID
      ensures status != 0 ==>
        status == 1 && isTouched == old(isTouched) && touchX == old(touchX) && touchY == old(touchY) &&
        rotation == old(rotation) && width == old(width) && height == old(height)
      ensures status == 0 ==> isTouched == 0 && touchX == 0 && touchY == 0 && rotation == 0 && (width, height) == Size(0)
    {
      WriteRegister8(REG_THRESHHOLD, thresh);
      var vend := ReadRegister8(REG_VENDID);
      if vend != VAL_VENDID {
        return 1;
      }
      var chip := ReadRegister8(REG_CHIPID);
      if chip != VAL_CHIPID {
        return 1;
      }
      isTouched, touchX, touchY := 0, 0, 0;
      SetRotation(0);
      return 0;
    }

    /**
     * TS_ReadData: one 7-byte read from register 0 into `i2cdata`, then the
     * touch flag and the coordinates remapped for the current rotation.
     * Rotation, width and height stay as they are.
     */
    method ReadData()
      requires Valid()
      modifies this`isTouched, this`touchX, this`touchY, this`trace, i2cdata
      ensures Valid()
      ensures i2cdata[..7] == device[..7] && i2cdata[7..] == old(i2cdata[7..])
      ensures trace == old(trace) + [RegRead(REG_DATA, 7)]
      ensures (isTouched, Point(touchX, touchY)) == Sample(device[..7], rotation as int)
      ensures rotation == old(rotation) && width == old(width) && height == old(height)
    {
      forall i | 0 <= i < 7 {
        i2cdata[i] := device[i];
      }
      trace := trace + [RegRead(REG_DATA, 7)];
      isTouched := Touched(i2cdata[2]);
      var x := Coord(i2cdata[3], i2cdata[4]);
      var y := Coord(i2cdata[5], i2cdata[6]);
      var p := Remap(rotation as int, x, y);
      touchX, touchY := p.x, p.y;
    }
  }
}
