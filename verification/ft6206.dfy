/**
 * Core/Src/FT6206.c: the older generation of the touch driver. It talks to
 * the same controller in the same way as ts.c and differs only in the names
 * of its globals, so its operations are specified with the decoding and
 * remapping functions of module Ts.
 */
module Ft6206 {
  import opened Bytes
  import opened Ts

  // Identity values of Core/Inc/FT6206.h (ts.h calls them FT6206_VAL_VENDID / FT6206_VAL_CHIPID).
  const VENDID: u8 := 0x11
  const CHIPID: u8 := 0x06

  /**
   * The globals of FT6206.c (`TS_rotation`, `TS_width`, `TS_height`,
   * `FT6206_touched`, `FT6206_touchX`, `FT6206_touchY`, the static
   * `i2cdata`) and the controller's register file at the other end of the bus.
   */
  class Controller {
    var rotation: u8
    var width: u16
    var height: u16
    var touched: u8
    var touchX: u16
    var touchY: u16
    const i2cdata: array<u8>
    var device: seq<u8>
    var trace: seq<I2cOp>

    ghost predicate Valid()
      reads this
    {
      i2cdata.Length == 16 && |device| == REGISTERS && rotation < 4
    }

    /** The globals as the C runtime leaves them at reset: all zero. */
    constructor (device: seq<u8>)
      requires |device| == REGISTERS
      ensures Valid() && this.device == device && trace == []
      ensures rotation == 0 && width == 0 && height == 0 && touched == 0 && touchX == 0 && touchY == 0
      ensures fresh(i2cdata) && i2cdata[..] == seq(16, _ => 0)
    {
      rotation, width, height := 0, 0, 0;
      touched, touchX, touchY := 0, 0, 0;
      i2cdata := new u8[16](_ => 0);
      this.device := device;
      trace := [];
    }

    /** FT6206_readRegister8. */
    method ReadRegister8(reg: u8) returns (val: u8)
      requires Valid()
      modifies this`trace
      ensures val == device[reg]
      ensures trace == old(trace) + [RegRead(reg, 1)]
    {
      val := device[reg];
      trace := trace + [RegRead(reg, 1)];
    }

    /** FT6206_writeRegister8. */
    method WriteRegister8(reg: u8, val: u8)
      requires Valid()
      modifies this`trace, this`device
      ensures Valid() && device == old(device)[reg := val]
      ensures trace == old(trace) + [RegWrite(reg, val)]
    {
      device := device[reg := val];
      trace := trace + [RegWrite(reg, val)];
    }

    /** FT6206_setRotation: rotation `m & 0x03`, width and height swapped for 1 and 3. */
    method SetRotation(m: u8)
      requires Valid()
      modifies this`rotation, this`width, this`height
      ensures Valid() && rotation == m % 4 && (width, height) == Size(m % 4)
    {
      rotation := m % 4;
      match rotation
      case 0 | 2 =>
        width, height := WIDTH, HEIGHT;
      case 1 | 3 =>
        width, height := HEIGHT, WIDTH;
    }

    /**
     * FT6206_init: the threshold write, then the identity check, which
     * reads the chip identity only when the vendor matches. Returns 1 on a
     * mismatch with the sample and rotation untouched, 0 on success with
     * the sample cleared and rotation 0.
     */
    method Init(thresh: u8) returns (status: i8)
      requires Valid()
      modifies this
      ensures Valid() && device == old(device)[REG_THRESHHOLD := thresh]
      ensures var vendorOk := old(device)[REG_VENDID] == VENDID;
        trace == old(trace) + [RegWrite(REG_THRESHHOLD, thresh), RegRead(REG_VENDID, 1)]
          + (if vendorOk then [RegRead(REG_CHIPID, 1)] else [])
      ensures status == 0 <==> old(device)[REG_VENDID] == VENDID && old(device)[REG_CHIPID] == CHIPID
      ensures status != 0 ==>
        status == 1 && touched == old(touched) && touchX == old(touchX) && touchY == old(touchY) &&
        rotation == old(rotation) && width == old(width) && height == old(height)
      ensures status == 0 ==> touched == 0 && touchX == 0 && touchY == 0 && rotation == 0 && (width, height) == Size(0)
    {
      WriteRegister8(REG_THRESHHOLD, thresh);
      var vend := ReadRegister8(REG_VENDID);
      if vend != VENDID {
        return 1;
      }
      var chip := ReadRegister8(REG_CHIPID);
      if chip != CHIPID {
        return 1;
      }
      touched, touchX, touchY := 0, 0, 0;
      SetRotation(0);
      return 0;
    }

    /**
     * FT6206_readData: the same 7-byte read and the same decoding and
     * remapping as TS_ReadData, so both drivers report the same sample
     * for the same register contents and rotation.
     */
    method ReadData()
      requires Valid()
      modifies this`touched, this`touchX, this`touchY, this`trace, i2cdata
      ensures Valid()
      ensures i2cdata[..7] == device[..7] && i2cdata[7..] == old(i2cdata[7..])
      ensures trace == old(trace) + [RegRead(REG_DATA, 7)]
      ensures (touched, Point(touchX, touchY)) == Sample(device[..7], rotation as int)
      ensures rotation == old(rotation) && width == old(width) && height == old(height)
    {
      forall i | 0 <= i < 7 {
        i2cdata[i] := device[i];
      }
      trace := trace + [RegRead(REG_DATA, 7)];
      ghost var block := device[..7];
      assert i2cdata[..7] == block;
      touched := if i2cdata[0x02] % 16 != 0 then 1 else 0;
      var x: u16 := i2cdata[0x03] as int % 16 * 0x100 + i2cdata[0x04] as int;
      var y: u16 := i2cdata[0x05] as int % 16 * 0x100 + i2cdata[0x06] as int;
      assert touched == Touched(block[2]);
      assert x == Coord(block[3], block[4]) && y == Coord(block[5], block[6]);
      Orient(x, y);
    }

    /** The switch of FT6206_readData: the raw coordinates (x, y) as seen in the current rotation. */
    method Orient(x: u16, y: u16)
      requires Valid()
      modifies this`touchX, this`touchY
      ensures Point(touchX, touchY) == Remap(rotation as int, x, y)
    {
      match rotation
      case 0 =>
        touchX, touchY := U16(WIDTH - x), U16(HEIGHT - y);
      case 1 =>
        touchX, touchY := U16(HEIGHT - y), x;
      case 2 =>
        touchX, touchY := x, y;
      case 3 =>
        touchX, touchY := y, U16(WIDTH - x);
    }
  }
}
