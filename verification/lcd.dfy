/**
 * The LCD driver of lcd.c as a class: the globals LCD_rotation, LCD_width
 * and LCD_height are fields, and everything the driver puts on the SPI bus
 * or asks of the delay primitive is appended to `trace`.
 */
module Lcd {
  import opened Bytes
  import opened Ili9341
  import opened Geometry

  // ---------------------------------------------------------------------
  // Specification of the drawing routines, as transactions
  // ---------------------------------------------------------------------

  /** LCD_DrawPixel on a `width` x `height` screen: a 1x1 fill when on screen, nothing otherwise. */
  function DrawPixelEvents(x: int, y: int, color: u16, width: u16, height: u16): seq<Event>
  {
    if 0 <= x < width && 0 <= y < height then PixelEvents(x, y, color) else []
  }

  /** LCD_DrawPixel applied to each point in turn. */
  function PlotEvents(pts: seq<(int, int)>, color: u16, width: u16, height: u16): seq<Event>
  {
    if pts == [] then []
    else
      var p := pts[|pts| - 1];
      PlotEvents(pts[..|pts| - 1], color, width, height) + DrawPixelEvents(p.0, p.1, color, width, height)
  }

  /** LCD_DrawFillRect: the preclipped fill of the clipping plan, or nothing. */
  function FillRectEvents(x: i16, y: i16, w: i16, h: i16, color: u16, width: u16, height: u16): seq<Event>
  {
    match FillRectPlan(x, y, w, h, width, height)
    case None => []
    case Some(r) => FillEvents(r.x, r.y, r.w, r.h, color)
  }

  /** LCD_DrawPixel on the first `n` points of a set-up line. */
  function LineEvents(s: LineSetup, n: nat, color: u16, width: u16, height: u16): seq<Event>
  {
    if n == 0 then []
    else
      var p := LinePoint(s, n - 1);
      LineEvents(s, n - 1, color, width, height) + DrawPixelEvents(p.0, p.1, color, width, height)
  }

  /** One more point of the line extends a trace that held the first `k`. */
  lemma LineEventsStep(start: seq<Event>, trace: seq<Event>, s: LineSetup, k: nat, color: u16, width: u16, height: u16)
    requires trace == start + LineEvents(s, k, color, width, height)
    ensures trace + DrawPixelEvents(LinePoint(s, k).0, LinePoint(s, k).1, color, width, height) ==
      start + LineEvents(s, k + 1, color, width, height)
  {
    var p := LinePoint(s, k);
    assert LineEvents(s, k + 1, color, width, height) ==
      LineEvents(s, k, color, width, height) + DrawPixelEvents(p.0, p.1, color, width, height);
  }

  /** Plotting the points of a line one by one is plotting its point sequence. */
  lemma {:induction false} LineEventsArePlots(s: LineSetup, n: nat, color: u16, width: u16, height: u16)
    ensures LineEvents(s, n, color, width, height) == PlotEvents(LinePrefix(s, n), color, width, height)
  {
    if n > 0 {
      LineEventsArePlots(s, n - 1, color, width, height);
      var pts := LinePrefix(s, n);
      var p := LinePoint(s, n - 1);
      assert pts == LinePrefix(s, n - 1) + [p];
      assert pts[..n - 1] == LinePrefix(s, n - 1) && pts[n - 1] == p;
      assert PlotEvents(pts, color, width, height) ==
        PlotEvents(LinePrefix(s, n - 1), color, width, height) + DrawPixelEvents(p.0, p.1, color, width, height);
    }
  }

  /** The number of points that lie on a `width` x `height` screen. */
  function OnScreenCount(pts: seq<(int, int)>, width: u16, height: u16): nat
  {
    if pts == [] then 0
    else
      var p := pts[|pts| - 1];
      OnScreenCount(pts[..|pts| - 1], width, height) + if 0 <= p.0 < width && 0 <= p.1 < height then 1 else 0
  }

  /**
   * Only on-screen points put anything on the bus, and each of those puts
   * one pixel: a window of two transactions and one colour transaction.
   */
  lemma {:induction false} PlotEventsOnScreen(pts: seq<(int, int)>, color: u16, width: u16, height: u16)
    ensures (forall i | 0 <= i < |pts| :: !(0 <= pts[i].0 < width && 0 <= pts[i].1 < height))
      ==> PlotEvents(pts, color, width, height) == []
    ensures |PlotEvents(pts, color, width, height)| == 3 * OnScreenCount(pts, width, height)
  {
    if pts != [] {
      var n := |pts| - 1;
      PlotEventsOnScreen(pts[..n], color, width, height);
      assert forall i | 0 <= i < n :: pts[..n][i] == pts[i];
    }
  }

  /** The state of the driver: the three globals of lcd.c and the bus trace. */
  class Panel {
    var rotation: u8
    var width: u16
    var height: u16
    var trace: seq<Event>

    /** Static storage starts zeroed; nothing has been sent. */
    constructor()
      ensures rotation == 0 && width == 0 && height == 0 && trace == []
    {
      rotation, width, height := 0, 0, 0;
      trace := [];
    }

    /** sendCommand: one transaction carrying the opcode and the given data bytes. */
    method SendCommand(op: u8, data: seq<u8>)
      requires |data| < 0x100
      modifies this`trace
      ensures trace == old(trace) + [Command(op, data)]
    {
      trace := trace + [Command(op, data)];
    }

    /** HAL_Delay. */
    method DelayMs(ms: nat)
      modifies this`trace
      ensures trace == old(trace) + [Delay(ms)]
    {
      trace := trace + [Delay(ms)];
    }

    /**
     * LCD_Init: software reset and 150 ms, then the table walk, then the
     * native 240 x 320 dimensions.
     */
    method Init()
      modifies this
      ensures trace == old(trace) + [Command(SWRESET, []), Delay(150)] + Script(InitEntries)
      ensures width == TFT_WIDTH && height == TFT_HEIGHT && rotation == old(rotation)
    {
      SendCommand(SWRESET, []);
      DelayMs(150);
      InitTableEntries();
      RunTable(InitCmd);
      width := TFT_WIDTH;
      height := TFT_HEIGHT;
    }

    /**
     * The pointer walk of LCD_Init over a table: for each entry, one
     * transaction with its `len & 0x7F` argument bytes, then 150 ms when
     * `len & 0x80`; the walk ends at a zero opcode.
     */
    method RunTable(t: seq<u8>)
      requires ParseInit(t, 0).Some?
      modifies this`trace
      ensures trace == old(trace) + Script(ParseInit(t, 0).value)
    {
      var addr := 0;
      var cmd := t[addr];
      addr := addr + 1;
      while cmd > 0
        invariant 1 <= addr <= |t| && cmd == t[addr - 1]
        invariant ParseInit(t, addr - 1).Some?
        invariant old(trace) + Script(ParseInit(t, 0).value) == trace + Script(ParseInit(t, addr - 1).value)
        decreases |t| - addr
      {
        ghost var i, before := addr - 1, trace;
        WalkStep(t, i);
        addr, cmd := WalkEntry(t, addr, cmd);
        AppendAssoc(before, trace[|before|..], Script(ParseInit(t, addr - 1).value));
      }
    }

    /**
     * One pass of the walk of LCD_Init: the entry whose opcode `cmd` was read
     * at `addr - 1` is sent with its `len & 0x7F` arguments, followed by
     * 150 ms when `len & 0x80`; then the next opcode is read.
     */
    method WalkEntry(t: seq<u8>, addr: nat, cmd: u8) returns (addr': nat, cmd': u8)
      requires 1 <= addr < |t| && cmd == t[addr - 1] && addr + 1 + t[addr] % 0x80 < |t|
      modifies this`trace
      ensures addr' == addr + 2 + t[addr] % 0x80 && cmd' == t[addr' - 1]
      ensures trace == old(trace) + EntryEvents(InitEntry(cmd, t[addr + 1..addr' - 1], t[addr] >= 0x80))
    {
      addr' := addr;
      var x := t[addr'];
      addr' := addr' + 1;
      var numArgs := x % 0x80;          // x & 0x7F
      SendCommand(cmd, t[addr'..addr' + numArgs]);
      addr' := addr' + numArgs;
      if x >= 0x80 {                    // x & 0x80
        DelayMs(150);
      }
      cmd' := t[addr'];
      addr' := addr' + 1;
    }

    /** LCD_SetRotation: the switch on `m % 4`, then one MADCTL transaction. */
    method SetRotation(m: u8)
      modifies this
      ensures rotation == OrientationFor(m).rotation
      ensures width == OrientationFor(m).width && height == OrientationFor(m).height
      ensures trace == old(trace) + [Command(MADCTL, [OrientationFor(m).madctl])]
    {
      rotation := m % 4;
      var madctl: u8;
      if rotation == 0 {
        madctl := MADCTL_MX + MADCTL_BGR;
        width, height := TFT_WIDTH, TFT_HEIGHT;
      } else if rotation == 1 {
        madctl := MADCTL_MV + MADCTL_BGR;
        width, height := TFT_HEIGHT, TFT_WIDTH;
      } else if rotation == 2 {
        madctl := MADCTL_MY + MADCTL_BGR;
        width, height := TFT_WIDTH, TFT_HEIGHT;
      } else {
        madctl := MADCTL_MX + MADCTL_MY + MADCTL_MV + MADCTL_BGR;
        width, height := TFT_HEIGHT, TFT_WIDTH;
      }
      SendCommand(MADCTL, [madctl]);
    }

    /** LCD_InvertDisplay: INVON for a non-zero argument, INVOFF otherwise, without data. */
    method InvertDisplay(invert: u8)
      modifies this`trace
      ensures trace == old(trace) + [Command(if invert != 0 then INVON else INVOFF, [])]
    {
      SendCommand(if invert != 0 then INVON else INVOFF, []);
    }

    /** LCD_ScrollTo: VSCRSADD with the scroll position, high byte first. */
    method ScrollTo(y: u16)
      modifies this`trace
      ensures trace == old(trace) + ScrollEvents(y)
      ensures trace[|trace| - 1].data[0] as int * 0x100 + trace[|trace| - 1].data[1] as int == y
    {
      var data := new u8[2];
      data[0] := y / 0x100;
      data[1] := y % 0x100;
      assert data[..] == BigEndian(y);
      SendCommand(VSCRSADD, data[..]);
    }

    /** LCD_SetScrollMargins, with the middle area computed as written. */
    method SetScrollMargins(top: u16, bottom: u16)
      modifies this`trace
      ensures trace == old(trace) + ScrollMarginsEvents(top, bottom)
      ensures top + bottom > TFT_HEIGHT ==> trace == old(trace)
    {
      if top + bottom <= TFT_HEIGHT {
        var middle: u16 := U16(TFT_HEIGHT - top + bottom);
        var data := new u8[6];
        data[0] := top / 0x100;
        data[1] := top % 0x100;
        data[2] := middle / 0x100;
        data[3] := middle % 0x100;
        data[4] := bottom / 0x100;
        data[5] := bottom % 0x100;
        assert data[..] == BigEndian(top) + BigEndian(middle) + BigEndian(bottom);
        SendCommand(VSCRDEF, data[..]);
      }
    }

    /** LCD_SetAddrWindow: CASET then PASET, each with start and wrapped inclusive end. */
    method SetAddrWindow(x1: u16, y1: u16, w: u16, h: u16)
      modifies this`trace
      ensures trace == old(trace) + WindowEvents(x1, y1, w, h)
    {
      var buffer := new u8[4];
      var end: u16 := U16(x1 + w - 1);
      buffer[0] := x1 / 0x100;
      buffer[1] := x1 % 0x100;
      buffer[2] := end / 0x100;
      buffer[3] := end % 0x100;
      assert buffer[..] == BigEndian(x1) + BigEndian(end);
      SendCommand(CASET, buffer[..]);
      end := U16(y1 + h - 1);
      buffer[0] := y1 / 0x100;
      buffer[1] := y1 % 0x100;
      buffer[2] := end / 0x100;
      buffer[3] := end % 0x100;
      assert buffer[..] == BigEndian(y1) + BigEndian(end);
      SendCommand(PASET, buffer[..]);
    }

    /**
     * LCD_WriteColor: one transaction, RAMWR in command mode, then `len`
     * copies of the colour in data mode.
     */
    method WriteColor(color: u16, len: u32)
      modifies this`trace
      ensures trace == old(trace) + ColorEvents(color, len)
    {
      var buffer := BigEndian(color);
      var data: seq<u8> := [];
      var n := len;
      while n > 0
        invariant 0 <= n <= len
        invariant data == ColorRun(color, len - n)
      {
        data := data + buffer;
        n := n - 1;
      }
      trace := trace + [Command(RAMWR, data)];
    }

    /** LCD_WriteFillRectPreclipped: the window as uint16_t, then `(uint32_t) w * h` colours. */
    method WriteFillRectPreclipped(x: i16, y: i16, w: i16, h: i16, color: u16)
      modifies this`trace
      ensures trace == old(trace) + FillEvents(x, y, w, h, color)
    {
      SetAddrWindow(U16(x), U16(y), U16(w), U16(h));
      WriteColor(color, U32(U32(w) * U32(h)));
    }

    /** LCD_DrawPixel: a 1x1 window and one colour exactly when the pixel is on the screen. */
    method DrawPixel(x: i16, y: i16, color: u16)
      modifies this`trace
      ensures trace == old(trace) + DrawPixelEvents(x, y, color, width, height)
      ensures 0 <= x < width && 0 <= y < height ==> trace == old(trace) + PixelEvents(x, y, color)
      ensures !(0 <= x < width && 0 <= y < height) ==> trace == old(trace)
    {
      if 0 <= x < width && 0 <= y < height {
        SetAddrWindow(x, y, 1, 1);
        WriteColor(color, 1);
      }
    }

    /**
     * LCD_WriteLine: transpose a steep line, orient it left to right, then
     * Bresenham from the left end, one LCD_DrawPixel per column.
     */
    method WriteLine(x0: i16, y0: i16, x1: i16, y1: i16, color: u16)
      requires LineInRange(x0, y0, x1, y1)
      modifies this`trace
      ensures trace == old(trace) + PlotEvents(LinePoints(x0, y0, x1, y1), color, width, height)
    {
      var steep, ax0, ay0, ax1, ay1 := OrientLine(x0, y0, x1, y1);
      ghost var s := SetupLine(x0, y0, x1, y1);
      ghost var n := ax1 - ax0 + 1;
      Bresenham(steep, ax0, ay0, ax1, ay1, color);
      LineEventsArePlots(s, n, color, width, height);
    }

    /** The swaps of LCD_WriteLine: transpose a steep line, then orient it left to right. */
    method OrientLine(x0: i16, y0: i16, x1: i16, y1: i16) returns (steep: bool, ax0: i16, ay0: i16, ax1: i16, ay1: i16)
      ensures SetupLine(x0, y0, x1, y1) == LineSetup(steep, ax0, ay0, ax1, ay1, if ay0 < ay1 then 1 else -1)
    {
      steep := Abs(y1 - y0) > Abs(x1 - x0);
      ax0, ay0, ax1, ay1 := x0, y0, x1, y1;
      if steep {
        ax0, ay0 := ay0, ax0;
        ax1, ay1 := ay1, ax1;
      }
      if ax0 > ax1 {
        ax0, ax1 := ax1, ax0;
        ay0, ay1 := ay1, ay0;
      }
    }

    /** The loop of LCD_WriteLine, after the swaps. */
    method Bresenham(steep: bool, x0: i16, y0: i16, x1: i16, y1: i16, color: u16)
      requires ValidLine(LineSetup(steep, x0, y0, x1, y1, if y0 < y1 then 1 else -1))
      modifies this`trace
      ensures trace == old(trace) +
        LineEvents(LineSetup(steep, x0, y0, x1, y1, if y0 < y1 then 1 else -1), x1 - x0 + 1, color, width, height)
    {
      var dx: i16 := x1 - x0;
      var dy: i16 := Abs(y1 - y0);
      var err: i16 := dx / 2;
      var ystep: i16 := if y0 < y1 then 1 else -1;
      ghost var s := LineSetup(steep, x0, y0, x1, y1, ystep);
      ghost var start := trace;
      var x: i16 := x0;
      var y: i16 := y0;
      ghost var k := 0;
      assert s.Dx() == dx && s.Dy() == dy;
      while x <= x1
        invariant 0 <= k <= dx + 1 && x == x0 + k
        invariant y == MinorAt(s, k) && err == ErrAt(dx, dy, k)
        invariant trace == start + LineEvents(s, k, color, width, height)
        decreases x1 - x
      {
        LineEventsStep(start, trace, s, k, color, width, height);
        y, err := Column(s, k, steep, dx, dy, ystep, x, y, err, color);
        x := x + 1;
        k := k + 1;
      }
    }

    /** One pass of the loop of LCD_WriteLine: plot the point, then step the error term. */
    method Column(ghost s: LineSetup, ghost k: nat, steep: bool, dx: i16, dy: i16, ystep: i16,
                  x: i16, y: i16, err: i16, color: u16) returns (y': i16, err': i16)
      requires ValidLine(s) && k <= s.Dx()
      requires steep == s.steep && dx == s.Dx() && dy == s.Dy() && ystep == s.ystep
      requires x == s.ax0 + k && y == MinorAt(s, k) && err == ErrAt(s.Dx(), s.Dy(), k)
      modifies this`trace
      ensures y' == MinorAt(s, k + 1) && err' == ErrAt(s.Dx(), s.Dy(), k + 1)
      ensures trace == old(trace) + DrawPixelEvents(LinePoint(s, k).0, LinePoint(s, k).1, color, width, height)
    {
      LineAdvance(s, k);
      if steep {
        DrawPixel(y, x, color);
      } else {
        DrawPixel(x, y, color);
      }
      y', err' := y, err - dy;
      if err' < 0 {
        y' := y' + ystep;
        err' := err' + dx;
      }
    }

    /** LCD_DrawFillRect: normalise, reject, clip, then the preclipped fill. */
    method DrawFillRect(x: i16, y: i16, w: i16, h: i16, color: u16)
      modifies this`trace
      ensures trace == old(trace) + FillRectEvents(x, y, w, h, color, width, height)
    {
      if w == 0 || h == 0 {
        return;
      }
      var cx, cy, cw, ch := x, y, w, h;
      if cw < 0 {
        cx := I16(cx + cw + 1);
        cw := I16(-(cw as int));
      }
      if ch < 0 {
        cy := I16(cy + ch + 1);
        ch := I16(-(ch as int));
      }
      assert (cx, cw) == Normalize(x, w) && (cy, ch) == Normalize(y, h);
      var x2 := I16(cx + cw - 1);
      var y2 := I16(cy + ch - 1);
      FillRectPlanSteps(x, y, w, h, width, height, cx, cw, cy, ch, x2, y2);
      if cx > width || x2 < 0 || cy > height || y2 < 0 {
        return;
      }
      cx, cw, cy, ch := ClipToScreen(cx, cw, x2, cy, ch, y2);
      WriteFillRectPreclipped(cx, cy, cw, ch, color);
    }

    /** The four clipping steps of LCD_DrawFillRect, in its order. */
    method ClipToScreen(x: i16, w: i16, x2: i16, y: i16, h: i16, y2: i16) returns (cx: i16, cw: i16, cy: i16, ch: i16)
      ensures (cx, cw) == ClipAxis(x, w, x2, width) && (cy, ch) == ClipAxis(y, h, y2, height)
    {
      cx, cw, cy, ch := x, w, y, h;
      if cx < 0 {
        cx := 0;
        cw := I16(x2 + 1);
      }
      if cy < 0 {
        cy := 0;
        ch := I16(y2 + 1);
      }
      if x2 >= width {
        cw := I16(width - cx);
      }
      if y2 >= height {
        ch := I16(height - cy);
      }
    }

    /** LCD_DrawHLine: a fill of height 1. */
    method DrawHLine(x: i16, y: i16, w: i16, color: u16)
      modifies this`trace
      ensures trace == old(trace) + FillRectEvents(x, y, w, 1, color, width, height)
    {
      DrawFillRect(x, y, w, 1, color);
    }

    /** LCD_DrawVLine: a fill of width 1. */
    method DrawVLine(x: i16, y: i16, h: i16, color: u16)
      modifies this`trace
      ensures trace == old(trace) + FillRectEvents(x, y, 1, h, color, width, height)
    {
      DrawFillRect(x, y, 1, h, color);
    }

    /**
     * LCD_DrawLine: a vertical line when the columns agree, else a
     * horizontal one when the rows agree, else Bresenham.
     */
    method DrawLine(x0: i16, y0: i16, x1: i16, y1: i16, color: u16)
      requires x0 == x1 || y0 == y1 || LineInRange(x0, y0, x1, y1)
      modifies this`trace
      ensures x0 == x1 ==> trace == old(trace) + FillRectEvents(x0, y0, 1, I16(y1 - y0 + 1), color, width, height)
      ensures x0 != x1 && y0 == y1 ==>
        trace == old(trace) + FillRectEvents(x0, y0, I16(x1 - x0 + 1), 1, color, width, height)
      ensures x0 != x1 && y0 != y1 ==>
        trace == old(trace) + PlotEvents(LinePoints(x0, y0, x1, y1), color, width, height)
    {
      if x0 == x1 {
        DrawVLine(x0, y0, I16(y1 - y0 + 1), color);
      } else if y0 == y1 {
        DrawHLine(x0, y0, I16(x1 - x0 + 1), color);
      } else {
        WriteLine(x0, y0, x1, y1, color);
      }
    }

    /** LCD_DrawRect: top and bottom edges, then left and right edges. */
    method DrawRect(x: i16, y: i16, w: i16, h: i16, color: u16)
      modifies this`trace
      ensures trace == old(trace)
        + FillRectEvents(x, y, w, 1, color, width, height)
        + FillRectEvents(x, I16(y + h - 1), w, 1, color, width, height)
        + FillRectEvents(x, y, 1, h, color, width, height)
        + FillRectEvents(I16(x + w - 1), y, 1, h, color, width, height)
    {
      DrawHLine(x, y, w, color);
      DrawHLine(x, I16(y + h - 1), w, color);
      DrawVLine(x, y, h, color);
      DrawVLine(I16(x + w - 1), y, h, color);
    }

    /** LCD_FillScreen: a fill from (0, 0) of the logical width and height. */
    method FillScreen(color: u16)
      modifies this`trace
      ensures trace == old(trace) + FillRectEvents(0, 0, I16(width), I16(height), color, width, height)
      ensures 0 < width < 0x8000 && 0 < height < 0x8000 ==>
        trace == old(trace) + FillEvents(0, 0, width, height, color)
    {
      DrawFillRect(0, 0, I16(width), I16(height), color);
      if 0 < width < 0x8000 && 0 < height < 0x8000 {
        FillRectWholeScreen(width, height);
      }
    }
  }
}
