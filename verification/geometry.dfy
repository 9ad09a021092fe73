/**
 * The integer geometry of the LCD drawing routines, with no bus traffic:
 * the clipping plan of LCD_DrawFillRect and the points LCD_WriteLine plots.
 * Pixels are (column, row) pairs of mathematical integers; every int16_t
 * store of the C code is an explicit I16.
 */
module Geometry {
  import opened Bytes

  /** A rectangle as LCD_DrawFillRect hands it to the preclipped fill. */
  datatype Rect = Rect(x: i16, y: i16, w: i16, h: i16)

  /** Pixel (px, py) lies in a rectangle with non-negative extents. */
  predicate InRect(r: Rect, px: int, py: int)
  {
    InSpan(r.x, r.w, px) && InSpan(r.y, r.h, py)
  }

  /**
   * The coordinates a signed extent covers along one axis: `extent` cells to
   * the right of (below) `start` when positive, `-extent` cells ending at
   * `start` when negative, none when zero.
   */
  predicate InSpan(start: int, extent: int, p: int)
  {
    if extent > 0 then start <= p < start + extent
    else if extent < 0 then start + extent < p <= start
    else false
  }

  // ---------------------------------------------------------------------
  // Clipping plan of LCD_DrawFillRect
  // ---------------------------------------------------------------------

  /** The negative-extent rule: move the start to the other edge and negate the extent. */
  function Normalize(start: i16, extent: i16): (i16, i16)
  {
    if extent < 0 then (I16(start + extent + 1), I16(-(extent as int))) else (start, extent)
  }

  /**
   * The clip of one axis once the rectangle is known to touch the screen:
   * a start left of 0 moves to 0 with extent `last + 1`; an end at or past
   * `limit` shrinks the extent to `limit - start`.
   */
  function ClipAxis(start: i16, extent: i16, last: i16, limit: u16): (i16, i16)
  {
    var s: i16 := if start < 0 then 0 else start;
    var e: i16 := if start < 0 then I16(last + 1) else extent;
    if last >= limit then (s, I16(limit - s)) else (s, e)
  }

  /**
   * What LCD_DrawFillRect passes to LCD_WriteFillRectPreclipped on a screen
   * of `width` x `height`, or None when it returns without drawing.
   */
  function FillRectPlan(x: i16, y: i16, w: i16, h: i16, width: u16, height: u16): Option<Rect>
  {
    if w == 0 || h == 0 then None
    else
      var (nx, nw) := Normalize(x, w);
      var (ny, nh) := Normalize(y, h);
      var x2 := I16(nx + nw - 1);
      var y2 := I16(ny + nh - 1);
      if nx > width || x2 < 0 || ny > height || y2 < 0 then None
      else
        var (cx, cw) := ClipAxis(nx, nw, x2, width);
        var (cy, ch) := ClipAxis(ny, nh, y2, height);
        Some(Rect(cx, cy, cw, ch))
  }

  /** FillRectPlan in the order LCD_DrawFillRect evaluates it. */
  lemma FillRectPlanSteps(x: i16, y: i16, w: i16, h: i16, width: u16, height: u16,
                          nx: i16, nw: i16, ny: i16, nh: i16, x2: i16, y2: i16)
    requires w != 0 && h != 0
    requires (nx, nw) == Normalize(x, w) && (ny, nh) == Normalize(y, h)
    requires x2 == I16(nx + nw - 1) && y2 == I16(ny + nh - 1)
    ensures nx > width || x2 < 0 || ny > height || y2 < 0 ==> FillRectPlan(x, y, w, h, width, height) == None
    ensures !(nx > width || x2 < 0 || ny > height || y2 < 0) ==>
      var (cx, cw) := ClipAxis(nx, nw, x2, width);
      var (cy, ch) := ClipAxis(ny, nh, y2, height);
      FillRectPlan(x, y, w, h, width, height) == Some(Rect(cx, cy, cw, ch))
  {
  }

  /**
   * The far edge of a signed extent stays inside int16_t, so that the
   * normalisation and the `x + w - 1` of LCD_DrawFillRect do not wrap.
   */
  predicate NoWrap(start: i16, extent: i16)
  {
    if extent > 0 then start + extent - 1 < 0x8000
    else if extent < 0 then extent > -0x8000 && start + extent + 1 >= -0x8000
    else true
  }

  /** Normalising a non-zero extent gives a positive one covering the same cells. */
  lemma NormalizeSpan(start: i16, extent: i16)
    requires extent != 0 && NoWrap(start, extent)
    ensures var (s, e) := Normalize(start, extent);
      e > 0 && s + e - 1 < 0x8000 &&
      (forall p :: InSpan(start, extent, p) <==> s <= p < s + e)
  {
  }

  /**
   * One axis of LCD_DrawFillRect: when its rejection test holds, no cell of
   * the span is on the screen; otherwise the clip keeps exactly the
   * on-screen cells of the span.
   */
  lemma AxisCovers(start: i16, extent: i16, limit: u16)
    requires extent != 0 && NoWrap(start, extent) && limit < 0x8000
    ensures var (n, ne) := Normalize(start, extent);
      var last := I16(n + ne - 1);
      (n > limit || last < 0 ==> forall p :: !(InSpan(start, extent, p) && 0 <= p < limit)) &&
      (!(n > limit || last < 0) ==>
        var (c, ce) := ClipAxis(n, ne, last, limit);
        0 <= c && 0 <= ce && c + ce <= limit &&
        forall p :: InSpan(c, ce, p) <==> InSpan(start, extent, p) && 0 <= p < limit)
  {
    NormalizeSpan(start, extent);
  }

  /**
   * LCD_DrawFillRect draws exactly the on-screen part of the rectangle with
   * signed extents `w` and `h`: when it draws, the rectangle it passes lies
   * on the screen and holds exactly those pixels; when it does not, no pixel
   * of the rectangle is on the screen.
   */
  lemma FillRectPlanCovers(x: i16, y: i16, w: i16, h: i16, width: u16, height: u16)
    requires NoWrap(x, w) && NoWrap(y, h) && width < 0x8000 && height < 0x8000
    ensures match FillRectPlan(x, y, w, h, width, height)
      case None =>
        forall px, py :: !(InSpan(x, w, px) && InSpan(y, h, py) && 0 <= px < width && 0 <= py < height)
      case Some(r) =>
        0 <= r.x && 0 <= r.y && 0 <= r.w && 0 <= r.h && r.x + r.w <= width && r.y + r.h <= height &&
        forall px, py :: InRect(r, px, py) <==>
          InSpan(x, w, px) && InSpan(y, h, py) && 0 <= px < width && 0 <= py < height
  {
    if w != 0 && h != 0 {
      AxisCovers(x, w, width);
      AxisCovers(y, h, height);
    }
  }

  /** A rectangle the plan produced, drawn again, is passed on unchanged. */
  lemma FillRectPlanIdempotent(x: i16, y: i16, w: i16, h: i16, width: u16, height: u16)
    requires NoWrap(x, w) && NoWrap(y, h) && width < 0x8000 && height < 0x8000
    requires FillRectPlan(x, y, w, h, width, height).Some?
    requires FillRectPlan(x, y, w, h, width, height).value.w > 0
    requires FillRectPlan(x, y, w, h, width, height).value.h > 0
    ensures var r := FillRectPlan(x, y, w, h, width, height).value;
      FillRectPlan(r.x, r.y, r.w, r.h, width, height) == Some(r)
  {
    FillRectPlanCovers(x, y, w, h, width, height);
  }

  /** A negative extent and its normalised form give the same plan. */
  lemma FillRectPlanNormalized(x: i16, y: i16, w: i16, h: i16, width: u16, height: u16)
    requires w != 0 && h != 0 && NoWrap(x, w) && NoWrap(y, h)
    ensures var (nx, nw) := Normalize(x, w);
      var (ny, nh) := Normalize(y, h);
      FillRectPlan(nx, ny, nw, nh, width, height) == FillRectPlan(x, y, w, h, width, height)
  {
    NormalizeSpan(x, w);
    NormalizeSpan(y, h);
  }

  /**
   * A rectangle starting exactly at the right edge is not rejected by the
   * `x > LCD_width` test: it is passed on with zero width.
   */
  lemma FillRectAtRightEdge(y: i16, w: i16, h: i16, width: u16, height: u16)
    requires width < 0x8000 && 0 < w && width + w - 1 < 0x8000
    requires 0 <= y < height && 0 < h && y + h - 1 < 0x8000
    ensures FillRectPlan(width, y, w, h, width, height).Some?
    ensures FillRectPlan(width, y, w, h, width, height).value.x == width
    ensures FillRectPlan(width, y, w, h, width, height).value.w == 0
  {
  }

  /** The whole screen, drawn from (0, 0), is passed on unchanged. */
  lemma FillRectWholeScreen(width: u16, height: u16)
    requires 0 < width < 0x8000 && 0 < height < 0x8000
    ensures FillRectPlan(0, 0, width, height, width, height) == Some(Rect(0, 0, width, height))
  {
  }

  // ---------------------------------------------------------------------
  // Far edges beyond int16_t
  // ---------------------------------------------------------------------

  /**
   * When the far edge `x + w - 1` passes 32767, its int16_t store wraps
   * negative and the off-screen test rejects the rectangle: one 32767
   * pixels wide from x = 100 has pixels (100..239, 0) on a 240 x 320
   * screen, yet nothing is drawn, where the plan without wrap-around clips
   * it to those 140 pixels.
   */
  lemma FillRectFarEdgeWraps()
    ensures !NoWrap(100, 32767)
    ensures InSpan(100, 32767, 100) && InSpan(0, 1, 0) && 100 < 240 && 0 < 320
    ensures FillRectPlan(100, 0, 32767, 1, 240, 320) == None
    ensures IntendedFillRectPlan(100, 0, 32767, 1, 240, 320) == Some(Rect(100, 0, 140, 1))
  {
    assert I16(100 + 32767 - 1) == -32670;
  }

  /**
   * One axis of LCD_DrawFillRect with its sums computed without
   * wrap-around: None when the span misses the screen, otherwise the
   * clipped start and extent.
   */
  function IntendedAxis(start: i16, extent: i16, limit: u16): (r: Option<(int, int)>)
    requires extent != 0 && limit < 0x8000
    ensures r.Some? ==> 0 <= r.value.0 && 0 <= r.value.1 && r.value.0 + r.value.1 <= limit
  {
    var n: int := if extent < 0 then start + extent + 1 else start;
    var ne: int := if extent < 0 then -(extent as int) else extent;
    var last := n + ne - 1;
    if n > limit || last < 0 then None
    else
      var s := if n < 0 then 0 else n;
      var e := if n < 0 then last + 1 else ne;
      Some(if last >= limit then (s, limit - s) else (s, e))
  }

  /** LCD_DrawFillRect as intended: the same steps as FillRectPlan, with no int16_t wrap-around in between. */
  function IntendedFillRectPlan(x: i16, y: i16, w: i16, h: i16, width: u16, height: u16): Option<Rect>
    requires width < 0x8000 && height < 0x8000
  {
    if w == 0 || h == 0 then None
    else
      var ax := IntendedAxis(x, w, width);
      var ay := IntendedAxis(y, h, height);
      if ax.None? || ay.None? then None
      else Some(Rect(ax.value.0, ay.value.0, ax.value.1, ay.value.1))
  }

  /** One intended axis keeps exactly the on-screen cells of the span, whatever its extent. */
  lemma IntendedAxisCovers(start: i16, extent: i16, limit: u16)
    requires extent != 0 && limit < 0x8000
    ensures match IntendedAxis(start, extent, limit)
      case None => forall p :: !(InSpan(start, extent, p) && 0 <= p < limit)
      case Some(ce) => forall p :: InSpan(ce.0, ce.1, p) <==> InSpan(start, extent, p) && 0 <= p < limit
  {
  }

  /**
   * The intended plan fills exactly the on-screen pixels of every
   * rectangle, including those whose far edge lies beyond int16_t.
   */
  lemma IntendedFillRectPlanCovers(x: i16, y: i16, w: i16, h: i16, width: u16, height: u16)
    requires width < 0x8000 && height < 0x8000
    ensures match IntendedFillRectPlan(x, y, w, h, width, height)
      case None =>
        forall px, py :: !(InSpan(x, w, px) && InSpan(y, h, py) && 0 <= px < width && 0 <= py < height)
      case Some(r) =>
        0 <= r.x && 0 <= r.y && 0 <= r.w && 0 <= r.h && r.x + r.w <= width && r.y + r.h <= height &&
        forall px, py :: InRect(r, px, py) <==>
          InSpan(x, w, px) && InSpan(y, h, py) && 0 <= px < width && 0 <= py < height
  {
    if w != 0 && h != 0 {
      IntendedAxisCovers(x, w, width);
      IntendedAxisCovers(y, h, height);
    }
  }

  /** Where no far edge wraps, LCD_DrawFillRect as written is the intended plan. */
  lemma FillRectPlanAsIntended(x: i16, y: i16, w: i16, h: i16, width: u16, height: u16)
    requires NoWrap(x, w) && NoWrap(y, h) && width < 0x8000 && height < 0x8000
    ensures FillRectPlan(x, y, w, h, width, height) == IntendedFillRectPlan(x, y, w, h, width, height)
  {
  }

  /**
   * The extent LCD_DrawLine passes for a vertical (horizontal) line,
   * `y1 - y0 + 1`, covers rows y0..y1 when y1 >= y0 but rows y1+2..y0 when
   * y1 < y0: the normalisation of a negative extent counts from y0 upward.
   */
  lemma LineExtentSpan(y0: i16, y1: i16, p: int)
    requires -0x8000 <= y1 - y0 + 1 < 0x8000
    ensures y1 >= y0 ==> (InSpan(y0, I16(y1 - y0 + 1), p) <==> y0 <= p <= y1)
    ensures y1 < y0 ==> (InSpan(y0, I16(y1 - y0 + 1), p) <==> y1 + 2 <= p <= y0)
  {
  }

  /**
   * The extent an axis line from a0 to a1 evidently needs: both end points
   * and every cell between them, whichever way round they are given.
   */
  function IntendedAxisExtent(a0: i16, a1: i16): int
  {
    if a1 >= a0 then a1 - a0 + 1 else a1 - a0 - 1
  }

  /** With the intended extent an axis line covers exactly the cells from one end point to the other. */
  lemma IntendedAxisExtentSpan(a0: i16, a1: i16, p: int)
    ensures IntendedAxisExtent(a0, a1) != 0
    ensures InSpan(a0, IntendedAxisExtent(a0, a1), p) <==>
      if a0 <= a1 then a0 <= p <= a1 else a1 <= p <= a0
  {
  }

  // ---------------------------------------------------------------------
  // Bresenham's algorithm of LCD_WriteLine
  // ---------------------------------------------------------------------

  /** Coordinates small enough that no int16_t computation of LCD_WriteLine wraps. */
  predicate LineInRange(x0: int, y0: int, x1: int, y1: int)
  {
    -0x3FFF <= x0 <= 0x3FFF && -0x3FFF <= y0 <= 0x3FFF &&
    -0x3FFF <= x1 <= 0x3FFF && -0x3FFF <= y1 <= 0x3FFF
  }

  /**
   * With the drawing-frame end x1 at 32767, the loop test `x0 <= x1` of
   * LCD_WriteLine holds for every int16_t x0, and the increment after the
   * pass at 32767 wraps to -32768, where the test holds again: the loop
   * never exits.
   */
  lemma WriteLineEndlessAtMax(x0: i16)
    ensures x0 <= 0x7FFF
    ensures I16(0x7FFF + 1) == -0x8000 <= 0x7FFF
  {
  }

  function Abs(v: int): (r: nat)
    ensures r == v || r == -v
  {
    if v < 0 then -v else v
  }

  /**
   * The state after the swaps of LCD_WriteLine: whether the line is steep
   * (axes exchanged), the endpoints in the drawing frame with ax0 <= ax1, and
   * the y step.
   */
  datatype LineSetup = LineSetup(steep: bool, ax0: int, ay0: int, ax1: int, ay1: int, ystep: int)
  {
    function Dx(): int { ax1 - ax0 }
    function Dy(): nat { Abs(ay1 - ay0) }
  }

  function SetupLine(x0: int, y0: int, x1: int, y1: int): (s: LineSetup)
    ensures s.ax0 <= s.ax1 && s.Dy() <= s.Dx()
    ensures s.ystep == 1 || s.ystep == -1
    ensures (if s.ystep > 0 then s.ay0 + s.Dy() else s.ay0 - s.Dy()) == s.ay1
    ensures LineInRange(x0, y0, x1, y1) ==> ValidLine(s)
  {
    var steep := Abs(y1 - y0) > Abs(x1 - x0);
    var (a0, b0, a1, b1) := if steep then (y0, x0, y1, x1) else (x0, y0, x1, y1);
    var (c0, d0, c1, d1) := if a0 > a1 then (a1, b1, a0, b0) else (a0, b0, a1, b1);
    LineSetup(steep, c0, d0, c1, d1, if d0 < d1 then 1 else -1)
  }

  /**
   * The error term of LCD_WriteLine when the point `k` is plotted: dx/2 at
   * the start; each step subtracts dy and adds dx back when that went
   * negative.
   */
  function ErrAt(dx: int, dy: int, k: nat): int
  {
    if k == 0 then dx / 2
    else
      var e := ErrAt(dx, dy, k - 1) - dy;
      if e < 0 then e + dx else e
  }

  /** The number of y steps taken before the point `k` is plotted. */
  function Corrections(dx: int, dy: int, k: nat): nat
  {
    if k == 0 then 0
    else Corrections(dx, dy, k - 1) + if ErrAt(dx, dy, k - 1) - dy < 0 then 1 else 0
  }

  /** The error term stays in [0, dx). */
  lemma {:induction false} ErrInRange(dx: int, dy: int, k: nat)
    requires 0 <= dy <= dx && dx > 0
    ensures 0 <= ErrAt(dx, dy, k) < dx
  {
    if k > 0 {
      ErrInRange(dx, dy, k - 1);
    }
  }

  /**
   * Closed form: before the point `k` exactly ceil((k*dy - dx/2) / dx) steps
   * have been taken (none while that is negative), and the error term is
   * what the steps leave of dx/2 - k*dy.
   */
  lemma {:induction false} CorrectionsClosedForm(dx: int, dy: int, k: nat)
    requires 0 <= dy <= dx && dx > 0
    ensures Corrections(dx, dy, k) == (k * dy - dx / 2 + dx - 1) / dx
    ensures ErrAt(dx, dy, k) == dx / 2 - k * dy + Corrections(dx, dy, k) * dx
  {
    if k == 0 {
      DivMod(-(dx / 2) + dx - 1, dx, 0, dx - dx / 2 - 1);
    } else {
      CorrectionsClosedForm(dx, dy, k - 1);
      ErrInRange(dx, dy, k - 1);
      ClosedFormStep(dx, dy, (k - 1) * dy, Corrections(dx, dy, k - 1), ErrAt(dx, dy, k - 1));
      assert k * dy == (k - 1) * dy + dy;
    }
  }

  /** One step of the closed form, with m = (k - 1) * dy steps of dy already taken. */
  lemma ClosedFormStep(dx: int, dy: int, m: int, c: int, e: int)
    requires 0 <= dy <= dx && 0 <= e < dx
    requires c == (m - dx / 2 + dx - 1) / dx && e == dx / 2 - m + c * dx
    ensures var step := if e - dy < 0 then 1 else 0;
      c + step == (m + dy - dx / 2 + dx - 1) / dx &&
      e - dy + step * dx == dx / 2 - (m + dy) + (c + step) * dx
  {
    var n := m - dx / 2 + dx - 1;
    assert n == c * dx + (dx - 1 - e);
    if e - dy < 0 {
      assert (c + 1) * dx == c * dx + dx;
      DivMod(n + dy, dx, c + 1, dy - 1 - e);
    } else {
      DivMod(n + dy, dx, c, dx - 1 - e + dy);
    }
  }

  /** At the ends: no step before the first point, dy steps before the last. */
  lemma CorrectionsEnds(dx: int, dy: int)
    requires 0 <= dy <= dx
    ensures Corrections(dx, dy, 0) == 0
    ensures Corrections(dx, dy, dx) == dy
  {
    if dx > 0 {
      CorrectionsClosedForm(dx, dy, dx);
      assert dx * dy - dx / 2 + dx - 1 == dy * dx + (dx - dx / 2 - 1);
      DivMod(dx * dy - dx / 2 + dx - 1, dx, dy, dx - dx / 2 - 1);
    }
  }

  /** Up to the last point at most dy steps have been taken. */
  lemma CorrectionsRange(dx: int, dy: int, k: nat)
    requires 0 <= dy <= dx && k <= dx
    ensures Corrections(dx, dy, k) <= dy
  {
    if dx > 0 {
      CorrectionsClosedForm(dx, dy, k);
      CorrectionsEnds(dx, dy);
      CorrectionsClosedForm(dx, dy, dx);
      MulMonotone(k, dx, dy);
      DivMonotone(k * dy - dx / 2 + dx - 1, dx * dy - dx / 2 + dx - 1, dx);
    }
  }

  lemma MulMonotone(a: int, b: int, c: int)
    requires a <= b && 0 <= c
    ensures a * c <= b * c
  {
  }

  /** Floor division by a positive divisor is monotone. */
  lemma DivMonotone(a: int, b: int, d: int)
    requires a <= b && d > 0
    ensures a / d <= b / d
  {
    if a / d > b / d {
      MulAtLeast(a / d - b / d, d);
      assert false;
    }
  }

  /** The minor-axis coordinate of the k-th point, in the drawing frame. */
  function MinorAt(s: LineSetup, k: nat): int
  {
    var c := Corrections(s.Dx(), s.Dy(), k);
    if s.ystep > 0 then s.ay0 + c else s.ay0 - c
  }

  /** The k-th plotted point, in screen coordinates (swapped back when steep). */
  function LinePoint(s: LineSetup, k: nat): (int, int)
  {
    var px := s.ax0 + k;
    var py := MinorAt(s, k);
    if s.steep then (py, px) else (px, py)
  }

  /** What SetupLine guarantees about its result, with the coordinates of LineInRange. */
  predicate ValidLine(s: LineSetup)
  {
    s.ax0 <= s.ax1 && s.Dy() <= s.Dx() && (s.ystep == 1 || s.ystep == -1) &&
    (if s.ystep > 0 then s.ay0 + s.Dy() else s.ay0 - s.Dy()) == s.ay1 &&
    LineInRange(s.ax0, s.ay0, s.ax1, s.ay1)
  }

  /**
   * One pass of the loop of LCD_WriteLine: dy is taken from the error term,
   * and when it goes negative the minor coordinate moves by ystep and dx is
   * added back; every intermediate value fits an int16_t.
   */
  lemma LineAdvance(s: LineSetup, k: nat)
    requires ValidLine(s) && k <= s.Dx()
    ensures -0x3FFF <= MinorAt(s, k) <= 0x3FFF
    ensures 0 <= ErrAt(s.Dx(), s.Dy(), k) && (ErrAt(s.Dx(), s.Dy(), k) < s.Dx() || s.Dx() == 0)
    ensures var e := ErrAt(s.Dx(), s.Dy(), k) - s.Dy();
      ErrAt(s.Dx(), s.Dy(), k + 1) == (if e < 0 then e + s.Dx() else e) &&
      MinorAt(s, k + 1) == (if e < 0 then MinorAt(s, k) + s.ystep else MinorAt(s, k))
  {
    CorrectionsRange(s.Dx(), s.Dy(), k);
    if s.Dx() > 0 {
      ErrInRange(s.Dx(), s.Dy(), k);
    }
  }

  /** The first `n` points the loop of LCD_WriteLine plots for a set-up line, in order. */
  function LinePrefix(s: LineSetup, n: nat): (pts: seq<(int, int)>)
    ensures |pts| == n
  {
    if n == 0 then [] else LinePrefix(s, n - 1) + [LinePoint(s, n - 1)]
  }

  lemma {:induction false} LinePrefixAt(s: LineSetup, n: nat, i: nat)
    requires i < n
    ensures LinePrefix(s, n)[i] == LinePoint(s, i)
  {
    if i < n - 1 {
      LinePrefixAt(s, n - 1, i);
    }
  }

  /** The points LCD_WriteLine hands to LCD_DrawPixel, in order. */
  function LinePoints(x0: int, y0: int, x1: int, y1: int): (pts: seq<(int, int)>)
    ensures |pts| == SetupLine(x0, y0, x1, y1).Dx() + 1
  {
    var s := SetupLine(x0, y0, x1, y1);
    LinePrefix(s, s.Dx() + 1)
  }

  /** The line has max(|x1 - x0|, |y1 - y0|) + 1 points and runs from one endpoint to the other. */
  lemma LineEndpoints(x0: int, y0: int, x1: int, y1: int)
    ensures |LinePoints(x0, y0, x1, y1)| == (if Abs(x1 - x0) >= Abs(y1 - y0) then Abs(x1 - x0) else Abs(y1 - y0)) + 1
    ensures var pts := LinePoints(x0, y0, x1, y1);
      (pts[0] == (x0, y0) && pts[|pts| - 1] == (x1, y1)) ||
      (pts[0] == (x1, y1) && pts[|pts| - 1] == (x0, y0))
  {
    var s := SetupLine(x0, y0, x1, y1);
    CorrectionsEnds(s.Dx(), s.Dy());
    LinePrefixAt(s, s.Dx() + 1, 0);
    LinePrefixAt(s, s.Dx() + 1, s.Dx());
  }

  /**
   * Consecutive points are neighbours: one step along the major axis, and
   * no step or one `ystep` along the minor axis.
   */
  lemma LineConnected(x0: int, y0: int, x1: int, y1: int, k: nat)
    requires k + 1 < |LinePoints(x0, y0, x1, y1)|
    ensures var pts := LinePoints(x0, y0, x1, y1);
      var s := SetupLine(x0, y0, x1, y1);
      var (a, b) := (pts[k], pts[k + 1]);
      if s.steep then b.1 == a.1 + 1 && (b.0 == a.0 || b.0 == a.0 + s.ystep)
      else b.0 == a.0 + 1 && (b.1 == a.1 || b.1 == a.1 + s.ystep)
  {
    var s := SetupLine(x0, y0, x1, y1);
    LinePrefixAt(s, s.Dx() + 1, k);
    LinePrefixAt(s, s.Dx() + 1, k + 1);
  }
}
