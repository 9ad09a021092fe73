# ILI9341 display and FT6206 touch driver, modelled in Dafny

This project models the driver layer of an STM32 firmware that runs a 2.8"
240 x 320 TFT. The panel has an ILI9341 controller on SPI and an FT6206
capacitive touch controller on I2C. The model covers four source files:

- `lcd.c`, the LCD driver:
  - command framing and the vendor initialisation table;
  - rotation, 5-6-5 colour packing and address windows;
  - rectangle clipping and Bresenham lines.
- `gfx.c`, the text layer: an Adafruit-GFX style glyph renderer and the
  text cursor.
- `ts.c`, the touch driver: identity check, sample decoding and rotation
  remapping.
- `FT6206.c`, the older generation of the same touch driver.

Everything the drivers do to the outside world is recorded in a trace:

- An LCD `Command(op, data)` is one chip-select-bracketed SPI transaction.
  The opcode is sent in command mode and the data bytes in data mode.
  `Delay(ms)` is a call of the delay primitive.
- A touch `RegWrite(reg, val)` or `RegRead(reg, count)` is one I2C memory
  transaction.
- The touch controller is a 256-byte register file. Register reads return
  its contents and register writes update it.

The modules are:

- `Bytes`: the C integer widths, and every wrap-around of the C code as an
  explicit conversion (`U8`, `U16`, `U32`, `I16`).
- `Ili9341`: opcodes, transactions, the init table and its parser,
  rotation, colour, and the big-endian framing of windows and pixel data.
- `Geometry`: the clipping plan of `LCD_DrawFillRect` and the points
  `LCD_WriteLine` plots.
- `Lcd`: class `Panel`. Its fields are the globals `LCD_rotation`,
  `LCD_width` and `LCD_height`, plus the bus trace. Every driver function
  is a method.
- `Gfx`: the font format and the unpacking of glyph bits. Class
  `TextRenderer` holds the `GFX_*` globals and draws through a `Panel`.
- `Ts`: the decoding and remapping functions and class `TouchScreen`.
  `TouchScreen` holds the globals of `ts.c` and its static `i2cdata`
  buffer (an array).
- `Ft6206`: class `Controller` for `FT6206.c`, specified with the functions
  of `Ts`.

The renderer's calls into the LCD driver are specified as the events they
cause:

- The renderer holds a ghost function `send` from a call
  (`LCD_DrawPixel` or `LCD_DrawFillRect`) to the transactions it puts on
  the bus.
- `IsLcdDriver(send)` states that `send` answers each call exactly as the
  `Lcd` trace functions `DrawPixelEvents` and `FillRectEvents` say.
- The text methods state their trace as `CallsEvents(send, calls)`, where
  `calls` is the list of calls the C code makes, in order.

## Model

| member | source | states |
|---|---|---|
| Bytes.U8 | Core/Src/gfx.c:70 | a store into a uint8_t keeps the value modulo 2^8 and is the identity in range |
| Bytes.U16 | Core/Src/lcd.c:238 | a store into a uint16_t keeps the value modulo 2^16 and is the identity in range |
| Bytes.U32 | Core/Src/lcd.c:296 | a store into a uint32_t keeps the value modulo 2^32 and is the identity in range |
| Bytes.I16 | Core/Src/lcd.c:419-420 | a store into an int16_t is two's-complement wrap-around, congruent modulo 2^16 and the identity in range |
| Bytes.BigEndian | Core/Src/lcd.c:174-175 | the two bytes `v >> 8`, `v & 0xFF` recombine to v |
| Bytes.FromBigEndian | Core/Src/lcd.c:174-175 | reading two bytes back is the inverse of splitting them |
| Ili9341.ParseInit | Core/Src/lcd.c:105-117 | the walk of LCD_Init from index i: stop at a zero opcode; otherwise read the opcode, take bit 7 of the next byte as the delay flag and bits 0-6 as the argument count, and continue after the arguments; None when the walk would run off the table |
| Ili9341.ParseEncodeInit | Core/Src/lcd.c:105-117 | walking the encoding of any entry list (opcode, length byte with delay flag in bit 7, arguments; ended by 0) gives the entries back, wherever it stands in a table |
| Ili9341.ParseInitIsEncoding | Core/Src/lcd.c:105-117 | conversely, whatever the walk reads is exactly the encoding of its entries followed by the terminating zero |
| Ili9341.ParseEncodeTable | Core/Src/lcd.c:110-117 | a whole table round-trips through the walk |
| Ili9341.WalkStep | Core/Src/lcd.c:110-117 | at a non-zero opcode the walk reads one entry, continues after its arguments, and sends that entry's transactions first |
| Ili9341.InitTableEntries | Core/Src/lcd.c:70-97 | the walk over `initcmd` reads exactly its 22 entries, with the 150 ms delay only after SLPOUT and DISPON |
| Ili9341.OrientationFor | Core/Src/lcd.c:128-151 | rotation is m % 4; MADCTL is 0x48, 0x28, 0x88, 0xE8; width and height are 240 x 320 in rotations 0 and 2 and swapped in 1 and 3 |
| Ili9341.RotationPeriodic | Core/Src/lcd.c:129 | m and m + 4 (as uint8_t) select the same orientation |
| Ili9341.Color565 | Core/Src/lcd.c:205-208 | bits 15-11 hold red's top 5 bits, bits 10-5 green's top 6, bits 4-0 blue's top 5 |
| Ili9341.Color565Bitwise | Core/Src/lcd.c:207 | the shift-and-mask expression equals the sum of the three fields |
| Ili9341.WindowDecodes | Core/Src/lcd.c:228-253 | CASET then PASET, each carrying the start and the uint16_t-wrapped inclusive end, big-endian |
| Ili9341.BigEndianDecodes | Core/Src/lcd.c:239-242 | each coordinate of a window command decodes back to the value sent |
| Ili9341.ColorRunPairs | Core/Src/lcd.c:265-275 | the pixel data holds exactly n pairs, and every pair decodes to the colour |
| Ili9341.ColorRunLength | Core/Src/lcd.c:272-275 | n colours are 2n data bytes |
| Ili9341.PixelIsUnitFill | Core/Src/lcd.c:377-384 | an on-screen pixel is the 1x1 preclipped fill: a window from (x, y) to (x, y) and one colour |
| Ili9341.ScrollMarginsAsWritten | Core/Src/lcd.c:185-200 | as written, the three VSCRDEF areas add up to 320 + 2 * bottom; (0, 10) sends 0, 330, 10 |
| Ili9341.AreasDecode | Core/Src/lcd.c:192-199 | a VSCRDEF data block is six bytes and decodes to the three areas it was built from |
| Ili9341.IntendedScrollMarginsCover | Core/Src/lcd.c:190 | with middle = 320 - top - bottom, the three areas always cover the 320 rows exactly |
| Geometry.FillRectPlan | Core/Src/lcd.c:398-449 | what LCD_DrawFillRect passes on: nothing for a zero extent; otherwise the negative-extent normalisation, the far edges stored in int16_t, the four off-screen tests, then the four clips |
| Geometry.FillRectPlanSteps | Core/Src/lcd.c:402-447 | the plan follows the C order: zero extents, normalisation, the four rejection tests, then the four clips |
| Geometry.NormalizeSpan | Core/Src/lcd.c:405-416 | normalising a negative extent gives a positive one covering the same cells |
| Geometry.AxisCovers | Core/Src/lcd.c:419-446 | per axis: a rejected span has no cell on the screen; otherwise the clip keeps exactly its on-screen cells |
| Geometry.FillRectPlanCovers | Core/Src/lcd.c:398-449 | when no far edge passes the int16_t range, LCD_DrawFillRect fills exactly the on-screen pixels of the rectangle, and draws nothing when none are on screen |
| Geometry.FillRectPlanIdempotent | Core/Src/lcd.c:398-449 | a non-empty clipped rectangle, drawn again, is passed on unchanged |
| Geometry.FillRectPlanNormalized | Core/Src/lcd.c:405-416 | a negative extent and its normalised form give the same plan |
| Geometry.FillRectAtRightEdge | Core/Src/lcd.c:423 | `x > LCD_width` lets x == width through, and a zero-width fill is sent |
| Geometry.FillRectWholeScreen | Core/Src/lcd.c:533-536 | the whole screen from (0, 0) is passed on unclipped |
| Geometry.FillRectFarEdgeWraps | Core/Src/lcd.c:419-423 | a rectangle from x = 100 that is 32767 wide has on-screen pixels, yet its far edge wraps negative in int16_t and nothing is drawn |
| Geometry.IntendedAxis | Core/Src/lcd.c:405-446 | one axis of the fill computed without wrap-around; when it draws, the clipped span lies on the screen |
| Geometry.IntendedAxisCovers | Core/Src/lcd.c:405-446 | the axis without wrap-around keeps exactly the on-screen cells of any span |
| Geometry.IntendedFillRectPlanCovers | Core/Src/lcd.c:398-449 | the fill without wrap-around draws exactly the on-screen pixels of every rectangle, far edges beyond int16_t included |
| Geometry.FillRectPlanAsIntended | Core/Src/lcd.c:398-449 | where no far edge wraps, the fill as written equals the fill without wrap-around |
| Geometry.LineExtentSpan | Core/Src/lcd.c:495-502 | `y1 - y0 + 1` covers rows y0..y1 when y1 >= y0, but rows y1+2..y0 when y1 < y0 |
| Geometry.IntendedAxisExtentSpan | Core/Src/lcd.c:495-502 | the extent `a1 - a0 + 1`, or `a1 - a0 - 1` when a1 < a0, covers exactly the cells from a0 to a1 in either order |
| Geometry.SetupLine | Core/Src/lcd.c:313-340 | after the swaps: left to right, shallow in the drawing frame, ystep +-1 towards the end point |
| Geometry.Abs | Core/Src/lcd.c:313 | abs returns v or -v, never negative |
| Geometry.WriteLineEndlessAtMax | Core/Src/lcd.c:342 | with x1 = 32767 the test `x0 <= x1` holds for every int16_t x0, also after `x0++` wraps 32767 to -32768 |
| Geometry.ErrInRange | Core/Src/lcd.c:330-357 | the error term stays in [0, dx) |
| Geometry.CorrectionsClosedForm | Core/Src/lcd.c:342-358 | before point k, ceil((k*dy - dx/2) / dx) y steps have been taken, and the error term has its closed form |
| Geometry.CorrectionsEnds | Core/Src/lcd.c:342-358 | no step before the first point, dy steps by the last |
| Geometry.CorrectionsRange | Core/Src/lcd.c:342-358 | at most dy steps are ever taken |
| Geometry.LineAdvance | Core/Src/lcd.c:352-357 | one pass: the minor coordinate moves by ystep exactly when err - dy < 0, and every value fits int16_t |
| Geometry.LinePoint | Core/Src/lcd.c:342-351 | the k-th pixel LCD_WriteLine plots: drawing-frame column ax0 + k and the minor coordinate after the y steps taken so far, swapped back when the line is steep |
| Geometry.LinePoints | Core/Src/lcd.c:342-351 | a line has dx + 1 points in the drawing frame |
| Geometry.LineEndpoints | Core/Src/lcd.c:310-359 | max(abs(x1 - x0), abs(y1 - y0)) + 1 points, running from one endpoint to the other |
| Geometry.LineConnected | Core/Src/lcd.c:342-358 | consecutive points are neighbours: one step on the major axis, 0 or ystep on the minor axis |
| Lcd.LineEventsArePlots | Core/Src/lcd.c:342-358 | the loop's LCD_DrawPixel calls are the line's points plotted in order |
| Lcd.PlotEventsOnScreen | Core/Src/lcd.c:377-384 | only on-screen points reach the bus, three transactions each |
| Lcd.Panel.constructor | Core/Src/lcd.c:30-32 | the globals start at zero and nothing has been sent |
| Lcd.Panel.SendCommand | Core/Src/lcd.c:56-67 | one transaction: the opcode, then the data bytes |
| Lcd.Panel.DelayMs | Core/Src/lcd.c:103 | one delay event |
| Lcd.Panel.Init | Core/Src/lcd.c:100-121 | SWRESET, 150 ms, the 22 table entries in order, then 240 x 320 |
| Lcd.Panel.RunTable | Core/Src/lcd.c:105-117 | the pointer walk sends each parsed entry, then 150 ms when flagged |
| Lcd.Panel.WalkEntry | Core/Src/lcd.c:110-117 | one pass sends the opcode with its `len & 0x7F` argument bytes, adds 150 ms when `len & 0x80`, and reads the next opcode right after the arguments |
| Lcd.Panel.SetRotation | Core/Src/lcd.c:128-154 | sets rotation, width and height to OrientationFor(m) and sends that MADCTL byte |
| Lcd.Panel.InvertDisplay | Core/Src/lcd.c:161-164 | INVON for a non-zero argument, INVOFF otherwise, without data |
| Lcd.Panel.ScrollTo | Core/Src/lcd.c:171-177 | VSCRSADD whose two data bytes decode to y |
| Lcd.Panel.SetScrollMargins | Core/Src/lcd.c:185-200 | VSCRDEF with the as-written areas when top + bottom <= 320; otherwise nothing is sent |
| Lcd.Panel.SetAddrWindow | Core/Src/lcd.c:228-253 | the two window transactions of WindowEvents |
| Lcd.Panel.WriteColor | Core/Src/lcd.c:260-277 | one RAMWR transaction carrying len big-endian copies of the colour (loop invariant over `len--`) |
| Lcd.Panel.WriteFillRectPreclipped | Core/Src/lcd.c:292-297 | the window as uint16_t, then `(uint32_t) w * h` colours |
| Lcd.Panel.DrawPixel | Core/Src/lcd.c:377-384 | a 1x1 window and one colour exactly when 0 <= x < width and 0 <= y < height; otherwise nothing |
| Lcd.Panel.WriteLine | Core/Src/lcd.c:310-359 | one LCD_DrawPixel per point of LinePoints, in order |
| Lcd.Panel.OrientLine | Core/Src/lcd.c:313-324 | the swaps transpose a steep line and put its left end first, giving SetupLine |
| Lcd.Panel.Bresenham | Core/Src/lcd.c:326-358 | the loop plots LinePoint(s, 0..dx) |
| Lcd.Panel.Column | Core/Src/lcd.c:344-357 | one pass plots point k and leaves y and err at their values for k + 1 |
| Lcd.Panel.DrawFillRect | Core/Src/lcd.c:398-449 | sends the preclipped fill of FillRectPlan, or nothing |
| Lcd.Panel.ClipToScreen | Core/Src/lcd.c:426-446 | the four clips give ClipAxis on each axis |
| Lcd.Panel.DrawHLine | Core/Src/lcd.c:462-465 | a fill of height 1 |
| Lcd.Panel.DrawVLine | Core/Src/lcd.c:477-480 | a fill of width 1 |
| Lcd.Panel.DrawLine | Core/Src/lcd.c:492-507 | equal columns give a vertical fill of `y1 - y0 + 1`; otherwise equal rows give a horizontal fill; otherwise Bresenham |
| Lcd.Panel.DrawRect | Core/Src/lcd.c:520-526 | top edge, bottom edge, left edge, right edge, in that order |
| Lcd.Panel.FillScreen | Core/Src/lcd.c:533-536 | a fill of the logical width and height, which reaches the bus unclipped |
| Gfx.GlyphBit | Core/Src/gfx.c:96-112 | pixel bit k of a glyph is bit 7 of bitmap byte k / 8 after k % 8 left shifts, so bits run MSB first and rows follow unpadded |
| Gfx.BitWithinGlyph | Core/Src/gfx.c:92-98 | every pixel bit of a glyph lies inside its ceil(w*h/8) bytes |
| Gfx.EveryGlyphByteRead | Core/Src/gfx.c:92-98 | conversely, every one of those bytes holds the bit of some pixel, so all ceil(w*h/8) bytes are read |
| Gfx.ShiftLeftTop | Core/Src/gfx.c:100-112 | testing bit 7 after j shifts reads bit 7 - j: glyphs are read MSB first |
| Gfx.CallsEventsAppend | Core/Src/gfx.c:92-114 | calls made one after the other put their transactions on the bus one after the other |
| Gfx.WriteCharIndexInFont | Core/Src/gfx.c:70-71 | for a code in the font, `c -= first` picks the same glyph GFX_DrawChar checked |
| Gfx.RowCallsCount | Core/Src/gfx.c:94-111 | a row makes one call per set bit |
| Gfx.GlyphCalls | Core/Src/gfx.c:92-114 | the calls GFX_WriteChar makes: row by row from the top, and within a row left to right, one call for each set bit |
| Gfx.GlyphCallsCount | Core/Src/gfx.c:92-114 | a glyph makes one call per set bit; a blank glyph draws nothing |
| Gfx.RowCallsShape | Core/Src/gfx.c:100-111 | every call of a row is in the pen's colour: a pixel at size 1x1, otherwise a size_x by size_y block |
| Gfx.GlyphCallsShape | Core/Src/gfx.c:100-111 | the same for every call of the glyph |
| Gfx.RowCallsLocal | Core/Src/gfx.c:94-98 | a row depends only on the glyph's own bytes |
| Gfx.GlyphCallsLocal | Core/Src/gfx.c:74-98 | two fonts that agree on the glyph's bytes draw it alike |
| Gfx.CounterStep | Core/Src/gfx.c:96 | the uint8_t `bit++` keeps counting correctly modulo 8 across its wrap |
| Gfx.NextBit | Core/Src/gfx.c:96-112 | one pixel of unpacking reports glyph bit k and moves the register to pixel k + 1 |
| Gfx.CharStep | Core/Src/gfx.c:122-153 | the text state after GFX_DrawChar(c): a newline for '\n'; unchanged for '\r' and codes outside the font; otherwise wrap when due, then advance by size_x * xAdvance in int16_t |
| Gfx.CharStepCases | Core/Src/gfx.c:122-153 | '\n' starts a new line; '\r' and codes outside the font change nothing; other codes advance by size_x * xAdvance, after a wrap when due; colour, sizes and the wrap flag never change |
| Gfx.DrawnGlyph | Core/Src/gfx.c:131-151 | an in-font code draws its glyph at the post-wrap cursor exactly when it has a bitmap |
| Gfx.WrapThenDraw | Core/Src/gfx.c:140-148 | a due wrap happens before drawing: the glyph lands at column 0, and the cursor ends at its advance |
| Gfx.DrawnText | Core/Src/gfx.c:162-174 | GFX_DrawText passes on a NUL-free prefix of the text of at most 128 characters, stopping at a NUL when it stops early |
| Gfx.TextSnoc | Core/Src/gfx.c:166-173 | one more character is GFX_DrawChar from the state the text so far left |
| Gfx.TextStep | Core/Src/gfx.c:166-173 | one pass of the loop continues both the state and the transactions of the characters before it |
| Gfx.InertText | Core/Src/gfx.c:124-132 | carriage returns and codes outside the font neither move the cursor nor draw |
| Gfx.TextRenderer.constructor | Core/Src/gfx.c:13-20 | cursor (0, 0), colours 0, sizes 1, wrap on, the chosen font |
| Gfx.TextRenderer.SetTextSize | Core/Src/gfx.c:28-32 | a size of 0 becomes 1; nothing else changes |
| Gfx.TextRenderer.SetCursor | Core/Src/gfx.c:40-44 | a coordinate of 0 becomes 1; nothing else changes |
| Gfx.TextRenderer.SetTextColor | Core/Src/gfx.c:51-54 | only the text colour changes |
| Gfx.TextRenderer.WriteChar | Core/Src/gfx.c:66-115 | the bus receives the transactions of GlyphCalls for glyph `c - first`: one call per set bit, row by row |
| Gfx.TextRenderer.WriteRow | Core/Src/gfx.c:94-113 | one row appends RowCalls and moves the register on by the glyph width |
| Gfx.TextRenderer.WriteCell | Core/Src/gfx.c:96-112 | one pixel appends its call exactly when its bit is set |
| Gfx.TextRenderer.DrawGlyphPixel | Core/Src/gfx.c:100-111 | a set pixel is LCD_DrawPixel at 1x1, otherwise LCD_DrawFillRect of a size_x by size_y block |
| Gfx.TextRenderer.DrawChar | Core/Src/gfx.c:122-153 | the new state is CharStep and the bus receives CharCalls |
| Gfx.TextRenderer.DrawGlyph | Core/Src/gfx.c:129-151 | the in-font branch: wrap if due, draw when there is a bitmap, advance |
| Gfx.TextRenderer.WrapIfDue | Core/Src/gfx.c:139-146 | a glyph that would pass the right edge moves the cursor to column 0 of the next line; otherwise nothing changes |
| Gfx.TextRenderer.DrawText | Core/Src/gfx.c:162-174 | GFX_DrawChar on each character of DrawnText, in order |
| Ts.Touched | Core/Src/ts.c:124 | the touch flag is 0 or 1 |
| Ts.Coord | Core/Src/ts.c:125-126 | a raw coordinate is a 12-bit value |
| Ts.CoordBytes | Core/Src/ts.c:125-126 | a 12-bit coordinate fits the register pair with no flag bits set |
| Ts.CoordRoundTrip | Core/Src/ts.c:125-126 | decoding the registers of any 12-bit coordinate gives it back |
| Ts.CoordIgnoresOnlyFlags | Core/Src/ts.c:125-126 | decoding keeps the low register and the high register's low nibble, and drops only the flag bits |
| Ts.Size | Core/Src/ts.c:157-173 | 240 x 320 for rotations 0 and 2, 320 x 240 for 1 and 3 |
| Ts.Flip | Core/Src/ts.c:132-133 | uint16_t `c - v` applied twice gives v back |
| Ts.Unmap | Core/Src/ts.c:128-149 | for every rotation and position, a raw sample exists that remaps to it |
| Ts.Remap | Core/Src/ts.c:128-149 | the screen position of a raw sample in each rotation: x and y flipped for rotation 0, swapped with y flipped for 1, unchanged for 2, swapped with x flipped for 3, in uint16_t |
| Ts.RemapInverse | Core/Src/ts.c:128-149 | the remap is a bijection on 16-bit coordinates, with Unmap as its inverse |
| Ts.RemapOnScreen | Core/Src/ts.c:128-149 | a touch inside the native panel lands inside the rotated screen |
| Ts.RemapHalfTurn | Core/Src/ts.c:128-149 | opposite rotations report mirror positions |
| Ts.RemapWrapsBeyondPanel | Core/Src/ts.c:132 | a raw x beyond 240 wraps to a large uint16_t value in rotation 0 |
| Ts.RemapExample | Core/Src/ts.c:128-149 | raw (10, 20) reads (230, 300), (300, 10), (10, 20) and (20, 230) in rotations 0 to 3 |
| Ts.SampleDecodes | Core/Src/ts.c:118-150 | a block whose status register has low nibble n (whatever its high nibble) and raw (x, y) in the coordinate registers reads back as touched iff n != 0, at the remapped position |
| Ts.TouchScreen.constructor | Core/Src/ts.c:45-56 | the globals start at zero |
| Ts.TouchScreen.ReadRegister8 | Core/Src/ts.c:181-186 | one read transaction returning the register |
| Ts.TouchScreen.WriteRegister8 | Core/Src/ts.c:188-191 | one write transaction storing the register |
| Ts.TouchScreen.SetRotation | Core/Src/ts.c:157-173 | rotation `m & 3`, and width and height from Size |
| Ts.TouchScreen.Init | Core/Src/ts.c:79-111 | writes the threshold first; reads CHIPID only after VENDID matches; returns 1 on a mismatch with the sample and rotation untouched; otherwise returns 0 with the sample cleared and rotation 0 |
| Ts.TouchScreen.ReadData | Core/Src/ts.c:118-150 | one 7-byte read into i2cdata; the flag and position are Sample of those bytes; rotation, width and height are unchanged |
| Ft6206.Controller.constructor | Core/Src/FT6206.c:18-30 | the globals start at zero |
| Ft6206.Controller.ReadRegister8 | Core/Src/FT6206.c:155-181 | one read transaction returning the register |
| Ft6206.Controller.WriteRegister8 | Core/Src/FT6206.c:183-192 | one write transaction storing the register |
| Ft6206.Controller.SetRotation | Core/Src/FT6206.c:131-147 | rotation `m & 3`, with width and height swapped for 1 and 3 |
| Ft6206.Controller.Init | Core/Src/FT6206.c:53-86 | the same sequence and outcomes as TS_Init |
| Ft6206.Controller.ReadData | Core/Src/FT6206.c:93-124 | the decoding written as in FT6206.c gives the same Sample as TS_ReadData for the same registers and rotation |
| Ft6206.Controller.Orient | Core/Src/FT6206.c:102-123 | the four-way switch is Remap |

## Left out

- HAL behaviour is not modelled. SPI, I2C, GPIO and delay calls are only
  trace events. Their status returns are discarded by the code, so
  timeouts and bus errors are not modelled. The chip-select and data/command
  pin toggles of a transaction are folded into one `Command` event.
- The touch controller's own behaviour is not modelled. Its registers
  change only through the driver's writes, or when the environment assigns
  `device` between calls.
- The debug blocks of `TS_Init` (Core/Src/ts.c:82-94) and `FT6206_init`
  (Core/Src/FT6206.c:55-69) are left out. They print register values to
  the console, and their reads are not in the trace.
- Core/Src/main.c (board bring-up, UART and the demo loop) is not part of
  this model.
- The font data (the `FreeSerif12pt7b` tables) is not part of this model.
  The font is a parameter of the `TextRenderer` constructor and must
  satisfy `WellFormedFont`.
- `GFX_textbgcolor` is kept in the state but no modelled operation reads it.
- The prototypes at Core/Inc/lcd.h:185-191 have no implementation among
  the source files; `GFX_*` is their implementation here.
- `FT6206.c` uses constants its header does not define:
  `FT6206_WIDTH`/`FT6206_HEIGHT` are taken as 240/320 from ts.h, and
  `FT6206_VAL_VENDID`/`FT6206_VAL_CHIPID` as `FT6206_VENDID` 0x11 and
  `FT6206_CHIPID` 0x06 from FT6206.h.
- Lcd.Panel.WriteLine: requires every coordinate within +-16383. With
  `x1 == 32767`, the C loop `for ( ; x0 <= x1; x0++ )` never ends, and
  wider coordinates let the int16_t differences wrap. Lines outside that
  range are not modelled.
- Lcd.Panel.DrawLine: carries the same requirement on its Bresenham branch.
- Gfx.TextRenderer.WriteChar: requires the glyph index `(c - first) mod 256`
  to lie inside the glyph table. The C code would read past the table
  otherwise. Every call from GFX_DrawChar meets this.
- Gfx.TextRenderer.DrawText: requires the text to hold the byte the C loop
  reads last: the NUL, or a 129th byte.
- Lcd.Panel.SetScrollMargins: follows the code as written. The corrected
  area computation is `Ili9341.IntendedScrollMarginsEvents`.
- Geometry.FillRectPlanCovers, Geometry.FillRectPlanIdempotent,
  Geometry.FillRectPlanNormalized: require `NoWrap`, that is, the far edges
  `x + w - 1`, `y + h - 1` and the normalised starts fit int16_t. On other
  rectangles the C code can drop on-screen pixels; see Findings.
- Ili9341.Color565Bitwise: states the identity on 16-bit vectors only. That
  its fields `r >> 3`, `g >> 2`, `b >> 3` are the quotients Color565 uses
  is not proved.
- Ts.Touched, Ts.Coord, Ts.TouchScreen.SetRotation: the C masks `& 0x0F`
  and `& 0x03` on unsigned bytes are written as `% 16` and `% 4`. These
  are equal on unsigned bytes.

## Findings

| source | as written | input that shows it | evidently intended | confidence | as-written member | corrected member |
|---|---|---|---|---|---|---|
| Core/Src/lcd.c:190 | `middle = ILI9341_TFTHEIGHT - top + bottom` | top = 0, bottom = 10: areas 0, 330, 10 add up to 340, not 320 | `middle = 320 - top - bottom`, so that top + scroll + bottom = 320 as VSCRDEF needs | high (not executed) | Ili9341.ScrollMarginsAsWritten | Ili9341.IntendedScrollMarginsCover |
| Core/Src/lcd.c:419-423 | `x2 = x + w - 1` stored in int16_t, then rejected when `x2 < 0` | x = 100, w = 32767 on a 240-wide screen: x2 wraps to -32670 and nothing is drawn, though pixels 100..239 of the row are on screen | compute the far edge without wrap-around and clip it to the screen | medium (not executed) | Geometry.FillRectFarEdgeWraps | Geometry.IntendedFillRectPlanCovers |
| Core/Src/lcd.c:495-502 | `LCD_DrawVLine(x0, y0, y1 - y0 + 1)` for any order of y0, y1 | LCD_DrawLine(x, 10, x, 5): extent -4 covers rows 7..10, not 5..10 | extent `y1 - y0 - 1` when y1 < y0, covering rows y1..y0 (likewise for x in the horizontal branch) | high (not executed) | Geometry.LineExtentSpan | Geometry.IntendedAxisExtentSpan |
| Core/Src/lcd.c:342 | `for ( ; x0 <= x1; x0++ )` with int16_t x0 | LCD_DrawLine(0, 0, 32767, 1): x1 = 32767, the test never fails and the loop never ends | a loop that ends after x1 - x0 + 1 passes | medium (not executed) | Geometry.WriteLineEndlessAtMax | Lcd.Panel.Bresenham |
