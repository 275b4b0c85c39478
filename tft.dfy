/** The display driver (Core/Src/tft.c, Core/Inc/tft.h): RGB565 colour
  * packing, font metrics and the text cursor, lines and rectangles as the
  * pixel windows the driver hands to the display controller, and the
  * controller's start-up table. */
module Tft {
  import opened Common

  /** A C `uint16_t`. */
  type U16 = x: int | 0 <= x < 0x1_0000

  /** A C `int8_t`. */
  type I8 = x: int | -128 <= x < 128

  /** A value stored into an `int8_t`. */
  function ToI8(v: int): I8
  {
    (v + 128) % 256 - 128
  }

  function Abs(v: int): nat { if v < 0 then -v else v }
  function Min(a: int, b: int): int { if a < b then a else b }
  function Max(a: int, b: int): int { if a < b then b else a }

  /** Screen size after rotation. */
  const TFT_WIDTH: int := 480
  const TFT_HEIGHT: int := 320

  /** Font numbers of `TFT_setFont`. */
  const FONT_10X16: Byte := 1
  const FONT_16X24: Byte := 2
  const FONT_32X50: Byte := 3

  // ---------------------------------------------------------------------
  // RGB565 (Core/Inc/tft.h)

  /** A colour channel in percent. */
  type Percent = p: int | 0 <= p <= 100

  /** Bitwise OR of two non-negative integers. */
  function Or(x: nat, y: nat): nat
    decreases x + y
  {
    if x == 0 then y
    else if y == 0 then x
    else 2 * Or(x / 2, y / 2) + (if x % 2 == 1 || y % 2 == 1 then 1 else 0)
  }

  /** The 5-bit blue, 6-bit green and 5-bit red fields of `RGB`. */
  function Blue(b: Percent): nat { b * 0x1F / 100 }
  function Green(g: Percent): nat { g * 0x3F / 100 }
  function Red(r: Percent): nat { r * 0x1F / 100 }

  /** `RGB(r,g,b)`: each percentage scaled to its field, the fields shifted
    * to bits 0, 5 and 11 and ORed together. */
  function Rgb(r: Percent, g: Percent, b: Percent): nat
  {
    Or(Or(Blue(b), Green(g) * 32), Red(r) * 2048)
  }

  /** OR with a value shifted past the bits of `x` is addition. */
  lemma {:induction false} OrDisjoint(x: nat, y: nat, k: nat)
    requires x < Pow2(k)
    ensures Or(x, y * Pow2(k)) == x + y * Pow2(k)
  {
    if k == 0 {
      assert x == 0;
    } else if x == 0 || y == 0 {
    } else {
      var p := Pow2(k - 1);
      assert Pow2(k) == 2 * p;
      assert y * Pow2(k) == 2 * (y * p);
      OrDisjoint(x / 2, y, k - 1);
    }
  }

  lemma Pow2Shifts()
    ensures Pow2(5) == 32 && Pow2(11) == 2048
  {
    assert Pow2(1) == 2 && Pow2(2) == 4 && Pow2(3) == 8 && Pow2(4) == 16;
    assert Pow2(6) == 64 && Pow2(7) == 128 && Pow2(8) == 256;
    assert Pow2(9) == 512 && Pow2(10) == 1024;
  }

  /** Each field stays within its width. */
  lemma FieldBounds(r: Percent, g: Percent, b: Percent)
    ensures Blue(b) <= 31 && Green(g) <= 63 && Red(r) <= 31
  {
    MulLe(b, 100, 0x1F);
    MulLe(g, 100, 0x3F);
    MulLe(r, 100, 0x1F);
  }

  /** The fields occupy disjoint bits, so ORing them is adding them. */
  lemma RgbSum(r: Percent, g: Percent, b: Percent)
    ensures Rgb(r, g, b) == Blue(b) + 32 * Green(g) + 2048 * Red(r)
  {
    FieldBounds(r, g, b);
    Pow2Shifts();
    OrDisjoint(Blue(b), Green(g), 5);
    OrDisjoint(Blue(b) + 32 * Green(g), Red(r), 11);
  }

  /** A colour is a 16-bit value from which each field reads back. */
  lemma RgbFields(r: Percent, g: Percent, b: Percent)
    ensures Rgb(r, g, b) < 0x1_0000
    ensures Rgb(r, g, b) % 32 == Blue(b)
    ensures Rgb(r, g, b) / 32 % 64 == Green(g)
    ensures Rgb(r, g, b) / 2048 == Red(r)
  {
    FieldBounds(r, g, b);
    RgbSum(r, g, b);
    var lo, mid, hi := Blue(b), Green(g), Red(r);
    var v := lo + 32 * mid + 2048 * hi;
    assert v == lo + 32 * (mid + 64 * hi);
    assert v / 32 == mid + 64 * hi && v % 32 == lo;
    assert (mid + 64 * hi) / 64 == hi && (mid + 64 * hi) % 64 == mid;
  }

  /** Black is 0x0000 and white 0xFFFF. */
  lemma RgbBlackAndWhite()
    ensures Rgb(0, 0, 0) == 0
    ensures Rgb(100, 100, 100) == 0xFFFF
  {
    RgbSum(0, 0, 0);
    var full: Percent := 100;
    assert Blue(full) == 31 && Green(full) == 63 && Red(full) == 31;
    RgbSum(full, full, full);
  }

  /** More of any channel never gives a smaller colour value. */
  lemma RgbMonotone(r: Percent, g: Percent, b: Percent, r2: Percent, g2: Percent, b2: Percent)
    requires r <= r2 && g <= g2 && b <= b2
    ensures Blue(b) <= Blue(b2) && Green(g) <= Green(g2) && Red(r) <= Red(r2)
    ensures Rgb(r, g, b) <= Rgb(r2, g2, b2)
  {
    MulLe(b, b2, 0x1F);
    MulLe(g, g2, 0x3F);
    MulLe(r, r2, 0x1F);
    RgbSum(r, g, b);
    RgbSum(r2, g2, b2);
  }

  // ---------------------------------------------------------------------
  // Fonts (Core/Inc/gfxfont.h)

  /** `GFXglyph`. */
  datatype Glyph = Glyph(bitmapOffset: U16, width: Byte, height: Byte, xAdvance: Byte, xOffset: I8, yOffset: I8)

  /** `GFXfont`; `glyphs` is `None` for a font without a glyph table. The
    * bitmap itself is not part of this model. */
  datatype Font = Font(glyphs: Option<seq<Glyph>>, first: Byte, last: Byte,
                       fontWidth: Byte, fontHeight: Byte, xAdvance: Byte, yAdvance: Byte)

  /** A glyph table covers the characters `first` to `last`, and `last` is
    * below 255, where the `uint8_t` counter of `TFT_setFont`'s scan would
    * wrap around and never stop. */
  predicate ValidFont(f: Font)
  {
    f.glyphs.Some? ==> f.last < 255 && f.last - f.first + 1 <= |f.glyphs.value|
  }

  type GoodFont = f: Font | ValidFont(f) witness Font(None, 0, 0, 0, 0, 0, 0)

  predicate InRange(f: Font, c: int)
  {
    f.first <= c <= f.last
  }

  /** The glyphs `TFT_setFont` scans: those of `first` to `last`. */
  function Scanned(f: GoodFont): (gs: seq<Glyph>)
    requires f.glyphs.Some?
    ensures |gs| == Max(0, f.last - f.first + 1)
  {
    if f.first <= f.last then f.glyphs.value[..f.last - f.first + 1] else []
  }

  /** The topmost row over glyphs `gs`, as `TFT_setFont` keeps it: start
    * at 127, take any smaller `yOffset`. */
  function TopScan(gs: seq<Glyph>): I8
  {
    if |gs| == 0 then 127
    else
      var top := TopScan(gs[..|gs| - 1]);
      if gs[|gs| - 1].yOffset < top then gs[|gs| - 1].yOffset else top
  }

  /** The bottom row over glyphs `gs`: start at -127, take any greater
    * `yOffset + height`, stored into the `int8_t`. */
  function BottomScan(gs: seq<Glyph>): I8
  {
    if |gs| == 0 then -127
    else
      var bottom := BottomScan(gs[..|gs| - 1]);
      var yy := gs[|gs| - 1].yOffset + gs[|gs| - 1].height;
      if yy > bottom then ToI8(yy) else bottom
  }

  /** `tft_font_topy` after `TFT_setFont`. */
  function FontTop(f: GoodFont): I8
  {
    if f.glyphs.Some? then TopScan(Scanned(f)) else ToI8(1 - f.fontHeight)
  }

  /** `tft_font_bottomy` after `TFT_setFont`. */
  function FontBottom(f: GoodFont): I8
  {
    if f.glyphs.Some? then BottomScan(Scanned(f)) else 0
  }

  /** `TFT_getFontHeight`, returned as a `uint8_t`. */
  function Height(size: int, top: int, bottom: int): Byte
  {
    (size * (Abs(bottom - top) + 1)) % 256
  }

  /** The scanned top is the least `yOffset` of the glyphs. */
  lemma {:induction false} TopScanIsLeast(gs: seq<Glyph>)
    requires |gs| > 0
    ensures forall i :: 0 <= i < |gs| ==> TopScan(gs) <= gs[i].yOffset
    ensures exists i :: 0 <= i < |gs| && TopScan(gs) == gs[i].yOffset
  {
    var n := |gs| - 1;
    var init := gs[..n];
    if n == 0 {
      assert TopScan(gs) == gs[0].yOffset;
    } else {
      TopScanIsLeast(init);
      var i :| 0 <= i < n && TopScan(init) == init[i].yOffset;
      if gs[n].yOffset < TopScan(init) {
        assert TopScan(gs) == gs[n].yOffset;
      } else {
        assert TopScan(gs) == gs[i].yOffset;
      }
      forall k | 0 <= k < |gs|
        ensures TopScan(gs) <= gs[k].yOffset
      {
        if k < n {
          assert init[k] == gs[k];
        }
      }
    }
  }

  /** The scanned bottom is the greatest `yOffset + height`, or -127 when
    * every glyph ends higher, as long as no glyph reaches below row 127
    * (beyond which the `int8_t` wraps). */
  lemma {:induction false} BottomScanIsGreatest(gs: seq<Glyph>)
    requires forall i :: 0 <= i < |gs| ==> gs[i].yOffset + gs[i].height <= 127
    ensures forall i :: 0 <= i < |gs| ==> gs[i].yOffset + gs[i].height <= BottomScan(gs)
    ensures BottomScan(gs) == -127 || exists i :: 0 <= i < |gs| && BottomScan(gs) == gs[i].yOffset + gs[i].height
  {
    if |gs| > 0 {
      var n := |gs| - 1;
      var init := gs[..n];
      forall k | 0 <= k < n
        ensures init[k].yOffset + init[k].height <= 127
      {
        assert init[k] == gs[k];
      }
      BottomScanIsGreatest(init);
      var yy := gs[n].yOffset + gs[n].height;
      if yy > BottomScan(init) {
        assert BottomScan(gs) == yy;
      } else {
        assert BottomScan(gs) == BottomScan(init);
        if BottomScan(init) != -127 {
          var i :| 0 <= i < n && BottomScan(init) == init[i].yOffset + init[i].height;
          assert init[i] == gs[i];
        }
      }
      forall k | 0 <= k < |gs|
        ensures gs[k].yOffset + gs[k].height <= BottomScan(gs)
      {
        if k < n {
          assert init[k] == gs[k];
        }
      }
    }
  }

  /** Every glyph of a font lies between the rows `TFT_setFont` records,
    * and those rows are reached: the font height spans all its glyphs. */
  lemma GlyphsWithinFontRows(f: GoodFont, c: int)
    requires f.glyphs.Some? && InRange(f, c)
    requires forall i :: 0 <= i < |Scanned(f)| ==> Scanned(f)[i].yOffset + Scanned(f)[i].height <= 127
    ensures FontTop(f) <= f.glyphs.value[c - f.first].yOffset
    ensures f.glyphs.value[c - f.first].yOffset + f.glyphs.value[c - f.first].height <= FontBottom(f)
    ensures exists i :: 0 <= i < |Scanned(f)| && FontTop(f) == Scanned(f)[i].yOffset
  {
    var gs := Scanned(f);
    assert gs[c - f.first] == f.glyphs.value[c - f.first];
    TopScanIsLeast(gs);
    BottomScanIsGreatest(gs);
  }

  /** The glyphs of `f` end above row 128, so `TFT_setFont` stores every
    * bottom row into its `int8_t` unchanged. */
  predicate RowsFit(f: GoodFont)
    requires f.glyphs.Some?
  {
    forall i :: 0 <= i < |Scanned(f)| ==> Scanned(f)[i].yOffset + Scanned(f)[i].height <= 127
  }

  /** Unless the `uint8_t` product wraps, the height is at least the size. */
  lemma SizeWithinHeight(size: nat, top: int, bottom: int)
    requires size * (Abs(bottom - top) + 1) < 256
    ensures size <= Height(size, top, bottom)
  {
    MulLe(1, Abs(bottom - top) + 1, size);
  }

  /** Unless the `uint8_t` product wraps, a glyph between the rows `top`
    * and `bottom` fits in the height at any size. */
  lemma GlyphWithinHeight(size: nat, top: int, bottom: int, y: int, rows: nat)
    requires top <= y && y + rows <= bottom
    requires size * (Abs(bottom - top) + 1) < 256
    ensures size * rows <= Height(size, top, bottom)
  {
    MulLe(rows, Abs(bottom - top) + 1, size);
  }

  /** The height `TFT_getFontHeight` reports for a glyph font covers every
    * glyph at the font size, unless the `uint8_t` product wraps. */
  lemma GlyphHeightsFit(f: GoodFont, size: nat)
    requires f.glyphs.Some? && RowsFit(f)
    requires size * (Abs(FontBottom(f) - FontTop(f)) + 1) < 256
    ensures forall c :: InRange(f, c) ==>
      size * f.glyphs.value[c - f.first].height <= Height(size, FontTop(f), FontBottom(f))
  {
    var top, bottom := FontTop(f), FontBottom(f);
    forall c | InRange(f, c)
      ensures size * f.glyphs.value[c - f.first].height <= Height(size, top, bottom)
    {
      GlyphsWithinFontRows(f, c);
      var g := f.glyphs.value[c - f.first];
      GlyphWithinHeight(size, top, bottom, g.yOffset, g.height);
    }
  }

  /** `font32x50` (Core/Inc/font32x50.h), the glyph table of the value
    * font. */
  const FONT32X50: GoodFont := Font(Some([
    Glyph(0, 0, 0, 34, 0, 0),          // ' '
    Glyph(0, 0, 0, 34, 0, 0),          // '!'
    Glyph(0, 0, 0, 34, 0, 0),          // '"'
    Glyph(0, 0, 0, 34, 0, 0),          // '#'
    Glyph(0, 0, 0, 34, 0, 0),          // '$'
    Glyph(0, 0, 0, 34, 0, 0),          // '%'
    Glyph(0, 0, 0, 34, 0, 0),          // '&'
    Glyph(0, 0, 0, 34, 0, 0),          // '\''
    Glyph(0, 0, 0, 34, 0, 0),          // '('
    Glyph(0, 0, 0, 34, 0, 0),          // ')'
    Glyph(0, 0, 0, 34, 0, 0),          // '*'
    Glyph(2200, 32, 50, 34, 0, -49),   // '+'
    Glyph(0, 0, 0, 10, 0, 0),          // ','
    Glyph(2400, 32, 50, 34, 0, -49),   // '-'
    Glyph(2000, 32, 50, 34, 0, -49),   // '.'
    Glyph(0, 0, 0, 34, 0, -49),        // '/'
    Glyph(0, 32, 50, 34, 0, -49),      // '0'
    Glyph(200, 32, 50, 34, 0, -49),    // '1'
    Glyph(400, 32, 50, 34, 0, -49),    // '2'
    Glyph(600, 32, 50, 34, 0, -49),    // '3'
    Glyph(800, 32, 50, 34, 0, -49),    // '4'
    Glyph(1000, 32, 50, 34, 0, -49),   // '5'
    Glyph(1200, 32, 50, 34, 0, -49),   // '6'
    Glyph(1400, 32, 50, 34, 0, -49),   // '7'
    Glyph(1600, 32, 50, 34, 0, -49),   // '8'
    Glyph(1800, 32, 50, 34, 0, -49)    // '9'
    ]), 0x20, 0x39, 32, 50, 0, 52)

  /** The value font spans rows -49 to 1, so its height is 51. */
  lemma ValueFontMetrics()
    ensures FontTop(FONT32X50) == -49 && FontBottom(FONT32X50) == 1
    ensures Height(1, FontTop(FONT32X50), FontBottom(FONT32X50)) == 51
  {
    var gs := Scanned(FONT32X50);
    assert gs == FONT32X50.glyphs.value;
    ValueGlyphRows();
    TopScanIsLeast(gs);
    BottomScanIsGreatest(gs);
  }

  /** Every glyph of the value font lies within rows -49 to 1, and glyph 16
    * spans them both. */
  lemma ValueGlyphRows()
    ensures var gs := FONT32X50.glyphs.value;
      (forall i :: 0 <= i < |gs| ==> -49 <= gs[i].yOffset && gs[i].yOffset + gs[i].height <= 1)
      && 16 < |gs| && gs[16].yOffset == -49 && gs[16].yOffset + gs[16].height == 1
  {
  }

  // ---------------------------------------------------------------------
  // Text width and the cursor

  /** What `TFT_getStrWidth` adds for character `c`: the glyph's advance for
    * a character the glyph table covers, nothing for one it does not, and
    * the font's `xAdvance` for every character of a font without glyphs. */
  function StrStep(f: GoodFont, c: Byte): nat
  {
    if f.glyphs.Some? then
      if InRange(f, c) then f.glyphs.value[c - f.first].xAdvance else 0
    else f.xAdvance
  }

  /** What `TFT_printf` moves the cursor by for character `c`, before the
    * font size: the glyph's advance, or `fontWidth + 2` in a `uint8_t` for a
    * font without glyphs; characters outside `first` to `last` are skipped. */
  function CursorStep(f: GoodFont, c: Byte): nat
  {
    if !InRange(f, c) then 0
    else if f.glyphs.Some? then f.glyphs.value[c - f.first].xAdvance
    else (f.fontWidth + 2) % 256
  }

  /** The sum of `StrStep` over a string. */
  function StrAdvance(f: GoodFont, s: seq<Byte>): nat
  {
    if |s| == 0 then 0 else StrAdvance(f, s[..|s| - 1]) + StrStep(f, s[|s| - 1])
  }

  /** The sum of `CursorStep` over a string. */
  function CursorAdvance(f: GoodFont, s: seq<Byte>): nat
  {
    if |s| == 0 then 0 else CursorAdvance(f, s[..|s| - 1]) + CursorStep(f, s[|s| - 1])
  }

  /** The text `TFT_printf` draws: what fits its 200-byte buffer. */
  function Shown(text: seq<Byte>): (s: seq<Byte>)
    ensures |s| <= 199 && s <= text
    ensures |text| <= 199 ==> s == text
  {
    if |text| <= 199 then text else text[..199]
  }

  /** The width of a string is additive. */
  lemma {:induction false} StrAdvanceAppend(f: GoodFont, s: seq<Byte>, t: seq<Byte>)
    ensures StrAdvance(f, s + t) == StrAdvance(f, s) + StrAdvance(f, t)
    decreases |t|
  {
    if |t| > 0 {
      var n := |t| - 1;
      assert (s + t)[..|s + t| - 1] == s + t[..n];
      StrAdvanceAppend(f, s, t[..n]);
    } else {
      assert s + t == s;
    }
  }

  /** With a glyph table, the cursor of `TFT_printf` moves by exactly the
    * width `TFT_getStrWidth` measures, so text placed by that width ends
    * where it was meant to. */
  lemma {:induction false} CursorMatchesWidth(f: GoodFont, s: seq<Byte>)
    requires f.glyphs.Some?
    ensures CursorAdvance(f, s) == StrAdvance(f, s)
  {
    if |s| > 0 {
      CursorMatchesWidth(f, s[..|s| - 1]);
    }
  }

  /** Characters the glyph table does not cover take no room, neither in the
    * width nor on the screen. */
  lemma UncoveredCharacterIgnored(f: GoodFont, s: seq<Byte>, c: Byte)
    requires f.glyphs.Some? && !InRange(f, c)
    ensures StrAdvance(f, s + [c]) == StrAdvance(f, s)
    ensures CursorAdvance(f, s + [c]) == CursorAdvance(f, s)
  {
    assert (s + [c])[..|s|] == s;
  }

  /** Every character of the value font but ',' and those below '+' is 34
    * pixels wide. */
  lemma ValueFontDigitWidth(c: Byte)
    requires '+' as int <= c <= '9' as int && c != ',' as int
    ensures StrStep(FONT32X50, c) == 34
  {
  }

  // ---------------------------------------------------------------------
  // Pixels

  datatype Point = Point(x: int, y: int)

  /** A window from `(x1, y1)` to `(x2, y2)` set with `setXY`, into which
    * `count` pixels of `color` are then written row by row. */
  datatype Fill = Fill(x1: int, y1: int, x2: int, y2: int, color: U16, count: int)

  /** Fill `w` writes point `p`: `p` is in the window and its place in
    * row-major order comes before `count`. */
  predicate Paints(w: Fill, p: Point)
  {
    w.x1 <= p.x <= w.x2 && w.y1 <= p.y <= w.y2
    && (p.y - w.y1) * (w.x2 - w.x1 + 1) + (p.x - w.x1) < w.count
  }

  /** Some fill of `ws` writes point `p`. */
  predicate Drawn(ws: seq<Fill>, p: Point)
  {
    exists i :: 0 <= i < |ws| && Paints(ws[i], p)
  }

  /** `lcd_write_xy` of one pixel. */
  function Pixel(p: Point, color: U16): Fill
  {
    Fill(p.x, p.y, p.x, p.y, color, 1)
  }

  /** `drawHLine(x, y, l)`: a negative length is turned round so that the
    * window starts at the smaller column; all `|l| + 1` pixels of the window
    * are written. */
  function HLine(x: int, y: int, l: int, color: U16): Fill
  {
    if l < 0 then Fill(x + l, y, x + l + -l, y, color, -l + 1)
    else Fill(x, y, x + l, y, color, l + 1)
  }

  /** `drawVLine(x, y, l)`, turned the same way. */
  function VLine(x: int, y: int, l: int, color: U16): Fill
  {
    if l < 0 then Fill(x, y + l, x, y + l + -l, color, -l + 1)
    else Fill(x, y, x, y + l, color, l + 1)
  }

  /** `drawHLine` as written: `lcdWriteData16Repeat` is given `l`, one pixel
    * fewer than the window holds. */
  function HLineAsWritten(x: int, y: int, l: int, color: U16): Fill
  {
    if l < 0 then Fill(x + l, y, x + l + -l, y, color, -l)
    else Fill(x, y, x + l, y, color, l)
  }

  /** `drawVLine` as written. */
  function VLineAsWritten(x: int, y: int, l: int, color: U16): Fill
  {
    if l < 0 then Fill(x, y + l, x, y + l + -l, color, -l)
    else Fill(x, y, x, y + l, color, l)
  }

  /** A horizontal line covers exactly the columns between its two ends,
    * whichever way round they are given. */
  lemma HLineSpan(x: int, y: int, l: int, color: U16, p: Point)
    ensures Paints(HLine(x, y, l, color), p) <==> p.y == y && Min(x, x + l) <= p.x <= Max(x, x + l)
  {
  }

  /** A vertical line covers exactly the rows between its two ends. */
  lemma VLineSpan(x: int, y: int, l: int, color: U16, p: Point)
    ensures Paints(VLine(x, y, l, color), p) <==> p.x == x && Min(y, y + l) <= p.y <= Max(y, y + l)
  {
  }

  /** As written, a line leaves out its far end, and a line of length 0
    * writes nothing at all. */
  lemma HLineAsWrittenMissesEnd(x: int, y: int, l: int, color: U16)
    ensures !Paints(HLineAsWritten(x, y, l, color), Point(Max(x, x + l), y))
    ensures l != 0 ==> Paints(HLineAsWritten(x, y, l, color), Point(Min(x, x + l), y))
  {
  }

  /** The four lines of `TFT_drawRect`. */
  function RectFills(x1: int, y1: int, x2: int, y2: int, color: U16): seq<Fill>
  {
    [HLine(x1, y1, x2 - x1, color), HLine(x1, y2, x2 - x1, color),
     VLine(x1, y1, y2 - y1, color), VLine(x2, y1, y2 - y1, color)]
  }

  function RectFillsAsWritten(x1: int, y1: int, x2: int, y2: int, color: U16): seq<Fill>
  {
    [HLineAsWritten(x1, y1, x2 - x1, color), HLineAsWritten(x1, y2, x2 - x1, color),
     VLineAsWritten(x1, y1, y2 - y1, color), VLineAsWritten(x2, y1, y2 - y1, color)]
  }

  /** `p` is on the border of the rectangle with corners `(x1, y1)` and
    * `(x2, y2)`. */
  predicate OnOutline(x1: int, y1: int, x2: int, y2: int, p: Point)
  {
    Min(x1, x2) <= p.x <= Max(x1, x2) && Min(y1, y2) <= p.y <= Max(y1, y2)
    && (p.x == x1 || p.x == x2 || p.y == y1 || p.y == y2)
  }

  /** `TFT_drawRect` draws exactly the border of its rectangle. */
  lemma RectIsOutline(x1: int, y1: int, x2: int, y2: int, color: U16, p: Point)
    ensures Drawn(RectFills(x1, y1, x2, y2, color), p) <==> OnOutline(x1, y1, x2, y2, p)
  {
    var ws := RectFills(x1, y1, x2, y2, color);
    HLineSpan(x1, y1, x2 - x1, color, p);
    HLineSpan(x1, y2, x2 - x1, color, p);
    VLineSpan(x1, y1, y2 - y1, color, p);
    VLineSpan(x2, y1, y2 - y1, color, p);
    if OnOutline(x1, y1, x2, y2, p) {
      if p.y == y1 {
        assert Paints(ws[0], p);
      } else if p.y == y2 {
        assert Paints(ws[1], p);
      } else if p.x == x1 {
        assert Paints(ws[2], p);
      } else {
        assert Paints(ws[3], p);
      }
    }
  }

  /** As written, `TFT_drawRect` never writes its corner `(x2, y2)`. */
  lemma RectCornerMissedAsWritten(x1: int, y1: int, x2: int, y2: int, color: U16)
    requires x1 < x2 && y1 < y2
    ensures !Drawn(RectFillsAsWritten(x1, y1, x2, y2, color), Point(x2, y2))
  {
    var ws := RectFillsAsWritten(x1, y1, x2, y2, color);
    var p := Point(x2, y2);
    assert !Paints(ws[0], p) && !Paints(ws[1], p) && !Paints(ws[2], p) && !Paints(ws[3], p);
  }

  /** `TFT_fillRect`'s single window, written `(x2-x1+1) * (y2-y1+1)` times
    * (a `long` product passed as a `uint32_t` count). */
  function RectFill(x1: int, y1: int, x2: int, y2: int, color: U16): Fill
  {
    Fill(x1, y1, x2, y2, color, ((x2 - x1 + 1) * (y2 - y1 + 1)) % 0x1_0000_0000)
  }

  lemma MulLe(a: int, b: int, c: nat)
    requires a <= b
    ensures a * c <= b * c
  {
  }

  /** An on-screen `TFT_fillRect` writes every point of its rectangle and no
    * other. */
  lemma FillRectIsBox(x1: int, y1: int, x2: int, y2: int, color: U16, p: Point)
    requires 0 <= x1 <= x2 < TFT_WIDTH && 0 <= y1 <= y2 < TFT_HEIGHT
    ensures Paints(RectFill(x1, y1, x2, y2, color), p) <==> x1 <= p.x <= x2 && y1 <= p.y <= y2
  {
    var w, h := x2 - x1 + 1, y2 - y1 + 1;
    MulLe(w, TFT_WIDTH, h);
    MulLe(h, TFT_HEIGHT, TFT_WIDTH);
    assert w * h < 0x1_0000_0000;
    if x1 <= p.x <= x2 && y1 <= p.y <= y2 {
      MulLe(p.y - y1, h - 1, w);
      assert (p.y - y1) * w + (p.x - x1) < w * h;
    }
  }

  /** The pixels of a line, one window each. */
  function Plot(path: seq<Point>, color: U16): (ws: seq<Fill>)
    ensures |ws| == |path|
  {
    if |path| == 0 then [] else Plot(path[..|path| - 1], color) + [Pixel(path[|path| - 1], color)]
  }

  lemma {:induction false} PlotAt(path: seq<Point>, color: U16, i: int)
    requires 0 <= i < |path|
    ensures Plot(path, color)[i] == Pixel(path[i], color)
  {
    if i < |path| - 1 {
      PlotAt(path[..|path| - 1], color, i);
    }
  }

  /** Every point of a plotted path is drawn. */
  lemma PlotDraws(path: seq<Point>, color: U16, i: int)
    requires 0 <= i < |path|
    ensures Drawn(Plot(path, color), path[i])
  {
    PlotAt(path, color, i);
    assert Paints(Plot(path, color)[i], path[i]);
  }

  function Sign(v: int): int { if v > 0 then 1 else -1 }

  /** One step of `TFT_drawLine`'s diagonal case: along the axis with the
    * larger distance always one pixel toward the end, along the other
    * either none or one. */
  predicate LineStep(p: Point, q: Point, x1: int, y1: int, x2: int, y2: int)
  {
    if Abs(x2 - x1) < Abs(y2 - y1) then
      q.y == p.y + Sign(y2 - y1) && (q.x == p.x || q.x == p.x + Sign(x2 - x1))
    else
      q.x == p.x + Sign(x2 - x1) && (q.y == p.y || q.y == p.y + Sign(y2 - y1))
  }

  /** The pixels of a line from `(x1, y1)` to `(x2, y2)`: both ends, one
    * pixel per step of the longer axis. */
  predicate LinePath(path: seq<Point>, x1: int, y1: int, x2: int, y2: int)
  {
    |path| == Max(Abs(x2 - x1), Abs(y2 - y1)) + 1
    && path[0] == Point(x1, y1) && path[|path| - 1] == Point(x2, y2)
    && LineSteps(path, x1, y1, x2, y2)
  }

  /** Each pixel of `path` follows from the one before by a `LineStep`. */
  predicate LineSteps(path: seq<Point>, x1: int, y1: int, x2: int, y2: int)
  {
    forall k :: 0 <= k < |path| - 1 ==> LineStep(path[k], path[k + 1], x1, y1, x2, y2)
  }

  lemma StepsExtend(path: seq<Point>, q: Point, x1: int, y1: int, x2: int, y2: int)
    requires |path| > 0 && LineSteps(path, x1, y1, x2, y2)
    requires LineStep(path[|path| - 1], q, x1, y1, x2, y2)
    ensures LineSteps(path + [q], x1, y1, x2, y2)
  {
    var p := path + [q];
    forall k | 0 <= k < |p| - 1
      ensures LineStep(p[k], p[k + 1], x1, y1, x2, y2)
    {
      if k < |path| - 1 {
        assert p[k] == path[k] && p[k + 1] == path[k + 1];
      }
    }
  }

  /** The Bresenham state of a line that has gone `k` steps along its major
    * axis (length `a`) and `j` along its minor axis (length `b`): the error
    * term is `t = k * b - j * a - a / 2` and stays in `-a..0`. */
  predicate Tracks(a: int, b: int, k: int, j: int, t: int)
  {
    1 <= b <= a && 0 <= j <= k <= a && t == k * b - j * a - a / 2 && -a <= t <= 0
  }

  /** Starting out, the error term is `-(a / 2)`. */
  lemma TracksStart(a: int, b: int)
    requires 1 <= b <= a
    ensures Tracks(a, b, 0, 0, -(a / 2))
  {
  }

  /** One step along the major axis: the minor axis steps exactly when the
    * error term turns non-negative, and the error term stays in range. */
  lemma TracksStep(a: int, b: int, k: int, j: int, t: int)
    requires Tracks(a, b, k, j, t) && k < a
    ensures t + b >= 0 ==> Tracks(a, b, k + 1, j + 1, t + b - a)
    ensures t + b < 0 ==> Tracks(a, b, k + 1, j, t + b)
  {
    assert (k + 1) * b == k * b + b;
    assert (j + 1) * a == j * a + a;
  }

  /** The minor axis never passes its length `b`, and reaches it exactly
    * when the major axis reaches `a`. */
  lemma MinorSteps(a: int, b: int, k: int, j: int, t: int)
    requires Tracks(a, b, k, j, t)
    ensures j <= b
    ensures k == a ==> j == b
  {
    MulLe(k, a, b);
    if j > b {
      MulLe(b + 1, j, a);
      assert false;
    }
    if k == a && j < b {
      MulLe(j, b - 1, a);
      assert false;
    }
  }

  // ---------------------------------------------------------------------
  // Start-up table and registers

  /** What the driver sends to the controller: a pause, a command byte (RS
    * low) or a data byte (RS high). */
  datatype BusOp = Delay(us: int) | Command(b: Byte) | Data(b: Byte)

  /** The end marker of `tft_init_data`. */
  const INIT_END: int := 0xFFFF

  /** How `TFT_Init` reads one entry of the table: from 0x200 on a pause of
    * `v - 0x200` microseconds, from 0x100 on a command, below that data. */
  function InitOp(v: U16): BusOp
  {
    if v >= 0x200 then Delay(v - 0x200)
    else if v >= 0x100 then Command(v % 256)
    else Data(v % 256)
  }

  /** The table read up to its end marker. */
  function Decode(table: seq<U16>): seq<BusOp>
  {
    if |table| == 0 || table[0] == INIT_END then [] else [InitOp(table[0])] + Decode(table[1..])
  }

  /** `Decode` reads entry by entry until the first end marker: entry `k`
    * is a pause, a command or data by its value, and nothing after the
    * marker is read. */
  lemma {:induction false} DecodeEntries(table: seq<U16>, k: int)
    requires 0 <= k < |Decode(table)|
    ensures k < |table| && table[k] != INIT_END
    ensures table[k] >= 0x200 ==> Decode(table)[k] == Delay(table[k] - 0x200)
    ensures 0x100 <= table[k] < 0x200 ==> Decode(table)[k] == Command(table[k] - 0x100)
    ensures table[k] < 0x100 ==> Decode(table)[k] == Data(table[k])
  {
    if k > 0 {
      DecodeEntries(table[1..], k - 1);
    }
  }

  /** Whatever follows the end marker is never read. */
  lemma {:induction false} DecodeStopsAtEnd(table: seq<U16>, rest: seq<U16>)
    requires INIT_END in table
    ensures Decode(table + rest) == Decode(table)
  {
    if table[0] != INIT_END {
      assert (table + rest)[1..] == table[1..] + rest;
      DecodeStopsAtEnd(table[1..], rest);
    }
  }

  /** `tft_init_data`. */
  const TFT_INIT_DATA: seq<U16> := [
    0x100,
    0x1F0, 0x5A, 0x5A,
    0x1F1, 0x5A, 0x5A,
    0x1FC, 0xA5, 0xA5,
    0x1F3, 0x07, 0x00, 0x00, 0x00, 0x00, 0x00, 0x04,
    0x1F4, 0x02, 0xB6, 0x52, 0x52, 0x52, 0x52, 0x50, 0x32, 0x13, 0x54, 0x51, 0x11, 0x2A, 0x2A, 0xB3,
    0x111,
    0x200 + 1000,
    0x1F2, 0x3C, 0x7E, 0x03, 0x08, 0x08, 0x02, 0x10, 0x00, 0x2F, 0x10, 0xC8, 0x5D, 0x5D,
    0x1F6, 0x29, 0x02, 0x0F, 0x00, 0x14, 0x44, 0x11, 0x15,
    0x1F8, 0x33, 0x00, 0x19, 0x21, 0x40, 0x00, 0x09, 0x0A,
    0x1F7, 0x10, 0x80, 0x10, 0x02,
    0x1F9, 0x04,
    0x1FA, 0x16, 0x2D, 0x09, 0x12, 0x1F, 0x00, 0x00, 0x02, 0x34, 0x32, 0x2A, 0x10, 0x00, 0x00,
    0x1FB, 0x16, 0x2D, 0x09, 0x12, 0x1F, 0x00, 0x00, 0x02, 0x34, 0x32, 0x2A, 0x10, 0x00, 0x00,
    0x1F9, 0x02,
    0x1FA, 0x04, 0x2C, 0x08, 0x1E, 0x30, 0x1D, 0x17, 0x13, 0x24, 0x26, 0x20, 0x06, 0x00, 0x00,
    0x1FB, 0x04, 0x2C, 0x08, 0x1E, 0x30, 0x1D, 0x17, 0x17, 0x24, 0x26, 0x20, 0x06, 0x00, 0x00,
    0x1F9, 0x01,
    0x1FA, 0x22, 0x2E, 0x0A, 0x15, 0x20, 0x04, 0x07, 0x02, 0x38, 0x33, 0x25, 0x00, 0x00, 0x00,
    0x1FB, 0x22, 0x2D, 0x0A, 0x15, 0x20, 0x04, 0x06, 0x02, 0x38, 0x35, 0x25, 0x00, 0x00, 0x00,
    0x136, 0x28,
    0x13A, 0x55,
    0x12A, 0x00, 0xF0, 0x01, 0x3F,
    0x12B, 0x00, 0x00, 0x01, 0xDF,
    0x1ED, 0x08,
    0x153, 0x24,
    0x151, 0xFF,
    0x129,
    0xFFFF
  ]

  /** `TFT_setRegister(reg, num, param)`: the register number as a command,
    * then its parameters as data. */
  function RegisterWrite(reg: Byte, params: seq<Byte>): (ops: seq<BusOp>)
    ensures |ops| == |params| + 1
  {
    [Command(reg)] + seq(|params|, i requires 0 <= i < |params| => Data(params[i]))
  }

  /** `TFT_setRegister` as written: RS is driven low again before the
    * parameters, so they too reach the controller as commands. */
  function RegisterWriteAsWritten(reg: Byte, params: seq<Byte>): (ops: seq<BusOp>)
    ensures |ops| == |params| + 1
  {
    [Command(reg)] + seq(|params|, i requires 0 <= i < |params| => Command(params[i]))
  }

  /** A register write sends the register as a command and every parameter
    * as data, in order. */
  lemma RegisterParamsAreData(reg: Byte, params: seq<Byte>, i: int)
    requires 0 <= i < |params|
    ensures RegisterWrite(reg, params)[0] == Command(reg)
    ensures RegisterWrite(reg, params)[i + 1] == Data(params[i])
  {
  }

  /** As written, the first parameter goes out as a command byte. */
  lemma RegisterParamsAsWrittenAreCommands(reg: Byte, params: seq<Byte>)
    requires |params| > 0
    ensures RegisterWriteAsWritten(reg, params)[1] == Command(params[0])
    ensures RegisterWriteAsWritten(reg, params) != RegisterWrite(reg, params)
  {
    assert RegisterWriteAsWritten(reg, params)[1] != RegisterWrite(reg, params)[1];
  }

  /** Without parameters, as in `TFT_setState`, the two agree. */
  lemma RegisterWithoutParams(reg: Byte)
    ensures RegisterWriteAsWritten(reg, []) == RegisterWrite(reg, []) == [Command(reg)]
  {
  }

  // ---------------------------------------------------------------------
  // Rounded rectangles

  /** The eight pieces of `TFT_drawRoundRect`: four corner pixels set in by
    * one, and the four sides shortened by two at each end. */
  function RoundRectFills(x1: int, y1: int, x2: int, y2: int, color: U16): seq<Fill>
  {
    [Pixel(Point(x1 + 1, y1 + 1), color), Pixel(Point(x2 - 1, y1 + 1), color),
     Pixel(Point(x1 + 1, y2 - 1), color), Pixel(Point(x2 - 1, y2 - 1), color),
     HLine(x1 + 2, y1, x2 - x1 - 4, color), HLine(x1 + 2, y2, x2 - x1 - 4, color),
     VLine(x1, y1 + 2, y2 - y1 - 4, color), VLine(x2, y1 + 2, y2 - y1 - 4, color)]
  }

  /** `TFT_drawRoundRect` and `TFT_fillRoundRect` draw only when both sides
    * exceed 4 pixels. */
  predicate RoundRectDrawable(x1: int, y1: int, x2: int, y2: int)
  {
    x2 - x1 > 4 && y2 - y1 > 4
  }

  /** The outline of a rounded rectangle stays inside its box and leaves
    * the four corners open. */
  lemma RoundRectShape(x1: int, y1: int, x2: int, y2: int, color: U16, p: Point)
    requires RoundRectDrawable(x1, y1, x2, y2)
    ensures Drawn(RoundRectFills(x1, y1, x2, y2, color), p) ==> x1 <= p.x <= x2 && y1 <= p.y <= y2
    ensures (p.x == x1 || p.x == x2) && (p.y == y1 || p.y == y2) ==> !Drawn(RoundRectFills(x1, y1, x2, y2, color), p)
    ensures x1 + 2 <= p.x <= x2 - 2 && (p.y == y1 || p.y == y2) ==> Drawn(RoundRectFills(x1, y1, x2, y2, color), p)
    ensures y1 + 2 <= p.y <= y2 - 2 && (p.x == x1 || p.x == x2) ==> Drawn(RoundRectFills(x1, y1, x2, y2, color), p)
  {
    var ws := RoundRectFills(x1, y1, x2, y2, color);
    HLineSpan(x1 + 2, y1, x2 - x1 - 4, color, p);
    HLineSpan(x1 + 2, y2, x2 - x1 - 4, color, p);
    VLineSpan(x1, y1 + 2, y2 - y1 - 4, color, p);
    VLineSpan(x2, y1 + 2, y2 - y1 - 4, color, p);
    if x1 + 2 <= p.x <= x2 - 2 && p.y == y1 {
      assert Paints(ws[4], p);
    }
    if x1 + 2 <= p.x <= x2 - 2 && p.y == y2 {
      assert Paints(ws[5], p);
    }
    if y1 + 2 <= p.y <= y2 - 2 && p.x == x1 {
      assert Paints(ws[6], p);
    }
    if y1 + 2 <= p.y <= y2 - 2 && p.x == x2 {
      assert Paints(ws[7], p);
    }
  }

  /** Row `i` from the top and from the bottom of `TFT_fillRoundRect`: the
    * first two rows set in by two and one pixels, the others full width. */
  function FillRow(x1: int, y1: int, x2: int, y2: int, i: int, color: U16): seq<Fill>
  {
    if i == 0 then [HLine(x1 + 2, y1 + i, x2 - x1 - 4, color), HLine(x1 + 2, y2 - i, x2 - x1 - 4, color)]
    else if i == 1 then [HLine(x1 + 1, y1 + i, x2 - x1 - 2, color), HLine(x1 + 1, y2 - i, x2 - x1 - 2, color)]
    else [HLine(x1, y1 + i, x2 - x1, color), HLine(x1, y2 - i, x2 - x1, color)]
  }

  /** The rows `0` to `n - 1` of `TFT_fillRoundRect`, in order. */
  function FillRows(x1: int, y1: int, x2: int, y2: int, n: nat, color: U16): (ws: seq<Fill>)
    ensures |ws| == 2 * n
  {
    if n == 0 then [] else FillRows(x1, y1, x2, y2, n - 1, color) + FillRow(x1, y1, x2, y2, n - 1, color)
  }

  /** The fills of row `i` are the entries `2i` and `2i + 1`. */
  lemma {:induction false} FillRowsAt(x1: int, y1: int, x2: int, y2: int, n: nat, color: U16, i: nat)
    requires i < n
    ensures FillRows(x1, y1, x2, y2, n, color)[2 * i] == FillRow(x1, y1, x2, y2, i, color)[0]
    ensures FillRows(x1, y1, x2, y2, n, color)[2 * i + 1] == FillRow(x1, y1, x2, y2, i, color)[1]
  {
    if i < n - 1 {
      FillRowsAt(x1, y1, x2, y2, n - 1, color, i);
    }
  }

  /** A filled rounded rectangle covers every row of its box, each row
    * symmetric about the middle and inside the box. */
  lemma FillRoundRectRows(x1: int, y1: int, x2: int, y2: int, color: U16, y: int)
    requires RoundRectDrawable(x1, y1, x2, y2) && y1 <= y <= y2
    ensures Drawn(FillRows(x1, y1, x2, y2, (y2 - y1) / 2 + 1, color), Point(x1 + 2, y))
    ensures Drawn(FillRows(x1, y1, x2, y2, (y2 - y1) / 2 + 1, color), Point(x2 - 2, y))
  {
    var n := (y2 - y1) / 2 + 1;
    var ws := FillRows(x1, y1, x2, y2, n, color);
    var i := if y - y1 <= y2 - y then y - y1 else y2 - y;
    assert i < n;
    FillRowsAt(x1, y1, x2, y2, n, color, i);
    var row := FillRow(x1, y1, x2, y2, i, color);
    if y - y1 <= y2 - y {
      assert Paints(row[0], Point(x1 + 2, y)) && Paints(row[0], Point(x2 - 2, y));
      assert Paints(ws[2 * i], Point(x1 + 2, y)) && Paints(ws[2 * i], Point(x2 - 2, y));
    } else {
      assert Paints(row[1], Point(x1 + 2, y)) && Paints(row[1], Point(x2 - 2, y));
      assert Paints(ws[2 * i + 1], Point(x1 + 2, y)) && Paints(ws[2 * i + 1], Point(x2 - 2, y));
    }
  }

  /** As written, the top row of a filled rounded rectangle is set in by two
    * pixels on the left but by three on the right. */
  lemma FillRoundRectAsWrittenLopsided(x1: int, y1: int, x2: int, y2: int, color: U16)
    requires RoundRectDrawable(x1, y1, x2, y2)
    ensures Paints(HLineAsWritten(x1 + 2, y1, x2 - x1 - 4, color), Point(x1 + 2, y1))
    ensures !Paints(HLineAsWritten(x1 + 2, y1, x2 - x1 - 4, color), Point(x2 - 2, y1))
  {
  }

  // ---------------------------------------------------------------------
  // The driver state

  /** The glyph scan of `TFT_setFont`: from 127 and -127, the least
    * `yOffset` and the greatest `yOffset + height` over the glyphs from
    * `first` to `last`. */
  method ScanFont(f: GoodFont) returns (top: I8, bottom: I8)
    requires f.glyphs.Some?
    ensures top == FontTop(f) && bottom == FontBottom(f)
  {
    var gs := Scanned(f);
    top, bottom := 127, -127;
    var c: int := f.first;
    while c <= f.last
      invariant f.first <= c && c - f.first <= |gs|
      invariant top == TopScan(gs[..c - f.first])
      invariant bottom == BottomScan(gs[..c - f.first])
    {
      var glyph := f.glyphs.value[c - f.first];
      assert glyph == gs[c - f.first];
      assert gs[..c - f.first + 1][..c - f.first] == gs[..c - f.first];
      if glyph.yOffset < top {
        top := glyph.yOffset;
      }
      var yy := glyph.yOffset + glyph.height;
      if yy > bottom {
        bottom := ToI8(yy);
      }
      c := c + 1;
    }
    assert gs[..c - f.first] == gs;
  }

  /** The module-level state of tft.c, with the controller's input recorded
    * as `bus` (start-up and register writes) and `out` (pixel windows). */
  class Display {
    var xpos: U16
    var ypos: U16
    var fontTop: I8
    var fontBottom: I8
    var fontSize: U16
    var font: Option<GoodFont>
    var background: U16
    var foreground: U16
    var backlight: bool
    var bus: seq<BusOp>
    var out: seq<Fill>

    /** `FreeSansBold9pt7b` and `FreeSansBold12pt7b`, whose tables are not
      * part of this model. */
    const font10x16: GoodFont
    const font16x24: GoodFont

    /** The state at reset: the static initialisers of tft.c, and no font
      * chosen yet. */
    constructor(font10x16: GoodFont, font16x24: GoodFont)
      ensures this.font10x16 == font10x16 && this.font16x24 == font16x24
      ensures background == Rgb(0, 0, 0) && foreground == Rgb(100, 100, 100)
      ensures xpos == 0 && ypos == 0 && fontTop == 0 && fontBottom == 0 && fontSize == 1
      ensures font == None && !backlight && bus == [] && out == []
    {
      RgbBlackAndWhite();
      this.font10x16 := font10x16;
      this.font16x24 := font16x24;
      background := Rgb(0, 0, 0);
      foreground := Rgb(100, 100, 100);
      xpos, ypos := 0, 0;
      fontTop, fontBottom, fontSize := 0, 0, 1;
      font := None;
      backlight := false;
      bus, out := [], [];
    }

    /** The font `TFT_setFont` picks for a number; any unknown number gets
      * the 10x16 font. */
    function FontFor(no: Byte): (f: GoodFont)
      ensures no != FONT_16X24 && no != FONT_32X50 ==> f == font10x16
    {
      if no == FONT_16X24 then font16x24 else if no == FONT_32X50 then FONT32X50 else font10x16
    }

    /** `TFT_setFont`: selects the font, scans its glyphs for the rows they
      * use and resets the font size to 1. */
    method SetFont(no: Byte)
      modifies this
      ensures font == Some(FontFor(no))
      ensures fontTop == FontTop(FontFor(no)) && fontBottom == FontBottom(FontFor(no))
      ensures fontSize == 1
      ensures xpos == old(xpos) && ypos == old(ypos) && background == old(background) && foreground == old(foreground)
      ensures backlight == old(backlight) && bus == old(bus) && out == old(out)
    {
      var f := FontFor(no);
      font := Some(f);
      if f.glyphs.Some? {
        fontTop, fontBottom := ScanFont(f);
      } else {
        fontTop := ToI8(1 - f.fontHeight);
        fontBottom := 0;
      }
      fontSize := 1;
    }

    /** The rows of the glyph font `TFT_setFont` chose. */
    predicate GlyphFontSet()
      reads this
    {
      font.Some? && font.value.glyphs.Some? && RowsFit(font.value)
      && fontTop == FontTop(font.value) && fontBottom == FontBottom(font.value)
    }

    /** `TFT_getFontHeight`: the rows from the font's top to its bottom at
      * the font size, in a `uint8_t`. Unless that product wraps, it is at
      * least the font size and, once a glyph font is set, every glyph at
      * the font size fits in it. */
    function FontHeight(): (h: Byte)
      reads this
      ensures fontSize * (Abs(fontBottom - fontTop) + 1) < 256 ==> fontSize <= h
      ensures GlyphFontSet() && fontSize * (Abs(fontBottom - fontTop) + 1) < 256 ==>
        forall c :: InRange(font.value, c) ==> fontSize * font.value.glyphs.value[c - font.value.first].height <= h
    {
      var size, top, bottom := fontSize, fontTop, fontBottom;
      if size * (Abs(bottom - top) + 1) < 256 then
        SizeWithinHeight(size, top, bottom);
        if GlyphFontSet() then
          GlyphHeightsFit(font.value, size);
          Height(size, top, bottom)
        else Height(size, top, bottom)
      else Height(size, top, bottom)
    }

    /** `TFT_getStrWidth`: the width of a string in pixels, at the current
      * font size. The string is the characters before its terminating 0. */
    method GetStrWidth(txt: seq<Byte>) returns (width: int)
      requires font.Some? && 0 !in txt
      ensures width == fontSize * StrAdvance(font.value, txt)
    {
      var f := font.value;
      var len := 0;
      var i := 0;
      while i < |txt|
        invariant 0 <= i <= |txt|
        invariant len == StrAdvance(f, txt[..i])
      {
        var c := txt[i];
        assert txt[..i + 1][..i] == txt[..i];
        if f.glyphs.Some? {
          if f.first <= c <= f.last {
            len := len + f.glyphs.value[c - f.first].xAdvance;
          }
        } else {
          len := len + f.xAdvance;
        }
        i := i + 1;
      }
      assert txt[..i] == txt;
      width := len * fontSize;
    }

    /** `TFT_printf` with the formatted text given: the cursor moves right
      * by the advance of every character the font covers, times the font
      * size, in 16 bits; the glyph pixels are not part of this model. */
    method Print(text: seq<Byte>) returns (ret: int)
      requires font.Some? && 0 !in text
      modifies this
      ensures ret == |text|
      ensures xpos == (old(xpos) + old(fontSize) * CursorAdvance(old(font).value, Shown(text))) % 0x1_0000
      ensures ypos == old(ypos) && font == old(font) && fontSize == old(fontSize)
      ensures fontTop == old(fontTop) && fontBottom == old(fontBottom)
      ensures background == old(background) && foreground == old(foreground)
      ensures backlight == old(backlight) && bus == old(bus) && out == old(out)
    {
      var f := font.value;
      var txt := Shown(text);
      var i := 0;
      while i < |txt|
        invariant 0 <= i <= |txt|
        invariant xpos == (old(xpos) + fontSize * CursorAdvance(f, txt[..i])) % 0x1_0000
        invariant ypos == old(ypos) && font == old(font) && fontSize == old(fontSize)
        invariant fontTop == old(fontTop) && fontBottom == old(fontBottom)
        invariant background == old(background) && foreground == old(foreground)
        invariant backlight == old(backlight) && bus == old(bus) && out == old(out)
      {
        var c := txt[i];
        assert txt[..i + 1][..i] == txt[..i];
        if f.first <= c <= f.last {
          var xAdvance: int;
          if f.glyphs.Some? {
            xAdvance := f.glyphs.value[c - f.first].xAdvance;
          } else {
            xAdvance := (f.fontWidth + 2) % 256;
          }
          CursorStepMod(old(xpos), fontSize, CursorAdvance(f, txt[..i]), xAdvance);
          xpos := (xpos + fontSize * xAdvance) % 0x1_0000;
        }
        i := i + 1;
      }
      assert txt[..i] == txt;
      ret := |text|;
    }

    /** `TFT_drawLine`: a horizontal or vertical line as one window, any
      * other line pixel by pixel along the Bresenham path. */
    method DrawLine(x1: int, y1: int, x2: int, y2: int) returns (ghost path: seq<Point>)
      modifies this
      ensures y1 == y2 ==> out == old(out) + [HLine(x1, y1, x2 - x1, foreground)]
      ensures y1 != y2 && x1 == x2 ==> out == old(out) + [VLine(x1, y1, y2 - y1, foreground)]
      ensures y1 != y2 && x1 != x2 ==> out == old(out) + Plot(path, foreground) && LinePath(path, x1, y1, x2, y2)
      ensures Drawn(out[|old(out)|..], Point(x1, y1)) && Drawn(out[|old(out)|..], Point(x2, y2))
      ensures xpos == old(xpos) && ypos == old(ypos) && font == old(font) && fontSize == old(fontSize)
      ensures fontTop == old(fontTop) && fontBottom == old(fontBottom)
      ensures background == old(background) && foreground == old(foreground)
      ensures backlight == old(backlight) && bus == old(bus)
    {
      var before := out;
      if y1 == y2 {
        out := out + [HLine(x1, y1, x2 - x1, foreground)];
        path := [];
        HLineSpan(x1, y1, x2 - x1, foreground, Point(x1, y1));
        HLineSpan(x1, y1, x2 - x1, foreground, Point(x2, y2));
        assert out[|before|..][0] == HLine(x1, y1, x2 - x1, foreground);
      } else if x1 == x2 {
        out := out + [VLine(x1, y1, y2 - y1, foreground)];
        path := [];
        VLineSpan(x1, y1, y2 - y1, foreground, Point(x1, y1));
        VLineSpan(x1, y1, y2 - y1, foreground, Point(x2, y2));
        assert out[|before|..][0] == VLine(x1, y1, y2 - y1, foreground);
      } else {
        if Abs(x2 - x1) < Abs(y2 - y1) {
          path := SteepLine(x1, y1, x2, y2);
        } else {
          path := FlatLine(x1, y1, x2, y2);
        }
        assert out[|before|..] == Plot(path, foreground);
        PlotDraws(path, foreground, 0);
        PlotDraws(path, foreground, |path| - 1);
      }
    }

    /** The diagonal case of `TFT_drawLine` when the line is longer across
      * than down: one pixel per column. */
    method FlatLine(x1: int, y1: int, x2: int, y2: int) returns (ghost path: seq<Point>)
      requires x1 != x2 && y1 != y2 && Abs(x2 - x1) >= Abs(y2 - y1)
      modifies this
      ensures out == old(out) + Plot(path, foreground) && LinePath(path, x1, y1, x2, y2)
      ensures xpos == old(xpos) && ypos == old(ypos) && font == old(font) && fontSize == old(fontSize)
      ensures fontTop == old(fontTop) && fontBottom == old(fontBottom)
      ensures background == old(background) && foreground == old(foreground)
      ensures backlight == old(backlight) && bus == old(bus)
    {
      var ws;
      ws, path := FlatPixels(x1, y1, x2, y2, foreground);
      out := out + ws;
    }

    /** The diagonal case of `TFT_drawLine` when the line is longer down
      * than across: one pixel per row. */
    method SteepLine(x1: int, y1: int, x2: int, y2: int) returns (ghost path: seq<Point>)
      requires x1 != x2 && y1 != y2 && Abs(x2 - x1) < Abs(y2 - y1)
      modifies this
      ensures out == old(out) + Plot(path, foreground) && LinePath(path, x1, y1, x2, y2)
      ensures xpos == old(xpos) && ypos == old(ypos) && font == old(font) && fontSize == old(fontSize)
      ensures fontTop == old(fontTop) && fontBottom == old(fontBottom)
      ensures background == old(background) && foreground == old(foreground)
      ensures backlight == old(backlight) && bus == old(bus)
    {
      var ws;
      ws, path := SteepPixels(x1, y1, x2, y2, foreground);
      out := out + ws;
    }

    /** `TFT_drawRect`: its four sides. */
    method DrawRect(x1: int, y1: int, x2: int, y2: int)
      modifies this
      ensures out == old(out) + RectFills(x1, y1, x2, y2, foreground)
      ensures xpos == old(xpos) && ypos == old(ypos) && font == old(font) && fontSize == old(fontSize)
      ensures fontTop == old(fontTop) && fontBottom == old(fontBottom)
      ensures background == old(background) && foreground == old(foreground)
      ensures backlight == old(backlight) && bus == old(bus)
    {
      out := out + [HLine(x1, y1, x2 - x1, foreground)];
      out := out + [HLine(x1, y2, x2 - x1, foreground)];
      out := out + [VLine(x1, y1, y2 - y1, foreground)];
      out := out + [VLine(x2, y1, y2 - y1, foreground)];
    }

    /** `TFT_fillRect`: one window, filled. */
    method FillRect(x1: int, y1: int, x2: int, y2: int)
      modifies this
      ensures out == old(out) + [RectFill(x1, y1, x2, y2, foreground)]
      ensures xpos == old(xpos) && ypos == old(ypos) && font == old(font) && fontSize == old(fontSize)
      ensures fontTop == old(fontTop) && fontBottom == old(fontBottom)
      ensures background == old(background) && foreground == old(foreground)
      ensures backlight == old(backlight) && bus == old(bus)
    {
      out := out + [RectFill(x1, y1, x2, y2, foreground)];
    }

    /** `TFT_drawRoundRect`: nothing unless both sides exceed 4. */
    method DrawRoundRect(x1: int, y1: int, x2: int, y2: int)
      modifies this
      ensures out == old(out) + (if RoundRectDrawable(x1, y1, x2, y2) then RoundRectFills(x1, y1, x2, y2, foreground) else [])
      ensures xpos == old(xpos) && ypos == old(ypos) && font == old(font) && fontSize == old(fontSize)
      ensures fontTop == old(fontTop) && fontBottom == old(fontBottom)
      ensures background == old(background) && foreground == old(foreground)
      ensures backlight == old(backlight) && bus == old(bus)
    {
      if x2 - x1 > 4 && y2 - y1 > 4 {
        out := out + RoundRectFills(x1, y1, x2, y2, foreground);
      }
    }

    /** `TFT_fillRoundRect`: nothing unless both sides exceed 4; otherwise
      * rows from the top and the bottom toward the middle. */
    method FillRoundRect(x1: int, y1: int, x2: int, y2: int)
      modifies this
      ensures out == old(out) + (if RoundRectDrawable(x1, y1, x2, y2) then FillRows(x1, y1, x2, y2, (y2 - y1) / 2 + 1, foreground) else [])
      ensures xpos == old(xpos) && ypos == old(ypos) && font == old(font) && fontSize == old(fontSize)
      ensures fontTop == old(fontTop) && fontBottom == old(fontBottom)
      ensures background == old(background) && foreground == old(foreground)
      ensures backlight == old(backlight) && bus == old(bus)
    {
      if x2 - x1 > 4 && y2 - y1 > 4 {
        var i := 0;
        while i < (y2 - y1) / 2 + 1
          invariant 0 <= i <= (y2 - y1) / 2 + 1
          invariant out == old(out) + FillRows(x1, y1, x2, y2, i, foreground)
          invariant xpos == old(xpos) && ypos == old(ypos) && font == old(font) && fontSize == old(fontSize)
          invariant fontTop == old(fontTop) && fontBottom == old(fontBottom)
          invariant background == old(background) && foreground == old(foreground)
          invariant backlight == old(backlight) && bus == old(bus)
        {
          if i == 0 {
            out := out + [HLine(x1 + 2, y1 + i, x2 - x1 - 4, foreground)];
            out := out + [HLine(x1 + 2, y2 - i, x2 - x1 - 4, foreground)];
          } else if i == 1 {
            out := out + [HLine(x1 + 1, y1 + i, x2 - x1 - 2, foreground)];
            out := out + [HLine(x1 + 1, y2 - i, x2 - x1 - 2, foreground)];
          } else {
            out := out + [HLine(x1, y1 + i, x2 - x1, foreground)];
            out := out + [HLine(x1, y2 - i, x2 - x1, foreground)];
          }
          i := i + 1;
        }
      }
    }

    /** `TFT_Init` after the pin set-up: a 60 ms pause, the start-up table
      * up to its end marker, then the backlight on. */
    method Init()
      modifies this
      ensures bus == old(bus) + [Delay(60000)] + Decode(TFT_INIT_DATA)
      ensures backlight
      ensures xpos == old(xpos) && ypos == old(ypos) && font == old(font) && fontSize == old(fontSize)
      ensures fontTop == old(fontTop) && fontBottom == old(fontBottom)
      ensures background == old(background) && foreground == old(foreground) && out == old(out)
    {
      bus := bus + [Delay(60000)];
      assert TFT_INIT_DATA[|TFT_INIT_DATA| - 1] == INIT_END;
      SendTable(TFT_INIT_DATA);
      backlight := true;
    }

    /** The loop of `TFT_Init` over a table that holds an end marker. */
    method SendTable(table: seq<U16>)
      requires INIT_END in table
      modifies this
      ensures bus == old(bus) + Decode(table)
      ensures xpos == old(xpos) && ypos == old(ypos) && font == old(font) && fontSize == old(fontSize)
      ensures fontTop == old(fontTop) && fontBottom == old(fontBottom)
      ensures background == old(background) && foreground == old(foreground)
      ensures backlight == old(backlight) && out == old(out)
    {
      var i := 0;
      while table[i] != INIT_END
        invariant 0 <= i < |table| && INIT_END in table[i..]
        invariant old(bus) + Decode(table) == bus + Decode(table[i..])
        invariant xpos == old(xpos) && ypos == old(ypos) && font == old(font) && fontSize == old(fontSize)
        invariant fontTop == old(fontTop) && fontBottom == old(fontBottom)
        invariant background == old(background) && foreground == old(foreground)
        invariant backlight == old(backlight) && out == old(out)
        decreases |table| - i
      {
        var val := table[i];
        assert table[i..][1..] == table[i + 1..];
        if val >= 0x200 {
          bus := bus + [Delay(val - 0x200)];
        } else if val >= 0x100 {
          bus := bus + [Command(val % 256)];
        } else {
          bus := bus + [Data(val % 256)];
        }
        i := i + 1;
      }
    }

    /** `TFT_setState`: display on (0x29) or off (0x28). */
    method SetState(on: bool)
      modifies this
      ensures bus == old(bus) + RegisterWrite(if on then 0x29 else 0x28, [])
      ensures xpos == old(xpos) && ypos == old(ypos) && font == old(font) && fontSize == old(fontSize)
      ensures fontTop == old(fontTop) && fontBottom == old(fontBottom)
      ensures background == old(background) && foreground == old(foreground)
      ensures backlight == old(backlight) && out == old(out)
    {
      bus := bus + RegisterWrite(if on then 0x29 else 0x28, []);
    }

    /** `TFT_setBacklight`. */
    method SetBacklight(on: bool)
      modifies this
      ensures backlight == on
      ensures xpos == old(xpos) && ypos == old(ypos) && font == old(font) && fontSize == old(fontSize)
      ensures fontTop == old(fontTop) && fontBottom == old(fontBottom)
      ensures background == old(background) && foreground == old(foreground)
      ensures bus == old(bus) && out == old(out)
    {
      backlight := on;
    }

    /** `TFT_setXPos`, `TFT_setYPos`, `TFT_setFontSize`,
      * `TFT_setBackGround` and `TFT_setForeGround` store their argument. */
    method SetXPos(x: U16)
      modifies this
      ensures xpos == x
      ensures ypos == old(ypos) && font == old(font) && fontSize == old(fontSize)
      ensures fontTop == old(fontTop) && fontBottom == old(fontBottom)
      ensures background == old(background) && foreground == old(foreground)
      ensures backlight == old(backlight) && bus == old(bus) && out == old(out)
    {
      xpos := x;
    }

    method SetYPos(y: U16)
      modifies this
      ensures ypos == y
      ensures xpos == old(xpos) && font == old(font) && fontSize == old(fontSize)
      ensures fontTop == old(fontTop) && fontBottom == old(fontBottom)
      ensures background == old(background) && foreground == old(foreground)
      ensures backlight == old(backlight) && bus == old(bus) && out == old(out)
    {
      ypos := y;
    }

    method SetFontSize(size: Byte)
      modifies this
      ensures fontSize == size
      ensures xpos == old(xpos) && ypos == old(ypos) && font == old(font)
      ensures fontTop == old(fontTop) && fontBottom == old(fontBottom)
      ensures background == old(background) && foreground == old(foreground)
      ensures backlight == old(backlight) && bus == old(bus) && out == old(out)
    {
      fontSize := size;
    }

    method SetBackGround(color: U16)
      modifies this
      ensures background == color
      ensures xpos == old(xpos) && ypos == old(ypos) && font == old(font) && fontSize == old(fontSize)
      ensures fontTop == old(fontTop) && fontBottom == old(fontBottom) && foreground == old(foreground)
      ensures backlight == old(backlight) && bus == old(bus) && out == old(out)
    {
      background := color;
    }

    method SetForeGround(color: U16)
      modifies this
      ensures foreground == color
      ensures xpos == old(xpos) && ypos == old(ypos) && font == old(font) && fontSize == old(fontSize)
      ensures fontTop == old(fontTop) && fontBottom == old(fontBottom) && background == old(background)
      ensures backlight == old(backlight) && bus == old(bus) && out == old(out)
    {
      foreground := color;
    }
  }

  /** One character's move of the cursor in 16 bits: adding its advance to
    * the wrapped position is adding it to the unwrapped sum. */
  lemma CursorStepMod(x: int, size: int, sum: int, step: int)
    ensures ((x + size * sum) % 0x1_0000 + size * step) % 0x1_0000 == (x + size * (sum + step)) % 0x1_0000
  {
    var u := x + size * sum;
    assert size * (sum + step) == size * sum + size * step;
    assert u == (u / 0x1_0000) * 0x1_0000 + u % 0x1_0000;
    ModShift(u % 0x1_0000 + size * step, u / 0x1_0000);
  }

  lemma ModShift(v: int, q: int)
    ensures (v + q * 0x1_0000) % 0x1_0000 == v % 0x1_0000
  {
  }

  /** Text placed with `TFT_getStrWidth` and drawn with `TFT_printf` in a
    * glyph font ends exactly that many pixels further right (in 16 bits). */
  lemma PrintEndsAtWidth(f: GoodFont, size: int, x: int, text: seq<Byte>)
    requires f.glyphs.Some? && |text| <= 199
    ensures (x + size * CursorAdvance(f, Shown(text))) % 0x1_0000 == (x + size * StrAdvance(f, text)) % 0x1_0000
  {
    CursorMatchesWidth(f, text);
  }

  /** The pixel loop of `TFT_drawLine` for a line longer across than down:
    * one pixel per column, the row stepping when the error term turns
    * non-negative. */
  method FlatPixels(x1: int, y1: int, x2: int, y2: int, color: U16) returns (ws: seq<Fill>, ghost path: seq<Point>)
    requires x1 != x2 && y1 != y2 && Abs(x2 - x1) >= Abs(y2 - y1)
    ensures ws == Plot(path, color) && LinePath(path, x1, y1, x2, y2)
  {
    var dx: int, dy: int := Abs(x2 - x1), Abs(y2 - y1);
    var xstep := if x2 > x1 then 1 else -1;
    var ystep := if y2 > y1 then 1 else -1;
    var col, row := x1, y1;
    var t := -(dx / 2);
    ghost var k, j := 0, 0;
    TracksStart(dx, dy);
    ws := [Pixel(Point(col, row), color)];
    path := [Point(col, row)];
    while col != x2
      invariant Tracks(dx, dy, k, j, t) && j <= dy
      invariant col == (if x2 > x1 then x1 + k else x1 - k)
      invariant row == (if y2 > y1 then y1 + j else y1 - j)
      invariant |path| == k + 1 && path[0] == Point(x1, y1) && path[k] == Point(col, row)
      invariant LineSteps(path, x1, y1, x2, y2)
      invariant ws == Plot(path, color)
      decreases dx - k
    {
      TracksStep(dx, dy, k, j, t);
      col := col + xstep;
      t := t + dy;
      if t >= 0 {
        row := row + ystep;
        t := t - dx;
        j := j + 1;
      }
      k := k + 1;
      MinorSteps(dx, dy, k, j, t);
      StepsExtend(path, Point(col, row), x1, y1, x2, y2);
      path := path + [Point(col, row)];
      assert path[..k] == path[..|path| - 1];
      ws := ws + [Pixel(Point(col, row), color)];
    }
    MinorSteps(dx, dy, k, j, t);
  }

  /** The pixel loop of `TFT_drawLine` for a line longer down than across:
    * one pixel per row. */
  method SteepPixels(x1: int, y1: int, x2: int, y2: int, color: U16) returns (ws: seq<Fill>, ghost path: seq<Point>)
    requires x1 != x2 && y1 != y2 && Abs(x2 - x1) < Abs(y2 - y1)
    ensures ws == Plot(path, color) && LinePath(path, x1, y1, x2, y2)
  {
    var dx: int, dy: int := Abs(x2 - x1), Abs(y2 - y1);
    var xstep := if x2 > x1 then 1 else -1;
    var ystep := if y2 > y1 then 1 else -1;
    var col, row := x1, y1;
    var t := -(dy / 2);
    ghost var k, j := 0, 0;
    TracksStart(dy, dx);
    ws := [Pixel(Point(col, row), color)];
    path := [Point(col, row)];
    while row != y2
      invariant Tracks(dy, dx, k, j, t) && j <= dx
      invariant row == (if y2 > y1 then y1 + k else y1 - k)
      invariant col == (if x2 > x1 then x1 + j else x1 - j)
      invariant |path| == k + 1 && path[0] == Point(x1, y1) && path[k] == Point(col, row)
      invariant LineSteps(path, x1, y1, x2, y2)
      invariant ws == Plot(path, color)
      decreases dy - k
    {
      TracksStep(dy, dx, k, j, t);
      row := row + ystep;
      t := t + dx;
      if t >= 0 {
        col := col + xstep;
        t := t - dy;
        j := j + 1;
      }
      k := k + 1;
      MinorSteps(dy, dx, k, j, t);
      StepsExtend(path, Point(col, row), x1, y1, x2, y2);
      path := path + [Point(col, row)];
      assert path[..k] == path[..|path| - 1];
      ws := ws + [Pixel(Point(col, row), color)];
    }
    MinorSteps(dy, dx, k, j, t);
  }
}
