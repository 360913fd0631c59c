/** The drawing side of the 128x64 SSD1306 display driver (`PonyOLED`).

    The frame lives in a byte buffer: byte 0 is the 0x40 marker that tells the display that data
    follows, and the 1024 bytes after it are 8 pages of 128 columns. Byte `1 + x + (y / 8) * 128`
    holds the pixels (x, 8 * (y / 8)) .. (x, 8 * (y / 8) + 7), bit `y % 8` being pixel (x, y).
    Every drawing routine is a loop over `draw_pixel`, so each is specified as the list of pixels
    it paints, in order (`Dot`s), and `Paint` applies such a list to a buffer. */
module Oled {
  import opened Util

  const Width := 128
  const Height := 64
  const Pages := Height / 8
  const BufferSize := 1 + Width * Pages
  const DataMarker: bv8 := 0x40

  predicate InBounds(x: int, y: int)
  {
    0 <= x < Width && 0 <= y < Height
  }

  /** The buffer byte holding pixel (x, y). */
  function Index(x: int, y: int): (k: int)
    requires InBounds(x, y)
    ensures 1 <= k < BufferSize
  {
    1 + x + 128 * (y / 8)
  }

  /** Two pixels share a byte exactly when they are in the same column and the same page. */
  lemma IndexShared(x: int, y: int, px: int, py: int)
    requires InBounds(x, y) && InBounds(px, py)
    ensures Index(x, y) == Index(px, py) <==> x == px && y / 8 == py / 8
  {
  }

  /** Bit `j` of a byte. */
  predicate BitSet(b: bv8, j: nat)
    requires j < 8
  {
    b & ((1 as bv8) << j) != 0
  }

  /** Whether pixel (x, y) of a buffer is lit. */
  predicate Lit(buf: seq<bv8>, x: int, y: int)
    requires |buf| == BufferSize && InBounds(x, y)
  {
    BitSet(buf[Index(x, y)], y % 8)
  }

  /** Bit `j` of the byte set (`on`) or cleared. */
  function WithBit(b: bv8, j: nat, on: bool): bv8
    requires j < 8
  {
    if on then b | ((1 as bv8) << j) else b & !((1 as bv8) << j)
  }

  /** Setting or clearing bit `j` of a byte changes that bit to `on` and no other bit. */
  lemma WithBitSpec(b: bv8, j: nat, on: bool)
    requires j < 8
    ensures BitSet(WithBit(b, j, on), j) == on
    ensures forall i | 0 <= i < 8 && i != j :: BitSet(WithBit(b, j, on), i) == BitSet(b, i)
  {
    WithBitAt(b, j, on, j);
    forall i | 0 <= i < 8 && i != j
      ensures BitSet(WithBit(b, j, on), i) == BitSet(b, i)
    {
      WithBitAt(b, j, on, i);
    }
  }

  /** Bit i of a byte after bit j was set to `on`. */
  lemma WithBitAt(b: bv8, j: nat, on: bool, i: nat)
    requires j < 8 && i < 8
    ensures BitSet(WithBit(b, j, on), i) == if i == j then on else BitSet(b, i)
  {
    if i < 4 {
      WithBitLow(b, j, on, i);
    } else {
      WithBitHigh(b, j, on, i);
    }
  }

  lemma WithBitLow(b: bv8, j: nat, on: bool, i: nat)
    requires j < 8 && i < 4
    ensures BitSet(WithBit(b, j, on), i) == if i == j then on else BitSet(b, i)
  {
    if i == 0 {} else if i == 1 {} else if i == 2 {} else {}
  }

  lemma WithBitHigh(b: bv8, j: nat, on: bool, i: nat)
    requires j < 8 && 4 <= i < 8
    ensures BitSet(WithBit(b, j, on), i) == if i == j then on else BitSet(b, i)
  {
    if i == 4 {} else if i == 5 {} else if i == 6 {} else {}
  }

  /** `draw_pixel(x, y, color)` on the buffer's contents. */
  function SetPixel(buf: seq<bv8>, x: int, y: int, on: bool): (r: seq<bv8>)
    requires |buf| == BufferSize
    ensures |r| == BufferSize && r[0] == buf[0]
  {
    if !InBounds(x, y) then buf
    else
      var k := Index(x, y);
      buf[k := WithBit(buf[k], y % 8, on)]
  }

  /** `draw_pixel` outside the 128 x 64 screen changes nothing; inside it, it changes only the byte
      holding (x, y), and in that byte only the pixel's bit, which ends up equal to `color`. */
  lemma SetPixelSpec(buf: seq<bv8>, x: int, y: int, on: bool)
    requires |buf| == BufferSize
    ensures var r := SetPixel(buf, x, y, on);
      (!InBounds(x, y) ==> r == buf) &&
      (InBounds(x, y) ==>
        Lit(r, x, y) == on &&
        (forall k | 0 <= k < BufferSize && k != Index(x, y) :: r[k] == buf[k]) &&
        (forall j | 0 <= j < 8 && j != y % 8 :: BitSet(r[Index(x, y)], j) == BitSet(buf[Index(x, y)], j)))
  {
    if InBounds(x, y) {
      WithBitSpec(buf[Index(x, y)], y % 8, on);
    }
  }

  /** After `draw_pixel(x, y, color)`, pixel (x, y) is lit exactly when `color` is, and every other
      pixel is as it was. */
  lemma SetPixelOthers(buf: seq<bv8>, x: int, y: int, on: bool, px: int, py: int)
    requires |buf| == BufferSize && InBounds(px, py)
    ensures Lit(SetPixel(buf, x, y, on), px, py) == if px == x && py == y then on else Lit(buf, px, py)
  {
    SetPixelSpec(buf, x, y, on);
    if InBounds(x, y) {
      IndexShared(x, y, px, py);
    }
  }

  /** One call of `draw_pixel`. */
  datatype Dot = Dot(x: int, y: int, on: bool)

  /** Draws `dots` in order, the last one drawn at a spot winning. */
  function Paint(buf: seq<bv8>, dots: seq<Dot>): (r: seq<bv8>)
    requires |buf| == BufferSize
    ensures |r| == BufferSize && r[0] == buf[0]
  {
    if dots == [] then buf
    else
      var d := dots[|dots| - 1];
      SetPixel(Paint(buf, dots[..|dots| - 1]), d.x, d.y, d.on)
  }

  lemma {:induction false} PaintAppend(buf: seq<bv8>, a: seq<Dot>, b: seq<Dot>)
    requires |buf| == BufferSize
    ensures Paint(buf, a + b) == Paint(Paint(buf, a), b)
    decreases |b|
  {
    if b == [] {
      assert a + b == a;
    } else {
      var n := |b| - 1;
      assert (a + b)[..|a + b| - 1] == a + b[..n];
      assert (a + b)[|a + b| - 1] == b[n];
      PaintAppend(buf, a, b[..n]);
    }
  }

  /** The pixel view of painting: a spot no dot touches keeps its pixel, and a spot whose dots all
      carry the same colour ends with that colour. */
  lemma {:induction false} PaintPixel(buf: seq<bv8>, dots: seq<Dot>, px: int, py: int, v: bool)
    requires |buf| == BufferSize && InBounds(px, py)
    requires forall i | 0 <= i < |dots| && dots[i].x == px && dots[i].y == py :: dots[i].on == v
    ensures Lit(Paint(buf, dots), px, py) ==
      if exists i | 0 <= i < |dots| :: dots[i].x == px && dots[i].y == py then v else Lit(buf, px, py)
  {
    if dots != [] {
      var n := |dots| - 1;
      var d := dots[n];
      var front := dots[..n];
      assert forall i | 0 <= i < n :: front[i] == dots[i];
      PaintPixel(buf, front, px, py, v);
      SetPixelOthers(Paint(buf, front), d.x, d.y, d.on, px, py);
      if exists i | 0 <= i < n :: front[i].x == px && front[i].y == py {
        var i :| 0 <= i < n && front[i].x == px && front[i].y == py;
        assert dots[i].x == px && dots[i].y == py;
      }
    }
  }

  /* ---------- Lines, rectangles, characters, text ---------- */

  /** `draw_hline(x, y, length, color)`: pixels (x + i, y) for i in range(length). */
  function HLineDots(x: int, y: int, length: int, on: bool): (d: seq<Dot>)
    ensures |d| == if length < 0 then 0 else length
  {
    seq(if length < 0 then 0 else length, i => Dot(x + i, y, on))
  }

  /** `draw_vline(x, y, length, color)`: pixels (x, y + i) for i in range(length). */
  function VLineDots(x: int, y: int, length: int, on: bool): (d: seq<Dot>)
    ensures |d| == if length < 0 then 0 else length
  {
    seq(if length < 0 then 0 else length, i => Dot(x, y + i, on))
  }

  /** A horizontal line colours the pixels from x to x + length - 1 on row y (none when the length
      is not positive) and no other pixel. */
  lemma HLinePixels(buf: seq<bv8>, x: int, y: int, length: int, on: bool, px: int, py: int)
    requires |buf| == BufferSize && InBounds(px, py)
    ensures Lit(Paint(buf, HLineDots(x, y, length, on)), px, py) ==
      if py == y && x <= px < x + length then on else Lit(buf, px, py)
  {
    var d := HLineDots(x, y, length, on);
    PaintPixel(buf, d, px, py, on);
    if py == y && x <= px < x + length {
      assert d[px - x].x == px;
    }
  }

  /** A vertical line colours the pixels from y to y + length - 1 in column x and no other pixel. */
  lemma VLinePixels(buf: seq<bv8>, x: int, y: int, length: int, on: bool, px: int, py: int)
    requires |buf| == BufferSize && InBounds(px, py)
    ensures Lit(Paint(buf, VLineDots(x, y, length, on)), px, py) ==
      if px == x && y <= py < y + length then on else Lit(buf, px, py)
  {
    var d := VLineDots(x, y, length, on);
    PaintPixel(buf, d, px, py, on);
    if px == x && y <= py < y + length {
      assert d[py - y].y == py;
    }
  }

  /** Painting one more dot after a list is one more `draw_pixel`. */
  lemma PaintSnoc(buf: seq<bv8>, dots: seq<Dot>, d: Dot)
    requires |buf| == BufferSize
    ensures Paint(buf, dots + [d]) == SetPixel(Paint(buf, dots), d.x, d.y, d.on)
  {
    assert (dots + [d])[..|dots|] == dots;
  }

  /** The buffer after the first n pixels of a horizontal line, drawn one `draw_pixel` at a time. */
  function HLinePaint(buf: seq<bv8>, x: int, y: int, on: bool, n: nat): (r: seq<bv8>)
    requires |buf| == BufferSize
    ensures |r| == BufferSize && r[0] == buf[0]
  {
    if n == 0 then buf else SetPixel(HLinePaint(buf, x, y, on, n - 1), x + n - 1, y, on)
  }

  /** The buffer after the first n pixels of a vertical line, drawn one `draw_pixel` at a time. */
  function VLinePaint(buf: seq<bv8>, x: int, y: int, on: bool, n: nat): (r: seq<bv8>)
    requires |buf| == BufferSize
    ensures |r| == BufferSize && r[0] == buf[0]
  {
    if n == 0 then buf else SetPixel(VLinePaint(buf, x, y, on, n - 1), x, y + n - 1, on)
  }

  lemma HLineSnoc(x: int, y: int, on: bool, n: nat)
    requires n > 0
    ensures HLineDots(x, y, n, on) == HLineDots(x, y, n - 1, on) + [Dot(x + n - 1, y, on)]
  {
    var d, front := HLineDots(x, y, n, on), HLineDots(x, y, n - 1, on);
    forall k | 0 <= k < n
      ensures d[k] == (front + [Dot(x + n - 1, y, on)])[k]
    {
    }
  }

  /** The whole horizontal line: `range(length)` runs max(length, 0) times. */
  lemma HLineDrawn(buf: seq<bv8>, x: int, y: int, length: int, on: bool, n: nat)
    requires |buf| == BufferSize && n == if length < 0 then 0 else length
    ensures HLinePaint(buf, x, y, on, n) == Paint(buf, HLineDots(x, y, length, on))
  {
    HLinePaintDots(buf, x, y, on, n);
    assert HLineDots(x, y, n, on) == HLineDots(x, y, length, on);
  }

  /** Drawing a horizontal line pixel by pixel is painting its dots. */
  lemma {:induction false} HLinePaintDots(buf: seq<bv8>, x: int, y: int, on: bool, n: nat)
    requires |buf| == BufferSize
    ensures HLinePaint(buf, x, y, on, n) == Paint(buf, HLineDots(x, y, n, on))
  {
    if n > 0 {
      HLinePaintDots(buf, x, y, on, n - 1);
      HLineSnoc(x, y, on, n);
      PaintSnoc(buf, HLineDots(x, y, n - 1, on), Dot(x + n - 1, y, on));
    }
  }

  lemma VLineSnoc(x: int, y: int, on: bool, n: nat)
    requires n > 0
    ensures VLineDots(x, y, n, on) == VLineDots(x, y, n - 1, on) + [Dot(x, y + n - 1, on)]
  {
    var d, front := VLineDots(x, y, n, on), VLineDots(x, y, n - 1, on);
    forall k | 0 <= k < n
      ensures d[k] == (front + [Dot(x, y + n - 1, on)])[k]
    {
    }
  }

  /** The whole vertical line: `range(length)` runs max(length, 0) times. */
  lemma VLineDrawn(buf: seq<bv8>, x: int, y: int, length: int, on: bool, n: nat)
    requires |buf| == BufferSize && n == if length < 0 then 0 else length
    ensures VLinePaint(buf, x, y, on, n) == Paint(buf, VLineDots(x, y, length, on))
  {
    VLinePaintDots(buf, x, y, on, n);
    assert VLineDots(x, y, n, on) == VLineDots(x, y, length, on);
  }

  /** Drawing a vertical line pixel by pixel is painting its dots. */
  lemma {:induction false} VLinePaintDots(buf: seq<bv8>, x: int, y: int, on: bool, n: nat)
    requires |buf| == BufferSize
    ensures VLinePaint(buf, x, y, on, n) == Paint(buf, VLineDots(x, y, n, on))
  {
    if n > 0 {
      VLinePaintDots(buf, x, y, on, n - 1);
      VLineSnoc(x, y, on, n);
      PaintSnoc(buf, VLineDots(x, y, n - 1, on), Dot(x, y + n - 1, on));
    }
  }

  /** `draw_rect(x1, y1, x2, y2, color)`: top, bottom, left and right edges, in that order. */
  function RectDots(x1: int, y1: int, x2: int, y2: int, on: bool): seq<Dot>
  {
    HLineDots(x1, y1, x2 - x1 + 1, on) + HLineDots(x1, y2, x2 - x1 + 1, on) +
    VLineDots(x1, y1, y2 - y1 + 1, on) + VLineDots(x2, y1, y2 - y1 + 1, on)
  }

  /** A rectangle makes 2 * width + 2 * height `draw_pixel` calls, the corners drawn twice over;
      an empty width or height contributes none. */
  lemma RectDotsCount(x1: int, y1: int, x2: int, y2: int, on: bool)
    ensures |RectDots(x1, y1, x2, y2, on)| ==
      2 * (if x2 < x1 then 0 else x2 - x1 + 1) + 2 * (if y2 < y1 then 0 else y2 - y1 + 1)
  {
  }

  /** On the outline of the rectangle: on row y1 or y2 between x1 and x2, or in column x1 or x2
      between y1 and y2. */
  predicate OnOutline(x1: int, y1: int, x2: int, y2: int, px: int, py: int)
  {
    ((py == y1 || py == y2) && x1 <= px <= x2) || ((px == x1 || px == x2) && y1 <= py <= y2)
  }

  /** A rectangle colours its outline and no other pixel. */
  lemma RectPixels(buf: seq<bv8>, x1: int, y1: int, x2: int, y2: int, on: bool, px: int, py: int)
    requires |buf| == BufferSize && InBounds(px, py)
    ensures Lit(Paint(buf, RectDots(x1, y1, x2, y2, on)), px, py) ==
      if OnOutline(x1, y1, x2, y2, px, py) then on else Lit(buf, px, py)
  {
    var d := RectDots(x1, y1, x2, y2, on);
    RectDotsOnOutline(x1, y1, x2, y2, on);
    PaintPixel(buf, d, px, py, on);
    if OnOutline(x1, y1, x2, y2, px, py) {
      RectDotsCover(x1, y1, x2, y2, on, px, py);
    }
  }

  /** Every pixel the rectangle draws is on its outline, in the rectangle's colour. */
  lemma RectDotsOnOutline(x1: int, y1: int, x2: int, y2: int, on: bool)
    ensures var d := RectDots(x1, y1, x2, y2, on);
      forall i | 0 <= i < |d| :: d[i].on == on && OnOutline(x1, y1, x2, y2, d[i].x, d[i].y)
  {
    var d := RectDots(x1, y1, x2, y2, on);
    var w, h := x2 - x1 + 1, y2 - y1 + 1;
    var top, bottom := HLineDots(x1, y1, w, on), HLineDots(x1, y2, w, on);
    var left, right := VLineDots(x1, y1, h, on), VLineDots(x2, y1, h, on);
    var nw, nh := |top|, |left|;
    forall i | 0 <= i < |d|
      ensures d[i].on == on && OnOutline(x1, y1, x2, y2, d[i].x, d[i].y)
    {
      if i < nw {
        assert d[i] == top[i];
      } else if i < 2 * nw {
        assert d[i] == bottom[i - nw];
      } else if i < 2 * nw + nh {
        assert d[i] == left[i - 2 * nw];
      } else {
        assert d[i] == right[i - 2 * nw - nh];
      }
    }
  }

  /** Every pixel of the outline is drawn. */
  lemma RectDotsCover(x1: int, y1: int, x2: int, y2: int, on: bool, px: int, py: int)
    requires OnOutline(x1, y1, x2, y2, px, py)
    ensures var d := RectDots(x1, y1, x2, y2, on);
      exists i | 0 <= i < |d| :: d[i].x == px && d[i].y == py
  {
    var d := RectDots(x1, y1, x2, y2, on);
    var w, h := x2 - x1 + 1, y2 - y1 + 1;
    var top, bottom := HLineDots(x1, y1, w, on), HLineDots(x1, y2, w, on);
    var left, right := VLineDots(x1, y1, h, on), VLineDots(x2, y1, h, on);
    var nw, nh := |top|, |left|;
    if py == y1 && x1 <= px <= x2 {
      assert d[px - x1] == top[px - x1];
    } else if py == y2 && x1 <= px <= x2 {
      assert d[nw + (px - x1)] == bottom[px - x1];
    } else if px == x1 {
      assert d[2 * nw + (py - y1)] == left[py - y1];
    } else {
      assert d[2 * nw + nh + (py - y1)] == right[py - y1];
    }
  }

  /** `draw_char` draws a character outside the printable range 32..126 as '?'. */
  function Shown(ch: char): (c: int)
    ensures 32 <= c < 127
    ensures 32 <= ch as int < 127 ==> c == ch as int
  {
    if 32 <= ch as int < 127 then ch as int else '?' as int
  }

  /** Where the character's five column bytes start in the font table. */
  function GlyphStart(ch: char): nat
  {
    (Shown(ch) - 32) * 5
  }

  /** Whether the font has the character's five column bytes. */
  predicate HasGlyph(font: seq<bv8>, ch: char)
  {
    GlyphStart(ch) + 4 < |font|
  }

  /** The first n rows of a font column: pixel (x, y + row) lit when bit `row` of the column byte
      agrees with `on`. */
  function ColumnRows(x: int, y: int, line: bv8, on: bool, n: nat): (d: seq<Dot>)
    requires n <= 8
    ensures |d| == n
  {
    if n == 0 then []
    else ColumnRows(x, y, line, on, n - 1) + [Dot(x, y + n - 1, BitSet(line, n - 1) == on)]
  }

  /** One font column, top to bottom. */
  function ColumnDots(x: int, y: int, line: bv8, on: bool): (d: seq<Dot>)
    ensures |d| == 8
  {
    ColumnRows(x, y, line, on, 8)
  }

  /** Row r of a font column is pixel (x, y + r), coloured by bit r of the column byte. */
  lemma {:induction false} ColumnRowsAt(x: int, y: int, line: bv8, on: bool, n: nat)
    requires n <= 8
    ensures forall r | 0 <= r < n :: ColumnRows(x, y, line, on, n)[r] == Dot(x, y + r, BitSet(line, r) == on)
  {
    if n > 0 {
      ColumnRowsAt(x, y, line, on, n - 1);
      var prev := ColumnRows(x, y, line, on, n - 1);
      assert forall r | 0 <= r < n - 1 :: ColumnRows(x, y, line, on, n)[r] == prev[r];
    }
  }

  /** The first n font columns of a glyph starting at `start`, left to right. */
  function GlyphDots(font: seq<bv8>, start: nat, x: int, y: int, on: bool, n: nat): (d: seq<Dot>)
    requires start + n <= |font|
    ensures |d| == 8 * n
  {
    if n == 0 then []
    else GlyphDots(font, start, x, y, on, n - 1) + ColumnDots(x + n - 1, y, font[start + n - 1], on)
  }

  /** A column whose font byte is zero is a vertical line of 8 pixels in the opposite colour. */
  lemma BlankColumn(x: int, y: int, on: bool)
    ensures ColumnDots(x, y, 0, on) == VLineDots(x, y, 8, !on)
  {
    ColumnRowsAt(x, y, 0, on, 8);
    forall row | 0 <= row < 8
      ensures ColumnDots(x, y, 0, on)[row] == VLineDots(x, y, 8, !on)[row]
    {
      assert !BitSet(0, row);
    }
  }

  /** `draw_char(x, y, char, color)`: 5 columns of 8 rows from the font, then a spacer column at
      x + 5 in the opposite colour; nothing at all when the font is too short for the character. */
  function CharDots(font: seq<bv8>, x: int, y: int, ch: char, on: bool): (d: seq<Dot>)
    ensures |d| == if HasGlyph(font, ch) then 48 else 0
  {
    if !HasGlyph(font, ch) then []
    else GlyphDots(font, GlyphStart(ch), x, y, on, 5) + VLineDots(x + 5, y, 8, !on)
  }

  /** The first n columns of a glyph draw each pixel of the n x 8 block at (x, y) once, coloured
      by its font bit, and nothing outside the block. */
  lemma {:induction false} GlyphDotsAt(font: seq<bv8>, start: nat, x: int, y: int, on: bool, n: nat, px: int, py: int)
    requires start + n <= |font|
    ensures forall i | 0 <= i < 8 * n && GlyphDots(font, start, x, y, on, n)[i].x == px && GlyphDots(font, start, x, y, on, n)[i].y == py ::
      x <= px < x + n && y <= py < y + 8 &&
      GlyphDots(font, start, x, y, on, n)[i].on == (BitSet(font[start + (px - x)], py - y) == on)
    ensures x <= px < x + n && y <= py < y + 8 ==>
      exists i | 0 <= i < 8 * n :: GlyphDots(font, start, x, y, on, n)[i].x == px && GlyphDots(font, start, x, y, on, n)[i].y == py
  {
    if n > 0 {
      var d := GlyphDots(font, start, x, y, on, n);
      var prev := GlyphDots(font, start, x, y, on, n - 1);
      var col := ColumnDots(x + n - 1, y, font[start + n - 1], on);
      var m := 8 * (n - 1);
      GlyphDotsAt(font, start, x, y, on, n - 1, px, py);
      ColumnRowsAt(x + n - 1, y, font[start + n - 1], on, 8);
      forall i | 0 <= i < |d| && d[i].x == px && d[i].y == py
        ensures x <= px < x + n && y <= py < y + 8 && d[i].on == (BitSet(font[start + (px - x)], py - y) == on)
      {
        if i < m {
          assert d[i] == prev[i];
          assert prev[i].x == px && prev[i].y == py;
          assert x <= px < x + n - 1;
          assert y <= py < y + 8;
        } else {
          var row := i - m;
          assert 0 <= row < 8;
          assert d[i] == col[row];
          assert col[row] == Dot(x + n - 1, y + row, BitSet(font[start + n - 1], row) == on);
          assert px == x + n - 1 && py == y + row;
        }
      }
      if x <= px < x + n && y <= py < y + 8 {
        if px < x + n - 1 {
          var i :| 0 <= i < |prev| && prev[i].x == px && prev[i].y == py;
          assert d[i] == prev[i];
        } else {
          assert d[m + (py - y)] == col[py - y];
        }
      }
    }
  }

  /** A character colours its 6 x 8 cell at (x, y): font column c, bit r gives pixel (x + c, y + r),
      lit when the bit agrees with `color`; column x + 5 takes the opposite colour; nothing outside
      the cell changes, and nothing at all changes when the font lacks the glyph. */
  lemma CharPixels(buf: seq<bv8>, font: seq<bv8>, x: int, y: int, ch: char, on: bool, px: int, py: int)
    requires |buf| == BufferSize && InBounds(px, py)
    ensures Lit(Paint(buf, CharDots(font, x, y, ch, on)), px, py) ==
      if HasGlyph(font, ch) && x <= px < x + 5 && y <= py < y + 8 then
        BitSet(font[GlyphStart(ch) + (px - x)], py - y) == on
      else if HasGlyph(font, ch) && px == x + 5 && y <= py < y + 8 then !on
      else Lit(buf, px, py)
  {
    var d := CharDots(font, x, y, ch, on);
    var v := CharColour(font, x, y, ch, on, px, py);
    CharDotsAt(font, x, y, ch, on, px, py);
    PaintPixel(buf, d, px, py, v);
  }

  /** The colour the character's cell gives pixel (px, py), for a pixel the character draws. */
  function CharColour(font: seq<bv8>, x: int, y: int, ch: char, on: bool, px: int, py: int): bool
  {
    if HasGlyph(font, ch) && x <= px < x + 5 && y <= py < y + 8 then
      BitSet(font[GlyphStart(ch) + (px - x)], py - y) == on
    else !on
  }

  /** A character draws each pixel of its 6 x 8 cell once, in the cell's colour, and nothing else. */
  lemma CharDotsAt(font: seq<bv8>, x: int, y: int, ch: char, on: bool, px: int, py: int)
    ensures var d := CharDots(font, x, y, ch, on);
      (forall i | 0 <= i < |d| && d[i].x == px && d[i].y == py :: d[i].on == CharColour(font, x, y, ch, on, px, py)) &&
      ((exists i | 0 <= i < |d| :: d[i].x == px && d[i].y == py) <==>
        HasGlyph(font, ch) && x <= px <= x + 5 && y <= py < y + 8)
  {
    if HasGlyph(font, ch) {
      var d := CharDots(font, x, y, ch, on);
      var glyph := GlyphDots(font, GlyphStart(ch), x, y, on, 5);
      var spacer := VLineDots(x + 5, y, 8, !on);
      GlyphDotsAt(font, GlyphStart(ch), x, y, on, 5, px, py);
      forall i | 0 <= i < |d|
        ensures d[i].x == px && d[i].y == py ==>
          x <= px <= x + 5 && y <= py < y + 8 && d[i].on == CharColour(font, x, y, ch, on, px, py)
      {
        if i < 40 {
          assert d[i] == glyph[i];
          if glyph[i].x == px && glyph[i].y == py {
            assert x <= px < x + 5 && y <= py < y + 8;
          }
        } else {
          assert d[i] == spacer[i - 40];
          assert spacer[i - 40] == Dot(x + 5, y + (i - 40), !on);
        }
      }
      if x <= px < x + 5 && y <= py < y + 8 {
        var i :| 0 <= i < |glyph| && glyph[i].x == px && glyph[i].y == py;
        assert d[i] == glyph[i];
      } else if px == x + 5 && y <= py < y + 8 {
        assert d[40 + (py - y)] == spacer[py - y];
      }
    }
  }

  /** Text layout: `cell(cx, c)` is what one character c drawn at column cx paints, and character i
      of the text is drawn at x + 6 * i, left to right. The layout lemmas below hold for any cell. */
  function Layout(cell: (int, char) -> seq<Dot>, x: int, text: string): seq<Dot>
    decreases |text|
  {
    if text == [] then [] else cell(x, text[0]) + Layout(cell, x + 6, text[1..])
  }

  /** What `draw_char(cx, y, c, color)` paints, as a cell of a text line at height y. */
  function CharCell(font: seq<bv8>, y: int, on: bool): (int, char) -> seq<Dot>
  {
    (cx: int, c: char) => CharDots(font, cx, y, c, on)
  }

  /** `draw_text(x, y, text, color)`: character i drawn with its cell at x + 6 * i. */
  function TextDots(font: seq<bv8>, x: int, y: int, text: string, on: bool): (d: seq<Dot>)
    ensures |d| <= 48 * |text|
    ensures (forall i | 0 <= i < |text| :: HasGlyph(font, text[i])) ==> |d| == 48 * |text|
  {
    TextLength(font, x, y, text, on);
    Layout(CharCell(font, y, on), x, text)
  }

  /** Each character draws 48 pixels, or none when the font lacks its glyph. */
  lemma {:induction false} TextLength(font: seq<bv8>, x: int, y: int, text: string, on: bool)
    ensures |Layout(CharCell(font, y, on), x, text)| <= 48 * |text|
    ensures (forall i | 0 <= i < |text| :: HasGlyph(font, text[i])) ==>
      |Layout(CharCell(font, y, on), x, text)| == 48 * |text|
    decreases |text|
  {
    if text != [] {
      TextLength(font, x + 6, y, text[1..], on);
      if forall i | 0 <= i < |text| :: HasGlyph(font, text[i]) {
        forall i | 0 <= i < |text| - 1
          ensures HasGlyph(font, text[1..][i])
        {
          assert text[1..][i] == text[i + 1];
        }
      }
    }
  }

  /** Text is laid out left to right in 6-pixel cells: laying out `a + b` lays out `a` and then `b`
      starting |a| cells further right. */
  lemma {:induction false} LayoutAppend(cell: (int, char) -> seq<Dot>, x: int, a: string, b: string)
    ensures Layout(cell, x, a + b) == Layout(cell, x, a) + Layout(cell, x + 6 * |a|, b)
    decreases |a|
  {
    if a == [] {
      assert a + b == b;
      assert x + 6 * |a| == x;
    } else {
      var t := a[1..];
      assert Layout(cell, x, a + b) == cell(x, a[0]) + Layout(cell, x + 6, t + b) by {
        assert (a + b)[0] == a[0];
        assert (a + b)[1..] == t + b;
      }
      LayoutAppend(cell, x + 6, t, b);
      assert x + 6 + 6 * |t| == x + 6 * |a|;
    }
  }

  /** Laying out one more character appends its cell at x + 6 * i. */
  lemma LayoutNext(cell: (int, char) -> seq<Dot>, x: int, text: string, i: nat)
    requires i < |text|
    ensures Layout(cell, x, text[..i + 1]) == Layout(cell, x, text[..i]) + cell(x + i * 6, text[i])
  {
    assert text[..i + 1] == text[..i] + [text[i]];
    LayoutAppend(cell, x, text[..i], [text[i]]);
    assert [text[i]][1..] == [];
  }

  /** Cell i of a layout sits at x + 6 * i, after cells 0..i-1 and before the rest. */
  lemma LayoutPlaces(cell: (int, char) -> seq<Dot>, x: int, text: string, i: nat)
    requires i < |text|
    ensures Layout(cell, x, text) ==
      Layout(cell, x, text[..i]) + cell(x + 6 * i, text[i]) + Layout(cell, x + 6 * (i + 1), text[i + 1..])
  {
    var pre, post := text[..i], text[i + 1..];
    assert Layout(cell, x, text) == Layout(cell, x, pre) + Layout(cell, x + 6 * i, [text[i]] + post) by {
      assert text == pre + ([text[i]] + post);
      LayoutAppend(cell, x, pre, [text[i]] + post);
    }
    assert Layout(cell, x + 6 * i, [text[i]] + post) == cell(x + 6 * i, text[i]) + Layout(cell, x + 6 * (i + 1), post) by {
      assert ([text[i]] + post)[0] == text[i];
      assert ([text[i]] + post)[1..] == post;
    }
  }

  /** Character i of the text is drawn in the cell at x + 6 * i, after characters 0..i-1 and before
      the rest. */
  lemma TextPlacesChar(font: seq<bv8>, x: int, y: int, text: string, on: bool, i: nat)
    requires i < |text|
    ensures TextDots(font, x, y, text, on) ==
      TextDots(font, x, y, text[..i], on) + CharDots(font, x + 6 * i, y, text[i], on) +
      TextDots(font, x + 6 * (i + 1), y, text[i + 1..], on)
  {
    LayoutPlaces(CharCell(font, y, on), x, text, i);
  }

  /** The buffer after `clear`: the marker, then every pixel off. */
  function Blank(): (b: seq<bv8>)
    ensures |b| == BufferSize && b[0] == DataMarker
    ensures forall x, y | InBounds(x, y) :: !Lit(b, x, y)
  {
    [DataMarker] + seq(BufferSize - 1, _ => 0)
  }

  /** A `PonyOLED` and its frame buffer. */
  class Display {
    const buffer: array<bv8>
    var cursorX: int
    var cursorY: int
    /** The 5x7 font table, five column bytes per character from ' ' on. */
    const font: seq<bv8>

    /** The buffer is 1 + 128 * 8 bytes long and starts with the data marker. */
    ghost predicate Valid()
      reads this, buffer
    {
      buffer.Length == BufferSize && buffer[0] == DataMarker
    }

    /** `PonyOLED(i2c, addr)`: a blank buffer and the cursor at the origin. */
    constructor (font: seq<bv8>)
      ensures Valid() && fresh(buffer)
      ensures buffer[..] == Blank() && cursorX == 0 && cursorY == 0 && this.font == font
    {
      this.font := font;
      buffer := new bv8[BufferSize](_ => 0);
      new;
      buffer[0] := DataMarker;
      cursorX := 0;
      cursorY := 0;
      assert buffer[..] == Blank();
    }

    /** `clear()` without the transfer to the display: every byte after the marker becomes 0. */
    method Clear()
      requires Valid()
      modifies this, buffer
      ensures Valid() && buffer[..] == Blank()
      ensures cursorX == 0 && cursorY == 0
    {
      for i := 1 to buffer.Length
        invariant buffer[0] == DataMarker
        invariant forall k | 1 <= k < i :: buffer[k] == 0
      {
        buffer[i] := 0;
      }
      cursorX := 0;
      cursorY := 0;
      assert buffer[..] == Blank();
    }

    /** `draw_pixel(x, y, color)` */
    method DrawPixel(x: int, y: int, color: bool := true)
      requires Valid()
      modifies buffer
      ensures Valid() && buffer[..] == SetPixel(old(buffer[..]), x, y, color)
    {
      if !(0 <= x < Width && 0 <= y < Height) {
        return;
      }
      var page := y / 8;
      var shift := y % 8;
      var index := 1 + x + page * Width;
      if color {
        buffer[index] := buffer[index] | ((1 as bv8) << shift);
      } else {
        buffer[index] := buffer[index] & !((1 as bv8) << shift);
      }
      assert buffer[..] == old(buffer[..])[index := WithBit(old(buffer[index]), shift, color)];
    }

    /** `draw_hline(x, y, length, color)` */
    method DrawHLine(x: int, y: int, length: int, color: bool := true)
      requires Valid()
      modifies buffer
      ensures Valid() && buffer[..] == Paint(old(buffer[..]), HLineDots(x, y, length, color))
    {
      ghost var b0 := buffer[..];
      var i := 0;
      while i < length
        invariant 0 <= i && (i <= length || i == 0)
        invariant Valid() && buffer[..] == HLinePaint(b0, x, y, color, i)
      {
        DrawPixel(x + i, y, color);
        i := i + 1;
      }
      HLineDrawn(b0, x, y, length, color, i);
    }

    /** `draw_vline(x, y, length, color)` */
    method DrawVLine(x: int, y: int, length: int, color: bool := true)
      requires Valid()
      modifies buffer
      ensures Valid() && buffer[..] == Paint(old(buffer[..]), VLineDots(x, y, length, color))
    {
      ghost var b0 := buffer[..];
      var i := 0;
      while i < length
        invariant 0 <= i && (i <= length || i == 0)
        invariant Valid() && buffer[..] == VLinePaint(b0, x, y, color, i)
      {
        DrawPixel(x, y + i, color);
        i := i + 1;
      }
      VLineDrawn(b0, x, y, length, color, i);
    }

    /** `draw_rect(x1, y1, x2, y2, color)` */
    method DrawRect(x1: int, y1: int, x2: int, y2: int, color: bool := true)
      requires Valid()
      modifies buffer
      ensures Valid() && buffer[..] == Paint(old(buffer[..]), RectDots(x1, y1, x2, y2, color))
    {
      ghost var b0 := buffer[..];
      DrawHLine(x1, y1, x2 - x1 + 1, color);
      DrawHLine(x1, y2, x2 - x1 + 1, color);
      DrawVLine(x1, y1, y2 - y1 + 1, color);
      DrawVLine(x2, y1, y2 - y1 + 1, color);
      var top, bottom := HLineDots(x1, y1, x2 - x1 + 1, color), HLineDots(x1, y2, x2 - x1 + 1, color);
      var left := VLineDots(x1, y1, y2 - y1 + 1, color);
      PaintAppend(b0, top + bottom + left, VLineDots(x2, y1, y2 - y1 + 1, color));
      PaintAppend(b0, top + bottom, left);
      PaintAppend(b0, top, bottom);
    }

    /** `draw_char(x, y, char, color)` */
    method DrawChar(x: int, y: int, ch: char, color: bool := true)
      requires Valid()
      modifies buffer
      ensures Valid() && buffer[..] == Paint(old(buffer[..]), CharDots(font, x, y, ch, color))
    {
      var c := if 32 <= ch as int < 127 then ch as int else '?' as int;
      var idx := (c - 32) * 5;
      if idx + 4 >= |font| {
        return;
      }
      assert idx == GlyphStart(ch);
      ghost var b0 := buffer[..];
      DrawGlyph(x, y, idx, color);
      // The spacer loop draws rows 0..7 of column x + 5 in the opposite colour, which is what
      // the column loop draws for a zero column byte.
      var spacerX := x + 5;
      ghost var cur := buffer[..];
      DrawColumn(spacerX, y, 0, color);
      SpacerStep(b0, cur, font, x, y, ch, color);
    }

    /** The column loop of `draw_char`: the five columns of the glyph at `start` in the font. */
    method DrawGlyph(x: int, y: int, start: nat, color: bool)
      requires Valid() && start + 5 <= |font|
      modifies buffer
      ensures Valid() && buffer[..] == Paint(old(buffer[..]), GlyphDots(font, start, x, y, color, 5))
    {
      ghost var b0 := buffer[..];
      for col := 0 to 5
        invariant Valid() && buffer[..] == GlyphPaint(b0, font, start, x, y, color, col)
      {
        var columnX := x + col;
        var line := font[start + col];
        DrawColumn(columnX, y, line, color);
      }
      GlyphPaintDots(b0, font, start, x, y, color, 5);
    }

    /** The inner loop of `draw_char`: row `row` of column x is lit when bit `row` of the column
        byte is set, for `color` true, and the other way round for `color` false. */
    method DrawColumn(x: int, y: int, line: bv8, color: bool)
      requires Valid()
      modifies buffer
      ensures Valid() && buffer[..] == Paint(old(buffer[..]), ColumnDots(x, y, line, color))
    {
      ghost var b0 := buffer[..];
      for row := 0 to 8
        invariant Valid() && buffer[..] == ColumnPaint(b0, x, y, line, color, row)
      {
        var pixelOn := (line >> row) & 1 == 1;
        PixelBit(line, row);
        DrawPixel(x, y + row, if color then pixelOn else !pixelOn);
      }
      ColumnPaintDots(b0, x, y, line, color, 8);
    }

    /** `draw_text(x, y, text, color)` */
    method DrawText(x: int, y: int, text: string, color: bool := true)
      requires Valid()
      modifies buffer
      ensures Valid() && buffer[..] == Paint(old(buffer[..]), TextDots(font, x, y, text, color))
    {
      ghost var b0 := buffer[..];
      for i := 0 to |text|
        invariant Valid() && buffer[..] == LayoutPaint(b0, CharCell(font, y, color), x, text, i)
      {
        DrawCell(b0, x, y, text, i, color);
      }
      LayoutPaintDots(b0, CharCell(font, y, color), x, text, |text|);
      assert text[..|text|] == text;
    }

    /** One pass of the `draw_text` loop: character i drawn in the cell at x + 6 * i. */
    method DrawCell(ghost b0: seq<bv8>, x: int, y: int, text: string, i: nat, color: bool)
      requires Valid() && |b0| == BufferSize && i < |text|
      requires buffer[..] == LayoutPaint(b0, CharCell(font, y, color), x, text, i)
      modifies buffer
      ensures Valid() && buffer[..] == LayoutPaint(b0, CharCell(font, y, color), x, text, i + 1)
    {
      DrawChar(x + i * 6, y, text[i], color);
    }

    /** `write_line(line_num, text, color)`: text on one of the 8 text lines; any other line number
        draws nothing. */
    method WriteLine(line: int, text: string, color: bool := true)
      requires Valid()
      modifies buffer
      ensures Valid()
      ensures buffer[..] == if 0 <= line < 8 then Paint(old(buffer[..]), TextDots(font, 0, line * 8, text, color)) else old(buffer[..])
    {
      if 0 <= line < 8 {
        DrawText(0, line * 8, text, color);
      }
    }
  }

  /** The buffer after the first n rows of a font column, drawn one `draw_pixel` at a time. */
  function ColumnPaint(buf: seq<bv8>, x: int, y: int, line: bv8, on: bool, n: nat): (r: seq<bv8>)
    requires |buf| == BufferSize && n <= 8
    ensures |r| == BufferSize && r[0] == buf[0]
  {
    if n == 0 then buf
    else SetPixel(ColumnPaint(buf, x, y, line, on, n - 1), x, y + n - 1, BitSet(line, n - 1) == on)
  }

  /** Drawing the rows one at a time is painting the column's dots. */
  lemma {:induction false} ColumnPaintDots(buf: seq<bv8>, x: int, y: int, line: bv8, on: bool, n: nat)
    requires |buf| == BufferSize && n <= 8
    ensures ColumnPaint(buf, x, y, line, on, n) == Paint(buf, ColumnRows(x, y, line, on, n))
  {
    if n > 0 {
      ColumnPaintDots(buf, x, y, line, on, n - 1);
      PaintSnoc(buf, ColumnRows(x, y, line, on, n - 1), Dot(x, y + n - 1, BitSet(line, n - 1) == on));
    }
  }

  /** The buffer after the first n columns of a glyph, drawn one column at a time. */
  function GlyphPaint(buf: seq<bv8>, font: seq<bv8>, start: nat, x: int, y: int, on: bool, n: nat): (r: seq<bv8>)
    requires |buf| == BufferSize && start + n <= |font|
    ensures |r| == BufferSize && r[0] == buf[0]
  {
    if n == 0 then buf
    else Paint(GlyphPaint(buf, font, start, x, y, on, n - 1), ColumnDots(x + n - 1, y, font[start + n - 1], on))
  }

  /** Drawing a glyph column by column is painting its dots. */
  lemma {:induction false} GlyphPaintDots(buf: seq<bv8>, font: seq<bv8>, start: nat, x: int, y: int, on: bool, n: nat)
    requires |buf| == BufferSize && start + n <= |font|
    ensures GlyphPaint(buf, font, start, x, y, on, n) == Paint(buf, GlyphDots(font, start, x, y, on, n))
  {
    if n > 0 {
      GlyphPaintDots(buf, font, start, x, y, on, n - 1);
      PaintAppend(buf, GlyphDots(font, start, x, y, on, n - 1), ColumnDots(x + n - 1, y, font[start + n - 1], on));
    }
  }

  /** The spacer column after the five glyph columns completes the character. */
  lemma SpacerStep(b0: seq<bv8>, cur: seq<bv8>, font: seq<bv8>, x: int, y: int, ch: char, on: bool)
    requires |b0| == BufferSize && HasGlyph(font, ch)
    requires cur == Paint(b0, GlyphDots(font, GlyphStart(ch), x, y, on, 5))
    ensures Paint(cur, ColumnDots(x + 5, y, 0, on)) == Paint(b0, CharDots(font, x, y, ch, on))
  {
    BlankColumn(x + 5, y, on);
    PaintAppend(b0, GlyphDots(font, GlyphStart(ch), x, y, on, 5), VLineDots(x + 5, y, 8, !on));
  }

  /** The buffer after the first n cells of a text layout, drawn one cell at a time. */
  function LayoutPaint(buf: seq<bv8>, cell: (int, char) -> seq<Dot>, x: int, text: string, n: nat): (r: seq<bv8>)
    requires |buf| == BufferSize && n <= |text|
    ensures |r| == BufferSize && r[0] == buf[0]
  {
    if n == 0 then buf
    else Paint(LayoutPaint(buf, cell, x, text, n - 1), cell(x + (n - 1) * 6, text[n - 1]))
  }



  /** Drawing a text cell by cell is painting its layout. */
  lemma {:induction false} LayoutPaintDots(buf: seq<bv8>, cell: (int, char) -> seq<Dot>, x: int, text: string, n: nat)
    requires |buf| == BufferSize && n <= |text|
    ensures LayoutPaint(buf, cell, x, text, n) == Paint(buf, Layout(cell, x, text[..n]))
  {
    if n == 0 {
      assert text[..0] == [];
    } else {
      LayoutPaintDots(buf, cell, x, text, n - 1);
      LayoutNext(cell, x, text, n - 1);
      PaintAppend(buf, Layout(cell, x, text[..n - 1]), cell(x + (n - 1) * 6, text[n - 1]));
    }
  }

  /** `(line >> row) & 0x01` tests bit `row`. */
  lemma PixelBit(line: bv8, row: nat)
    requires row < 8
    ensures ((line >> row) & 1 == 1) == BitSet(line, row)
  {
  }
}
